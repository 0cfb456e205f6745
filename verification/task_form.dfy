/**
 * The task form: fields loaded from the task being edited (or defaults);
 * saving rebuilds the task through `TaskModel.init`, writes it to the store
 * and hides the quick-add panel.
 */
module TaskFormScreen {
  import opened Wrappers
  import opened Dates
  import opened Seqs
  import opened Text
  import opened Models
  import opened Store
  import opened QuickAdd

  /**
   * The task `saveTask` writes. An edited task keeps its id and completion
   * state; a new one gets `freshId` and starts pending. Because it is rebuilt
   * through the initialiser, both audit stamps are `now` in either case.
   */
  function BuildTask(editing: Option<TaskModel>, name: string, taskDescription: string, priority: TaskPriority,
                     dueDate: Time, now: Time, freshId: Uuid): (t: TaskModel)
    ensures t.name == name && t.taskDescription == taskDescription && t.priority == priority && t.dueDate == dueDate
    ensures editing.Some? ==>
      && t.id == editing.value.id
      && t.isCompleted == editing.value.isCompleted && t.isSkipped == editing.value.isSkipped
      && t.completedAt == editing.value.completedAt && t.skippedAt == editing.value.skippedAt
    ensures editing.None? ==>
      t.id == freshId && !t.isCompleted && !t.isSkipped && t.completedAt == None && t.skippedAt == None
    ensures t.createdAt == now && t.updatedAt == now
  {
    match editing
    case Some(e) =>
      NewTask(e.id, name, taskDescription, priority, dueDate, e.isCompleted, e.isSkipped, e.completedAt, e.skippedAt, now)
    case None =>
      NewTask(freshId, name, taskDescription, priority, dueDate, false, false, None, None, now)
  }

  /**
   * Saving an edited task, even unchanged, moves its creation time to the
   * moment of the save; it is the only field besides `updatedAt` that moves.
   */
  lemma EditResetsCreatedAt(t: TaskModel, now: Time, freshId: Uuid)
    ensures BuildTask(Some(t), t.name, t.taskDescription, t.priority, t.dueDate, now, freshId)
            == t.(createdAt := now, updatedAt := now)
    ensures t.createdAt != now ==>
      BuildTask(Some(t), t.name, t.taskDescription, t.priority, t.dueDate, now, freshId).createdAt != t.createdAt
  {
  }

  class TaskFormView {
    var name: string
    var taskDescription: string
    var selectedPriority: TaskPriority
    var dueDate: Time
    const editingTask: Option<TaskModel>
    const quickAddState: QuickAddBinding
    const dataManager: DataManager

    /** Opened from the quick-add state: a task form state with a task loads its fields. */
    constructor (quickAddState: QuickAddBinding, dataManager: DataManager, now: Time)
      ensures this.quickAddState == quickAddState && this.dataManager == dataManager
      ensures editingTask == (if quickAddState.state.TaskForm? then quickAddState.state.editingTask else None)
      ensures editingTask.Some? ==>
        && name == editingTask.value.name && taskDescription == editingTask.value.taskDescription
        && selectedPriority == editingTask.value.priority && dueDate == editingTask.value.dueDate
      ensures editingTask.None? ==> name == "" && taskDescription == "" && selectedPriority == Medium && dueDate == now
    {
      this.quickAddState := quickAddState;
      this.dataManager := dataManager;
      var editing := if quickAddState.state.TaskForm? then quickAddState.state.editingTask else None;
      editingTask := editing;
      if editing.Some? {
        name := editing.value.name;
        taskDescription := editing.value.taskDescription;
        selectedPriority := editing.value.priority;
        dueDate := editing.value.dueDate;
      } else {
        name := "";
        taskDescription := "";
        selectedPriority := Medium;
        dueDate := now;
      }
    }

    /** The save button is enabled when the name is not blank. */
    predicate CanSave()
      reads this
    {
      HasContent(name)
    }

    /** The task a save at `now` writes. */
    function Draft(now: Time, freshId: Uuid): TaskModel
      reads this
    {
      BuildTask(editingTask, name, taskDescription, selectedPriority, dueDate, now, freshId)
    }

    /** `saveTask`: nothing with a blank name; otherwise upsert the draft and hide the panel. */
    method SaveTask(now: Time, freshId: Uuid)
      requires dataManager.Valid()
      requires editingTask.None? ==> !KeyInUse(dataManager.tasks, TaskId, freshId)
      modifies dataManager, quickAddState
      ensures dataManager.Valid()
      ensures !old(CanSave()) ==> unchanged(dataManager) && unchanged(quickAddState)
      ensures old(CanSave()) ==>
        && dataManager.tasks == Upsert(old(dataManager.tasks), TaskId, Draft(now, freshId))
        && (editingTask.None? ==> dataManager.tasks == old(dataManager.tasks) + [Draft(now, freshId)])
        && quickAddState.state == Hidden
      ensures dataManager.habits == old(dataManager.habits) && dataManager.habitInstances == old(dataManager.habitInstances)
      ensures dataManager.medications == old(dataManager.medications)
      ensures dataManager.medicationInstances == old(dataManager.medicationInstances)
    {
      if !CanSave() {
        return;
      }
      var task := Draft(now, freshId);
      dataManager.SaveTask(task);
      if editingTask.None? {
        assert IndexOfKey(old(dataManager.tasks), TaskId, freshId).None?;
      }
      quickAddState.Hide();
    }

    /** `deleteTask`: only an edited task is deleted, and the panel hides. */
    method DeleteTask()
      requires dataManager.Valid()
      modifies dataManager, quickAddState
      ensures dataManager.Valid()
      ensures editingTask.None? ==> unchanged(dataManager) && unchanged(quickAddState)
      ensures editingTask.Some? ==>
        && dataManager.tasks == RemoveKey(old(dataManager.tasks), TaskId, editingTask.value.id)
        && quickAddState.state == Hidden
      ensures dataManager.habits == old(dataManager.habits) && dataManager.habitInstances == old(dataManager.habitInstances)
      ensures dataManager.medications == old(dataManager.medications)
      ensures dataManager.medicationInstances == old(dataManager.medicationInstances)
    {
      if editingTask.None? {
        return;
      }
      dataManager.DeleteTask(editingTask.value);
      quickAddState.Hide();
    }
  }
}
