/**
 * The complete and skip buttons of an item card. A task is flipped and saved
 * whole; a habit or medication instance is flipped in memory and the change is
 * written to the store's record for its day (and dose). Undoing a skip deletes
 * that record. Either way the list's refresh counter goes up by one.
 */
module ItemCardActions {
  import opened Wrappers
  import opened Dates
  import opened Seqs
  import opened Models
  import opened Store
  import opened ItemsList

  // ---------------------------------------------------------------------------
  // The in-memory flips

  /** A task after the complete button: completion flipped, skip cleared. */
  function TaskCompleteToggled(t: TaskModel, now: Time): (r: TaskModel)
    ensures r.isCompleted == !t.isCompleted && !r.isSkipped
    ensures r.completedAt == (if r.isCompleted then Some(now) else None) && r.skippedAt == None
    ensures r.id == t.id && r.dueDate == t.dueDate && r.createdAt == t.createdAt && r.updatedAt == now
  {
    var c := !t.isCompleted;
    t.(isCompleted := c, isSkipped := false, completedAt := if c then Some(now) else None, skippedAt := None,
       updatedAt := now)
  }

  /** A task after the skip button: skip flipped, completion cleared. */
  function TaskSkipToggled(t: TaskModel, now: Time): (r: TaskModel)
    ensures r.isSkipped == !t.isSkipped && !r.isCompleted
    ensures r.skippedAt == (if r.isSkipped then Some(now) else None) && r.completedAt == None
    ensures r.id == t.id && r.dueDate == t.dueDate && r.createdAt == t.createdAt && r.updatedAt == now
  {
    var s := !t.isSkipped;
    t.(isSkipped := s, isCompleted := false, skippedAt := if s then Some(now) else None, completedAt := None,
       updatedAt := now)
  }

  /** Flags and stamps agree, and an item is never both completed and skipped. */
  predicate TaskStateConsistent(t: TaskModel) {
    !(t.isCompleted && t.isSkipped)
    && (t.completedAt.Some? <==> t.isCompleted) && (t.skippedAt.Some? <==> t.isSkipped)
  }

  /** Each button leaves any task in a consistent state, and pressing it twice returns a task to pending. */
  lemma TaskTogglesConsistent(t: TaskModel, t1: Time, t2: Time)
    ensures TaskStateConsistent(TaskCompleteToggled(t, t1)) && TaskStateConsistent(TaskSkipToggled(t, t1))
    ensures !t.isCompleted ==>
      var r := TaskCompleteToggled(TaskCompleteToggled(t, t1), t2);
      !r.isCompleted && !r.isSkipped && r.completedAt == None && r.skippedAt == None
    ensures !t.isSkipped ==>
      var r := TaskSkipToggled(TaskSkipToggled(t, t1), t2);
      !r.isCompleted && !r.isSkipped && r.completedAt == None && r.skippedAt == None
  {
  }

  function HabitCompleteToggled(h: HabitInstance, now: Time): (r: HabitInstance)
    ensures r.isCompleted == !h.isCompleted && !r.isSkipped
    ensures r.completedAt == (if r.isCompleted then Some(now) else None) && r.skippedAt == None
    ensures r.originalHabit == h.originalHabit && r.instanceDate == h.instanceDate && r.scheduledTime == h.scheduledTime
  {
    var c := !h.isCompleted;
    h.(isCompleted := c, isSkipped := false, completedAt := if c then Some(now) else None, skippedAt := None)
  }

  function HabitSkipToggled(h: HabitInstance, now: Time): (r: HabitInstance)
    ensures r.isSkipped == !h.isSkipped && !r.isCompleted
    ensures r.skippedAt == (if r.isSkipped then Some(now) else None) && r.completedAt == None
    ensures r.originalHabit == h.originalHabit && r.instanceDate == h.instanceDate && r.scheduledTime == h.scheduledTime
  {
    var s := !h.isSkipped;
    h.(isCompleted := false, isSkipped := s, completedAt := None, skippedAt := if s then Some(now) else None)
  }

  function DoseCompleteToggled(m: MedicationInstance, now: Time): (r: MedicationInstance)
    ensures r.isCompleted == !m.isCompleted && !r.isSkipped
    ensures r.completedAt == (if r.isCompleted then Some(now) else None) && r.skippedAt == None
    ensures r.originalMedication == m.originalMedication && r.doseNumber == m.doseNumber && r.instanceDate == m.instanceDate
  {
    var c := !m.isCompleted;
    m.(isCompleted := c, isSkipped := false, completedAt := if c then Some(now) else None, skippedAt := None)
  }

  function DoseSkipToggled(m: MedicationInstance, now: Time): (r: MedicationInstance)
    ensures r.isSkipped == !m.isSkipped && !r.isCompleted
    ensures r.skippedAt == (if r.isSkipped then Some(now) else None) && r.completedAt == None
    ensures r.originalMedication == m.originalMedication && r.doseNumber == m.doseNumber && r.instanceDate == m.instanceDate
  {
    var s := !m.isSkipped;
    m.(isCompleted := false, isSkipped := s, completedAt := None, skippedAt := if s then Some(now) else None)
  }

  // ---------------------------------------------------------------------------
  // The card agrees with the store

  /** The habit instance is what the list would build from the store's current record for its day. */
  predicate HabitShowsStore(h: HabitInstance, records: seq<HabitInstanceModel>) {
    h == NewHabitInstance(h.originalHabit, h.instanceDate, GetHabitInstance(records, h.originalHabit.id, h.instanceDate))
  }

  /** The dose instance is what the list would build from the store's current record for its dose. */
  predicate DoseShowsStore(m: MedicationInstance, records: seq<MedicationInstanceModel>) {
    m.doseNumber >= 1
    && m == NewMedicationInstance(m.originalMedication, m.instanceDate, m.doseNumber,
                                  GetMedicationInstance(records, m.originalMedication.id, m.instanceDate, m.doseNumber))
  }

  /** The habit records after the complete button: the day's record toggled in its slot. */
  function HabitRecordsAfterComplete(rs: seq<HabitInstanceModel>, h: HabitInstance, now: Time, freshId: Uuid)
    : seq<HabitInstanceModel>
  {
    var id, date := h.originalHabit.id, h.instanceDate;
    Upsert(rs, HabitSlot, CompletionToggled(GetHabitInstance(rs, id, date), id, date, now, freshId))
  }

  /**
   * The habit records after the skip button: skipping writes a skipped record
   * into the day's slot; undoing a skip removes the day's record, if any.
   */
  function HabitRecordsAfterSkip(rs: seq<HabitInstanceModel>, h: HabitInstance, now: Time, freshId: Uuid)
    : seq<HabitInstanceModel>
  {
    var id, date := h.originalHabit.id, h.instanceDate;
    var found := GetHabitInstance(rs, id, date);
    if !h.isSkipped then Upsert(rs, HabitSlot, Skipped(found, id, date, now, freshId))
    else if found.Some? then RemoveKey(rs, HabitRecordId, found.value.id)
    else rs
  }

  /** The dose records after the complete button. */
  function DoseRecordsAfterComplete(rs: seq<MedicationInstanceModel>, m: MedicationInstance, now: Time, freshId: Uuid)
    : seq<MedicationInstanceModel>
  {
    var id, date, n := m.originalMedication.id, m.instanceDate, m.doseNumber;
    Upsert(rs, MedicationSlot, DoseCompletionToggled(GetMedicationInstance(rs, id, date, n), id, date, n, now, freshId))
  }

  /** The dose records after the skip button. */
  function DoseRecordsAfterSkip(rs: seq<MedicationInstanceModel>, m: MedicationInstance, now: Time, freshId: Uuid)
    : seq<MedicationInstanceModel>
  {
    var id, date, n := m.originalMedication.id, m.instanceDate, m.doseNumber;
    var found := GetMedicationInstance(rs, id, date, n);
    if !m.isSkipped then Upsert(rs, MedicationSlot, DoseSkipped(found, id, date, n, now, freshId))
    else if found.Some? then RemoveKey(rs, MedicationRecordId, found.value.id)
    else rs
  }

  /** After the complete button, the flipped habit instance is what the updated store shows. */
  lemma HabitCompleteAgrees(h: HabitInstance, rs: seq<HabitInstanceModel>, now: Time, freshId: Uuid)
    requires StoreValid(rs, HabitRecordId, HabitSlot, HabitRecordExclusive)
    requires forall r :: r in rs ==> r.id != freshId
    requires HabitShowsStore(h, rs)
    ensures HabitShowsStore(HabitCompleteToggled(h, now), HabitRecordsAfterComplete(rs, h, now, freshId))
  {
    var id, date := h.originalHabit.id, h.instanceDate;
    var x := CompletionToggled(GetHabitInstance(rs, id, date), id, date, now, freshId);
    StoreRecordKeepsValid(rs, id, date, x);
  }

  /** After the skip button, the flipped habit instance is what the updated store shows. */
  lemma HabitSkipAgrees(h: HabitInstance, rs: seq<HabitInstanceModel>, now: Time, freshId: Uuid)
    requires StoreValid(rs, HabitRecordId, HabitSlot, HabitRecordExclusive)
    requires forall r :: r in rs ==> r.id != freshId
    requires HabitShowsStore(h, rs)
    ensures HabitShowsStore(HabitSkipToggled(h, now), HabitRecordsAfterSkip(rs, h, now, freshId))
  {
    var id, date := h.originalHabit.id, h.instanceDate;
    var found := GetHabitInstance(rs, id, date);
    if !h.isSkipped {
      StoreRecordKeepsValid(rs, id, date, Skipped(found, id, date, now, freshId));
    } else {
      RemoveFoundEmptiesSlot(rs, HabitRecordId, HabitSlot, found.value);
    }
  }

  /** After the complete button, the flipped dose instance is what the updated store shows. */
  lemma DoseCompleteAgrees(m: MedicationInstance, rs: seq<MedicationInstanceModel>, now: Time, freshId: Uuid)
    requires StoreValid(rs, MedicationRecordId, MedicationSlot, MedicationRecordExclusive)
    requires forall r :: r in rs ==> r.id != freshId
    requires DoseShowsStore(m, rs)
    ensures DoseShowsStore(DoseCompleteToggled(m, now), DoseRecordsAfterComplete(rs, m, now, freshId))
  {
    var id, date, n := m.originalMedication.id, m.instanceDate, m.doseNumber;
    var x := DoseCompletionToggled(GetMedicationInstance(rs, id, date, n), id, date, n, now, freshId);
    StoreDoseKeepsValid(rs, id, date, n, x);
  }

  /** After the skip button, the flipped dose instance is what the updated store shows. */
  lemma DoseSkipAgrees(m: MedicationInstance, rs: seq<MedicationInstanceModel>, now: Time, freshId: Uuid)
    requires StoreValid(rs, MedicationRecordId, MedicationSlot, MedicationRecordExclusive)
    requires forall r :: r in rs ==> r.id != freshId
    requires DoseShowsStore(m, rs)
    ensures DoseShowsStore(DoseSkipToggled(m, now), DoseRecordsAfterSkip(rs, m, now, freshId))
  {
    var id, date, n := m.originalMedication.id, m.instanceDate, m.doseNumber;
    var found := GetMedicationInstance(rs, id, date, n);
    if !m.isSkipped {
      StoreDoseKeepsValid(rs, id, date, n, DoseSkipped(found, id, date, n, now, freshId));
    } else {
      RemoveFoundEmptiesSlot(rs, MedicationRecordId, MedicationSlot, found.value);
    }
  }

  // ---------------------------------------------------------------------------
  // The card

  /** Habit and medication instances on the card show the store's state for their slot. */
  predicate ItemShowsStore(item: Item, dm: DataManager)
    reads dm
  {
    match item
    case TaskItem(_) => true
    case HabitItem(h) => HabitShowsStore(h, dm.habitInstances)
    case DoseItem(m) => DoseShowsStore(m, dm.medicationInstances)
  }

  /** An id that no habit or dose record uses, standing for `UUID()`. */
  predicate FreshRecordId(dm: DataManager, freshId: Uuid)
    reads dm
  {
    (forall r :: r in dm.habitInstances ==> r.id != freshId)
    && (forall r :: r in dm.medicationInstances ==> r.id != freshId)
  }

  class ItemCard {
    var item: Item
    var refreshTrigger: int
    const dataManager: DataManager

    constructor (item: Item, dataManager: DataManager)
      ensures this.item == item && this.dataManager == dataManager && refreshTrigger == 0
    {
      this.item := item;
      this.dataManager := dataManager;
      refreshTrigger := 0;
    }

    /** `toggleCompleteAction`. */
    method ToggleCompleteAction(now: Time, freshId: Uuid)
      requires dataManager.Valid() && FreshRecordId(dataManager, freshId)
      requires ItemShowsStore(item, dataManager)
      modifies this, dataManager
      ensures dataManager.Valid() && ItemShowsStore(item, dataManager)
      ensures refreshTrigger == old(refreshTrigger) + 1
      ensures old(item).TaskItem? ==>
        item == old(item)
        && dataManager.tasks == Upsert(old(dataManager.tasks), TaskId, TaskCompleteToggled(old(item).task, now))
      ensures old(item).HabitItem? ==>
        item == HabitItem(HabitCompleteToggled(old(item).habit, now))
        && dataManager.habitInstances == HabitRecordsAfterComplete(old(dataManager.habitInstances), old(item).habit, now, freshId)
      ensures old(item).DoseItem? ==>
        item == DoseItem(DoseCompleteToggled(old(item).dose, now))
        && dataManager.medicationInstances == DoseRecordsAfterComplete(old(dataManager.medicationInstances), old(item).dose, now, freshId)
      ensures !old(item).TaskItem? ==> dataManager.tasks == old(dataManager.tasks)
      ensures !old(item).HabitItem? ==> dataManager.habitInstances == old(dataManager.habitInstances)
      ensures !old(item).DoseItem? ==> dataManager.medicationInstances == old(dataManager.medicationInstances)
      ensures dataManager.habits == old(dataManager.habits) && dataManager.medications == old(dataManager.medications)
    {
      match item {
        case TaskItem(t) =>
          dataManager.SaveTask(TaskCompleteToggled(t, now));
        case HabitItem(h) =>
          HabitCompleteAgrees(h, dataManager.habitInstances, now, freshId);
          item := HabitItem(HabitCompleteToggled(h, now));
          dataManager.ToggleHabitCompletion(h.originalHabit.id, h.instanceDate, now, freshId);
        case DoseItem(m) =>
          DoseCompleteAgrees(m, dataManager.medicationInstances, now, freshId);
          item := DoseItem(DoseCompleteToggled(m, now));
          dataManager.ToggleMedicationCompletion(m.originalMedication.id, m.instanceDate, m.doseNumber, now, freshId);
      }
      refreshTrigger := refreshTrigger + 1;
    }

    /** `toggleSkipAction`: skipping stores a skip; undoing a skip deletes the day's record. */
    method ToggleSkipAction(now: Time, freshId: Uuid)
      requires dataManager.Valid() && FreshRecordId(dataManager, freshId)
      requires ItemShowsStore(item, dataManager)
      modifies this, dataManager
      ensures dataManager.Valid() && ItemShowsStore(item, dataManager)
      ensures refreshTrigger == old(refreshTrigger) + 1
      ensures old(item).TaskItem? ==>
        item == old(item)
        && dataManager.tasks == Upsert(old(dataManager.tasks), TaskId, TaskSkipToggled(old(item).task, now))
      ensures old(item).HabitItem? ==>
        item == HabitItem(HabitSkipToggled(old(item).habit, now))
        && dataManager.habitInstances == HabitRecordsAfterSkip(old(dataManager.habitInstances), old(item).habit, now, freshId)
      ensures old(item).DoseItem? ==>
        item == DoseItem(DoseSkipToggled(old(item).dose, now))
        && dataManager.medicationInstances == DoseRecordsAfterSkip(old(dataManager.medicationInstances), old(item).dose, now, freshId)
      ensures !old(item).TaskItem? ==> dataManager.tasks == old(dataManager.tasks)
      ensures !old(item).HabitItem? ==> dataManager.habitInstances == old(dataManager.habitInstances)
      ensures !old(item).DoseItem? ==> dataManager.medicationInstances == old(dataManager.medicationInstances)
      ensures dataManager.habits == old(dataManager.habits) && dataManager.medications == old(dataManager.medications)
    {
      match item {
        case TaskItem(t) =>
          dataManager.SaveTask(TaskSkipToggled(t, now));
        case HabitItem(h) =>
          HabitSkipAgrees(h, dataManager.habitInstances, now, freshId);
          var updated := HabitSkipToggled(h, now);
          item := HabitItem(updated);
          if updated.isSkipped {
            dataManager.SkipHabit(h.originalHabit.id, h.instanceDate, now, freshId);
          } else {
            var existing := GetHabitInstance(dataManager.habitInstances, h.originalHabit.id, h.instanceDate);
            if existing.Some? {
              dataManager.RemoveHabitRecord(existing.value.id);
            }
          }
        case DoseItem(m) =>
          DoseSkipAgrees(m, dataManager.medicationInstances, now, freshId);
          var updated := DoseSkipToggled(m, now);
          item := DoseItem(updated);
          if updated.isSkipped {
            dataManager.SkipMedication(m.originalMedication.id, m.instanceDate, m.doseNumber, now, freshId);
          } else {
            var existing := GetMedicationInstance(dataManager.medicationInstances, m.originalMedication.id,
                                                  m.instanceDate, m.doseNumber);
            if existing.Some? {
              dataManager.RemoveMedicationRecord(existing.value.id);
            }
          }
      }
      refreshTrigger := refreshTrigger + 1;
    }
  }
}
