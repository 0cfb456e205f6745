/**
 * The medication form: fields loaded when it appears, a cancel action, and
 * saving a trimmed name with a single reminder time to the store.
 */
module MedicationFormScreen {
  import opened Wrappers
  import opened Dates
  import opened Seqs
  import opened Text
  import opened Models
  import opened Store
  import opened QuickAdd

  /**
   * The medication `saveAction` hands to the store: the edited medication with
   * the form's fields, or a new one made at `now` with `freshId`; the name
   * trimmed, and the single reminder `[reminderTime]`.
   */
  function BuildMedication(editing: Option<MedicationModel>, name: string, medicationDescription: string,
                           instructions: string, timesPerDay: int, reminderTime: Time,
                           now: Time, freshId: Uuid): (m: MedicationModel)
    ensures m.name == Trim(name)
    ensures m.medicationDescription == medicationDescription && m.instructions == instructions
    ensures m.timesPerDay == timesPerDay && m.reminderTimes == [reminderTime]
    ensures m.id == (if editing.Some? then editing.value.id else freshId)
    ensures m.createdAt == (if editing.Some? then editing.value.createdAt else now) && m.updatedAt == now
  {
    match editing
    case Some(existing) =>
      existing.(name := Trim(name), medicationDescription := medicationDescription, instructions := instructions,
                timesPerDay := timesPerDay, reminderTimes := [reminderTime], updatedAt := now)
    case None =>
      NewMedication(freshId, Trim(name), medicationDescription, instructions, timesPerDay, [reminderTime], now)
  }

  /**
   * The saved name is already trimmed, so saving it again keeps it; and a form
   * that may be saved never writes an empty name.
   */
  lemma SavedNameTrimmed(editing: Option<MedicationModel>, name: string, medicationDescription: string,
                         instructions: string, timesPerDay: int, reminderTime: Time, now: Time, freshId: Uuid)
    ensures var m := BuildMedication(editing, name, medicationDescription, instructions, timesPerDay, reminderTime,
                                     now, freshId);
      && Trim(m.name) == m.name
      && (HasContent(name) <==> m.name != [])
  {
    TrimIdempotent(name);
  }

  class MedicationFormView {
    var name: string
    var medicationDescription: string
    var instructions: string
    var timesPerDay: int
    var reminderTime: Time
    var editingMedication: Option<MedicationModel>
    const quickAddState: QuickAddBinding
    const dataManager: DataManager

    /** The declared defaults: blank text, once a day, reminder now, not editing. */
    constructor (quickAddState: QuickAddBinding, dataManager: DataManager, now: Time)
      ensures this.quickAddState == quickAddState && this.dataManager == dataManager
      ensures name == "" && medicationDescription == "" && instructions == ""
      ensures timesPerDay == 1 && reminderTime == now && editingMedication == None
    {
      this.quickAddState := quickAddState;
      this.dataManager := dataManager;
      name := "";
      medicationDescription := "";
      instructions := "";
      timesPerDay := 1;
      reminderTime := now;
      editingMedication := None;
    }

    /**
     * `loadFormData`, run when the form appears: a medication form state with a
     * medication loads its fields, and its first reminder when it has one.
     */
    method LoadFormData()
      modifies this
      ensures match old(quickAddState.state)
        case MedicationForm(Some(med)) =>
          && editingMedication == Some(med) && name == med.name
          && medicationDescription == med.medicationDescription && instructions == med.instructions
          && timesPerDay == med.timesPerDay
          && reminderTime == (if med.reminderTimes != [] then med.reminderTimes[0] else old(reminderTime))
        case _ =>
          && editingMedication == old(editingMedication) && name == old(name)
          && medicationDescription == old(medicationDescription) && instructions == old(instructions)
          && timesPerDay == old(timesPerDay) && reminderTime == old(reminderTime)
    {
      var state := quickAddState.state;
      if state.MedicationForm? && state.editingMedication.Some? {
        var med := state.editingMedication.value;
        editingMedication := Some(med);
        name := med.name;
        medicationDescription := med.medicationDescription;
        instructions := med.instructions;
        timesPerDay := med.timesPerDay;
        if med.reminderTimes != [] {
          reminderTime := med.reminderTimes[0];
        }
      }
    }

    /** The save button is enabled when the name is not blank. */
    predicate IsValidForm()
      reads this
    {
      HasContent(name)
    }

    /** The medication a save at `now` writes. */
    function Draft(now: Time, freshId: Uuid): MedicationModel
      reads this
    {
      BuildMedication(editingMedication, name, medicationDescription, instructions, timesPerDay, reminderTime,
                      now, freshId)
    }

    /** `cancelAction`: the quick-add state's own cancel. */
    method CancelAction()
      modifies quickAddState
      ensures quickAddState.state == old(quickAddState.state).Cancel()
    {
      quickAddState.Cancel();
    }

    /** `saveAction`: nothing with a blank name; otherwise upsert the draft and hide the panel. */
    method SaveAction(now: Time, freshId: Uuid)
      requires dataManager.Valid()
      requires editingMedication.None? ==> !KeyInUse(dataManager.medications, MedicationId, freshId)
      modifies dataManager, quickAddState
      ensures dataManager.Valid()
      ensures !old(IsValidForm()) ==> unchanged(dataManager) && unchanged(quickAddState)
      ensures old(IsValidForm()) ==>
        && dataManager.medications == Upsert(old(dataManager.medications), MedicationId, old(Draft(now, freshId)))
        && (old(editingMedication).None? ==>
              dataManager.medications == old(dataManager.medications) + [old(Draft(now, freshId))])
        && quickAddState.state == Hidden
      ensures dataManager.tasks == old(dataManager.tasks) && dataManager.habits == old(dataManager.habits)
      ensures dataManager.habitInstances == old(dataManager.habitInstances)
      ensures dataManager.medicationInstances == old(dataManager.medicationInstances)
    {
      if !IsValidForm() {
        return;
      }
      var medication := Draft(now, freshId);
      assert medication.(updatedAt := now) == medication;
      if editingMedication.None? {
        FreshKeyAppends(dataManager.medications, MedicationId, medication);
      }
      dataManager.SaveMedication(medication, now);
      quickAddState.Hide();
    }

    /** `deleteAction`: only an edited medication is deleted, and the panel hides. */
    method DeleteAction()
      requires dataManager.Valid()
      modifies dataManager, quickAddState
      ensures dataManager.Valid()
      ensures editingMedication.None? ==> unchanged(dataManager) && unchanged(quickAddState)
      ensures editingMedication.Some? ==>
        && dataManager.medications == RemoveKey(old(dataManager.medications), MedicationId, editingMedication.value.id)
        && quickAddState.state == Hidden
      ensures dataManager.tasks == old(dataManager.tasks) && dataManager.habits == old(dataManager.habits)
      ensures dataManager.habitInstances == old(dataManager.habitInstances)
      ensures dataManager.medicationInstances == old(dataManager.medicationInstances)
    {
      if editingMedication.None? {
        return;
      }
      dataManager.DeleteMedication(editingMedication.value);
      quickAddState.Hide();
    }
  }
}
