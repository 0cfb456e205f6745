/**
 * The habit form: its fields are loaded from the habit being edited (or
 * defaults), the day chips toggle set membership, and saving writes a habit
 * built from the fields to the store and hides the quick-add panel.
 */
module HabitFormScreen {
  import opened Wrappers
  import opened Dates
  import opened Seqs
  import opened Text
  import opened DaySets
  import opened Models
  import opened Store
  import opened QuickAdd

  /**
   * The habit `saveHabit` writes: the edited habit's id and creation time, or
   * `freshId` and `now` for a new one; the day sets as sorted lists; stamped at
   * `now`.
   */
  function BuildHabit(editing: Option<HabitModel>, name: string, habitDescription: string, remindAt: Time,
                      frequency: HabitFrequency, dailyInterval: int, weeklyInterval: int, selectedWeekdays: set<int>,
                      monthlyInterval: int, selectedDayOfMonth: int, customDays: set<int>,
                      now: Time, freshId: Uuid): (h: HabitModel)
    ensures h.id == (if editing.Some? then editing.value.id else freshId)
    ensures h.createdAt == (if editing.Some? then editing.value.createdAt else now) && h.updatedAt == now
    ensures StrictlyIncreasing(h.selectedWeekdays) && Elements(h.selectedWeekdays) == selectedWeekdays
    ensures StrictlyIncreasing(h.customDays) && Elements(h.customDays) == customDays
    ensures h.name == name && h.habitDescription == habitDescription && h.frequency == frequency
    ensures h.remindAt == remindAt && h.dailyInterval == dailyInterval && h.weeklyInterval == weeklyInterval
    ensures h.monthlyInterval == monthlyInterval && h.selectedDayOfMonth == selectedDayOfMonth
  {
    var habit := NewHabit(if editing.Some? then editing.value.id else freshId, name, habitDescription, frequency,
                          remindAt, dailyInterval, weeklyInterval, SortedElements(selectedWeekdays),
                          monthlyInterval, selectedDayOfMonth, SortedElements(customDays), now);
    var habit := if editing.Some? then habit.(createdAt := editing.value.createdAt) else habit;
    habit.(updatedAt := now)
  }

  /** Opening a habit whose day lists are sorted and saving it unchanged gives back the habit, restamped. */
  lemma EditRoundTrip(h: HabitModel, now: Time, freshId: Uuid)
    requires StrictlyIncreasing(h.selectedWeekdays) && StrictlyIncreasing(h.customDays)
    ensures BuildHabit(Some(h), h.name, h.habitDescription, h.remindAt, h.frequency, h.dailyInterval,
                       h.weeklyInterval, Elements(h.selectedWeekdays), h.monthlyInterval, h.selectedDayOfMonth,
                       Elements(h.customDays), now, freshId)
            == h.(updatedAt := now)
  {
    SortedElementsOfIncreasing(h.selectedWeekdays);
    SortedElementsOfIncreasing(h.customDays);
  }

  class HabitFormView {
    var name: string
    var habitDescription: string
    var remindAt: Time
    var selectedFrequency: HabitFrequency
    var dailyInterval: int
    var weeklyInterval: int
    var selectedWeekdays: set<int>
    var monthlyInterval: int
    var selectedDayOfMonth: int
    var customDays: set<int>
    const editingHabit: Option<HabitModel>
    const quickAddState: QuickAddBinding
    const dataManager: DataManager

    /**
     * Opened from the quick-add state: a habit form state with a habit loads
     * its fields; any other state leaves the declared defaults (now, "no
     * repetition", intervals and day of month 1, no days selected).
     */
    constructor (quickAddState: QuickAddBinding, dataManager: DataManager, now: Time)
      ensures this.quickAddState == quickAddState && this.dataManager == dataManager
      ensures editingHabit == (if quickAddState.state.HabitForm? then quickAddState.state.editingHabit else None)
      ensures editingHabit.Some? ==>
        var h := editingHabit.value;
        && name == h.name && habitDescription == h.habitDescription && remindAt == h.remindAt
        && selectedFrequency == h.frequency && dailyInterval == h.dailyInterval
        && weeklyInterval == h.weeklyInterval && selectedWeekdays == Elements(h.selectedWeekdays)
        && monthlyInterval == h.monthlyInterval && selectedDayOfMonth == h.selectedDayOfMonth
        && customDays == Elements(h.customDays)
      ensures editingHabit.None? ==>
        && name == "" && habitDescription == "" && remindAt == now && selectedFrequency == NoRepetition
        && dailyInterval == 1 && weeklyInterval == 1 && selectedWeekdays == {}
        && monthlyInterval == 1 && selectedDayOfMonth == 1 && customDays == {}
    {
      this.quickAddState := quickAddState;
      this.dataManager := dataManager;
      var editing := if quickAddState.state.HabitForm? then quickAddState.state.editingHabit else None;
      editingHabit := editing;
      if editing.Some? {
        var h := editing.value;
        name := h.name;
        habitDescription := h.habitDescription;
        remindAt := h.remindAt;
        selectedFrequency := h.frequency;
        dailyInterval := h.dailyInterval;
        weeklyInterval := h.weeklyInterval;
        selectedWeekdays := Elements(h.selectedWeekdays);
        monthlyInterval := h.monthlyInterval;
        selectedDayOfMonth := h.selectedDayOfMonth;
        customDays := Elements(h.customDays);
      } else {
        name := "";
        habitDescription := "";
        remindAt := now;
        selectedFrequency := NoRepetition;
        dailyInterval := 1;
        weeklyInterval := 1;
        selectedWeekdays := {};
        monthlyInterval := 1;
        selectedDayOfMonth := 1;
        customDays := {};
      }
    }

    /** The save button is enabled when the name is not blank. */
    predicate CanSave()
      reads this
    {
      HasContent(name)
    }

    /** The habit a save at `now` writes. */
    function Draft(now: Time, freshId: Uuid): HabitModel
      reads this
    {
      BuildHabit(editingHabit, name, habitDescription, remindAt, selectedFrequency, dailyInterval, weeklyInterval,
                 selectedWeekdays, monthlyInterval, selectedDayOfMonth, customDays, now, freshId)
    }

    /** Weekly with no weekday chosen selects today's weekday, Monday = 1. */
    method AutoSelectWeekday(now: Time)
      modifies this
      ensures selectedWeekdays ==
        if selectedFrequency == Weekly && old(selectedWeekdays) == {} then {IsoWeekday(DayOf(now))}
        else old(selectedWeekdays)
      ensures selectedFrequency == Weekly ==> selectedWeekdays != {}
      ensures forall d :: d in old(selectedWeekdays) ==> d in selectedWeekdays
      ensures name == old(name) && selectedFrequency == old(selectedFrequency) && customDays == old(customDays)
      ensures habitDescription == old(habitDescription) && remindAt == old(remindAt)
      ensures dailyInterval == old(dailyInterval) && weeklyInterval == old(weeklyInterval)
      ensures monthlyInterval == old(monthlyInterval) && selectedDayOfMonth == old(selectedDayOfMonth)
    {
      if selectedFrequency == Weekly && selectedWeekdays == {} {
        var weekday := WeekdayRaw(DayOf(now));
        var adjustedWeekday := if weekday == 1 then 7 else weekday - 1;
        selectedWeekdays := selectedWeekdays + {adjustedWeekday};
      }
    }

    /** A frequency chip: select it, then auto-select a weekday for weekly. */
    method SelectFrequency(frequency: HabitFrequency, now: Time)
      modifies this
      ensures selectedFrequency == frequency
      ensures selectedWeekdays ==
        if frequency == Weekly && old(selectedWeekdays) == {} then {IsoWeekday(DayOf(now))}
        else old(selectedWeekdays)
      ensures frequency == Weekly ==> selectedWeekdays != {}
      ensures name == old(name) && customDays == old(customDays)
      ensures habitDescription == old(habitDescription) && remindAt == old(remindAt)
      ensures dailyInterval == old(dailyInterval) && weeklyInterval == old(weeklyInterval)
      ensures monthlyInterval == old(monthlyInterval) && selectedDayOfMonth == old(selectedDayOfMonth)
    {
      selectedFrequency := frequency;
      AutoSelectWeekday(now);
    }

    /** A weekday chip. */
    method ToggleWeekday(day: int)
      modifies this
      ensures selectedWeekdays == Toggled(old(selectedWeekdays), day)
      ensures name == old(name) && selectedFrequency == old(selectedFrequency) && customDays == old(customDays)
      ensures habitDescription == old(habitDescription) && remindAt == old(remindAt)
      ensures dailyInterval == old(dailyInterval) && weeklyInterval == old(weeklyInterval)
      ensures monthlyInterval == old(monthlyInterval) && selectedDayOfMonth == old(selectedDayOfMonth)
    {
      if day in selectedWeekdays {
        selectedWeekdays := selectedWeekdays - {day};
      } else {
        selectedWeekdays := selectedWeekdays + {day};
      }
    }

    /** A day-of-month chip of the custom frequency. */
    method ToggleCustomDay(day: int)
      modifies this
      ensures customDays == Toggled(old(customDays), day)
      ensures name == old(name) && selectedFrequency == old(selectedFrequency)
      ensures selectedWeekdays == old(selectedWeekdays)
      ensures habitDescription == old(habitDescription) && remindAt == old(remindAt)
      ensures dailyInterval == old(dailyInterval) && weeklyInterval == old(weeklyInterval)
      ensures monthlyInterval == old(monthlyInterval) && selectedDayOfMonth == old(selectedDayOfMonth)
    {
      if day in customDays {
        customDays := customDays - {day};
      } else {
        customDays := customDays + {day};
      }
    }

    /**
     * `saveHabit`: nothing happens with a blank name; otherwise the draft is
     * upserted (a new habit is appended) and the panel is hidden.
     */
    method SaveHabit(now: Time, freshId: Uuid)
      requires dataManager.Valid()
      requires editingHabit.None? ==> !KeyInUse(dataManager.habits, HabitId, freshId)
      modifies dataManager, quickAddState
      ensures dataManager.Valid()
      ensures !old(CanSave()) ==> unchanged(dataManager) && unchanged(quickAddState)
      ensures old(CanSave()) ==>
        && dataManager.habits == Upsert(old(dataManager.habits), HabitId, Draft(now, freshId))
        && (editingHabit.None? ==> dataManager.habits == old(dataManager.habits) + [Draft(now, freshId)])
        && quickAddState.state == Hidden
      ensures dataManager.tasks == old(dataManager.tasks) && dataManager.habitInstances == old(dataManager.habitInstances)
      ensures dataManager.medications == old(dataManager.medications)
      ensures dataManager.medicationInstances == old(dataManager.medicationInstances)
    {
      if !CanSave() {
        return;
      }
      var habit := Draft(now, freshId);
      dataManager.SaveHabit(habit, now);
      assert habit.(updatedAt := now) == habit;
      if editingHabit.None? {
        assert IndexOfKey(old(dataManager.habits), HabitId, freshId).None?;
      }
      quickAddState.Hide();
    }

    /** `deleteHabit`: only an edited habit is deleted, with its records, and the panel hides. */
    method DeleteHabit()
      requires dataManager.Valid()
      modifies dataManager, quickAddState
      ensures dataManager.Valid()
      ensures editingHabit.None? ==> unchanged(dataManager) && unchanged(quickAddState)
      ensures editingHabit.Some? ==>
        && dataManager.habits == RemoveKey(old(dataManager.habits), HabitId, editingHabit.value.id)
        && dataManager.habitInstances == RemoveKey(old(dataManager.habitInstances), RecordHabitId, editingHabit.value.id)
        && quickAddState.state == Hidden
      ensures dataManager.tasks == old(dataManager.tasks) && dataManager.medications == old(dataManager.medications)
      ensures dataManager.medicationInstances == old(dataManager.medicationInstances)
    {
      if editingHabit.None? {
        return;
      }
      dataManager.DeleteHabit(editingHabit.value);
      quickAddState.Hide();
    }
  }
}
