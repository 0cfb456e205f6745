/**
 * The persisted records: tasks, habits, habit-instance records (sparse
 * completion/skip state) and medications with their dose-instance records.
 * Record identity is an opaque `Uuid`.
 */
module Models {
  import opened Wrappers
  import opened Dates

  type Uuid = nat

  datatype TaskPriority = Low | Medium | High | Urgent

  datatype HabitFrequency = NoRepetition | Daily | Weekly | Monthly | Custom

  datatype TaskModel = TaskModel(
    id: Uuid,
    name: string,
    taskDescription: string,
    priority: TaskPriority,
    dueDate: Time,
    isCompleted: bool,
    isSkipped: bool,
    completedAt: Option<Time>,
    skippedAt: Option<Time>,
    createdAt: Time,
    updatedAt: Time)

  /**
   * `TaskModel.init`: every given field is copied verbatim, but both audit
   * stamps are always set to the moment of construction.
   */
  function NewTask(
    id: Uuid, name: string, taskDescription: string, priority: TaskPriority, dueDate: Time,
    isCompleted: bool, isSkipped: bool, completedAt: Option<Time>, skippedAt: Option<Time>,
    now: Time): (t: TaskModel)
    ensures t.id == id && t.name == name && t.taskDescription == taskDescription && t.priority == priority
    ensures t.dueDate == dueDate && t.isCompleted == isCompleted && t.isSkipped == isSkipped
    ensures t.completedAt == completedAt && t.skippedAt == skippedAt
    ensures t.createdAt == now && t.updatedAt == now
  {
    TaskModel(id, name, taskDescription, priority, dueDate,
              isCompleted, isSkipped, completedAt, skippedAt, now, now)
  }

  /** `TaskModel(id:)` with every other argument defaulted, at `now`. */
  function DefaultTask(id: Uuid, now: Time): (t: TaskModel)
    ensures !t.isCompleted && !t.isSkipped && t.completedAt == None && t.skippedAt == None
    ensures t.priority == Medium && t.dueDate == now && t.createdAt == t.updatedAt == now
  {
    NewTask(id, "", "", Medium, now, false, false, None, None, now)
  }

  datatype HabitModel = HabitModel(
    id: Uuid,
    name: string,
    habitDescription: string,
    frequency: HabitFrequency,
    remindAt: Time,
    dailyInterval: int,
    weeklyInterval: int,
    selectedWeekdays: seq<int>,
    monthlyInterval: int,
    selectedDayOfMonth: int,
    customDays: seq<int>,
    createdAt: Time,
    updatedAt: Time)

  /** `HabitModel.init`: the given fields, with both audit stamps set to `now`. */
  function NewHabit(
    id: Uuid, name: string, habitDescription: string, frequency: HabitFrequency, remindAt: Time,
    dailyInterval: int, weeklyInterval: int, selectedWeekdays: seq<int>,
    monthlyInterval: int, selectedDayOfMonth: int, customDays: seq<int>,
    now: Time): (h: HabitModel)
    ensures h.id == id && h.name == name && h.habitDescription == habitDescription && h.frequency == frequency
    ensures h.remindAt == remindAt && h.dailyInterval == dailyInterval && h.weeklyInterval == weeklyInterval
    ensures h.selectedWeekdays == selectedWeekdays && h.monthlyInterval == monthlyInterval
    ensures h.selectedDayOfMonth == selectedDayOfMonth && h.customDays == customDays
    ensures h.createdAt == now && h.updatedAt == now
  {
    HabitModel(id, name, habitDescription, frequency, remindAt, dailyInterval, weeklyInterval,
               selectedWeekdays, monthlyInterval, selectedDayOfMonth, customDays, now, now)
  }

  /** `HabitModel(id:)` with every other argument defaulted, at `now`. */
  function DefaultHabit(id: Uuid, now: Time): (h: HabitModel)
    ensures h.id == id && h.name == "" && h.habitDescription == "" && h.frequency == NoRepetition && h.remindAt == now
    ensures h.dailyInterval == 1 && h.weeklyInterval == 1 && h.monthlyInterval == 1 && h.selectedDayOfMonth == 1
    ensures h.selectedWeekdays == [] && h.customDays == []
    ensures h.createdAt == now && h.updatedAt == now
  {
    NewHabit(id, "", "", NoRepetition, now, 1, 1, [], 1, 1, [], now)
  }

  /** A persisted completion/skip record; `isCompleted`/`isSkipped` are derived from the stamps. */
  datatype HabitInstanceModel = HabitInstanceModel(
    id: Uuid,
    habitId: Uuid,
    scheduledDate: Time,
    completedAt: Option<Time>,
    skippedAt: Option<Time>)
  {
    predicate IsCompleted() { completedAt.Some? }
    predicate IsSkipped() { skippedAt.Some? }
  }

  /** `HabitInstanceModel(habitId:scheduledDate:)` with both stamps defaulted: a pending record. */
  function NewHabitRecord(id: Uuid, habitId: Uuid, scheduledDate: Time): (r: HabitInstanceModel)
    ensures !r.IsCompleted() && !r.IsSkipped()
    ensures r.id == id && r.habitId == habitId && r.scheduledDate == scheduledDate
  {
    HabitInstanceModel(id, habitId, scheduledDate, None, None)
  }

  /** A medication with the fields the views and forms use. */
  datatype MedicationModel = MedicationModel(
    id: Uuid,
    name: string,
    medicationDescription: string,
    instructions: string,
    timesPerDay: int,
    reminderTimes: seq<Time>,
    createdAt: Time,
    updatedAt: Time)

  /** `MedicationModel(name:medicationDescription:instructions:timesPerDay:reminderTimes:)` at `now`. */
  function NewMedication(
    id: Uuid, name: string, medicationDescription: string, instructions: string,
    timesPerDay: int, reminderTimes: seq<Time>, now: Time): (m: MedicationModel)
    ensures m.id == id && m.name == name && m.medicationDescription == medicationDescription
    ensures m.instructions == instructions && m.timesPerDay == timesPerDay && m.reminderTimes == reminderTimes
    ensures m.createdAt == now && m.updatedAt == now
  {
    MedicationModel(id, name, medicationDescription, instructions, timesPerDay, reminderTimes, now, now)
  }

  /** A persisted record for one dose of a medication on one day. */
  datatype MedicationInstanceModel = MedicationInstanceModel(
    id: Uuid,
    medicationId: Uuid,
    scheduledDate: Time,
    doseNumber: int,
    completedAt: Option<Time>,
    skippedAt: Option<Time>)
  {
    predicate IsCompleted() { completedAt.Some? }
    predicate IsSkipped() { skippedAt.Some? }
  }

  // Record keys, named so that the same key function is used everywhere.
  function TaskId(t: TaskModel): Uuid { t.id }
  function HabitId(h: HabitModel): Uuid { h.id }
  function MedicationId(m: MedicationModel): Uuid { m.id }
  function HabitRecordId(r: HabitInstanceModel): Uuid { r.id }
  function MedicationRecordId(r: MedicationInstanceModel): Uuid { r.id }

  /** The identifiers in use in a list of records. */
  predicate KeyInUse<T>(s: seq<T>, key: T -> Uuid, id: Uuid) {
    exists i :: 0 <= i < |s| && key(s[i]) == id
  }
}
