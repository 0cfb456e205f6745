/**
 * The in-memory record store behind every screen: tasks, habits, medications,
 * and the sparse completion/skip records of habit and medication instances.
 * Saving a record replaces the one with the same id or appends it; a habit or
 * medication instance has at most one record per day (and per dose), and no
 * record is ever both completed and skipped.
 */
module Store {
  import opened Wrappers
  import opened Dates
  import opened Seqs
  import opened Models

  /** Saving a record under an identifier not yet in use appends it. */
  lemma FreshKeyAppends<T>(s: seq<T>, key: T -> Uuid, x: T)
    ensures !KeyInUse(s, key, key(x)) ==> Upsert(s, key, x) == s + [x]
  {
    match IndexOfKey(s, key, key(x))
    case Some(i) => assert key(s[i]) == key(x);
    case None =>
  }

  // ---------------------------------------------------------------------------
  // Record stores in general

  /**
   * The invariants of a store of completion/skip records: ids are unique, no
   * two records share a slot, and no record is both completed and skipped.
   */
  predicate StoreValid<T, K(==)>(rs: seq<T>, id: T -> Uuid, slot: T -> K, exclusive: T -> bool) {
    UniqueKeys(rs, id) && UniqueKeys(rs, slot) && forall i :: 0 <= i < |rs| ==> exclusive(rs[i])
  }

  /** `x` keeps the id of the record already in its slot, or brings an id not in use. */
  predicate IdFitsSlot<T, K(==)>(rs: seq<T>, id: T -> Uuid, slot: T -> K, x: T) {
    match IndexOfKey(rs, slot, slot(x))
    case Some(i) => id(x) == id(rs[i])
    case None => forall j :: 0 <= j < |rs| ==> id(rs[j]) != id(x)
  }

  /** Storing an exclusive record in its slot, under a fitting id, keeps a store valid. */
  lemma UpsertKeepsStoreValid<T, K>(rs: seq<T>, id: T -> Uuid, slot: T -> K, exclusive: T -> bool, x: T)
    requires StoreValid(rs, id, slot, exclusive)
    requires exclusive(x) && IdFitsSlot(rs, id, slot, x)
    ensures StoreValid(Upsert(rs, slot, x), id, slot, exclusive)
  {
    var r := Upsert(rs, slot, x);
    UpsertUnique(rs, slot, x);
    match IndexOfKey(rs, slot, slot(x))
    case Some(i) =>
      assert r == rs[i := x];
      forall a, b | 0 <= a < b < |r| ensures id(r[a]) != id(r[b]) {
        assert id(r[a]) == id(rs[a]) && id(r[b]) == id(rs[b]);
      }
    case None =>
      assert r == rs + [x];
    forall k | 0 <= k < |r| ensures exclusive(r[k]) {
      assert r[k] in r;
    }
  }

  /** Removing records keeps a store valid. */
  lemma FilterKeepsStoreValid<T, K>(rs: seq<T>, id: T -> Uuid, slot: T -> K, exclusive: T -> bool, p: T -> bool)
    requires StoreValid(rs, id, slot, exclusive)
    ensures StoreValid(Filter(rs, p), id, slot, exclusive)
  {
    FilterUnique(rs, p, id);
    FilterUnique(rs, p, slot);
    var r := Filter(rs, p);
    forall k | 0 <= k < |r| ensures exclusive(r[k]) {
      assert r[k] in r;
    }
  }

  /** In a store with unique slots, a record is the one `firstIndex` finds for its slot. */
  lemma FoundIsOnly<T, K>(rs: seq<T>, slot: T -> K, x: T)
    requires UniqueKeys(rs, slot) && x in rs
    ensures IndexOfKey(rs, slot, slot(x)).Some? && rs[IndexOfKey(rs, slot, slot(x)).value] == x
  {
    var i :| 0 <= i < |rs| && rs[i] == x;
    IndexOfUniqueKey(rs, slot, i);
  }

  // ---------------------------------------------------------------------------
  // Habit records

  /** The slot of a habit record: its habit and the day it is scheduled on. */
  function HabitSlot(r: HabitInstanceModel): (Uuid, Day) {
    (r.habitId, DayOf(r.scheduledDate))
  }

  /** The habit a record belongs to. */
  function RecordHabitId(r: HabitInstanceModel): Uuid {
    r.habitId
  }

  predicate HabitRecordExclusive(r: HabitInstanceModel) {
    !(r.IsCompleted() && r.IsSkipped())
  }

  /** `getHabitInstance(for:on:)`: the first record of the habit on the day of `date`. */
  function GetHabitInstance(rs: seq<HabitInstanceModel>, habitId: Uuid, date: Time): (r: Option<HabitInstanceModel>)
    ensures r.Some? ==> r.value in rs && r.value.habitId == habitId && DayOf(r.value.scheduledDate) == DayOf(date)
    ensures r.Some? ==>
              exists i :: 0 <= i < |rs| && rs[i] == r.value
                          && (forall j :: 0 <= j < i ==> HabitSlot(rs[j]) != (habitId, DayOf(date)))
    ensures r.None? <==> forall x :: x in rs ==> !(x.habitId == habitId && DayOf(x.scheduledDate) == DayOf(date))
  {
    match IndexOfKey(rs, HabitSlot, (habitId, DayOf(date)))
    case Some(i) => Some(rs[i])
    case None => None
  }

  /** In a valid store the record found is the only one of that habit on that day. */
  lemma GetHabitInstanceOnly(rs: seq<HabitInstanceModel>, habitId: Uuid, date: Time, x: HabitInstanceModel)
    requires UniqueKeys(rs, HabitSlot)
    requires x in rs && x.habitId == habitId && DayOf(x.scheduledDate) == DayOf(date)
    ensures GetHabitInstance(rs, habitId, date) == Some(x)
  {
    FoundIsOnly(rs, HabitSlot, x);
  }

  /**
   * The record `toggleHabitCompletion` stores, given the record found for the
   * day: a completed record loses its completion; any other record, or a new
   * one at the start of the day, is completed now and loses its skip.
   */
  function CompletionToggled(found: Option<HabitInstanceModel>, habitId: Uuid, date: Time, now: Time, freshId: Uuid)
    : (r: HabitInstanceModel)
    ensures r.IsCompleted() <==> !(found.Some? && found.value.IsCompleted())
    ensures r.IsCompleted() ==> r.completedAt == Some(now) && !r.IsSkipped()
    ensures HabitRecordExclusive(r)
    ensures found.Some? ==> r.id == found.value.id && HabitSlot(r) == HabitSlot(found.value)
    ensures found.Some? && found.value.IsCompleted() ==> r.skippedAt == found.value.skippedAt
    ensures found.None? ==> r.id == freshId && r.habitId == habitId && r.scheduledDate == StartOfDay(date)
  {
    match found
    case Some(existing) =>
      if existing.IsCompleted() then existing.(completedAt := None)
      else existing.(completedAt := Some(now), skippedAt := None)
    case None => HabitInstanceModel(freshId, habitId, StartOfDay(date), Some(now), None)
  }

  /**
   * The record `skipHabit` stores: the record found for the day, or a new one at
   * the start of the day, skipped now and not completed.
   */
  function Skipped(found: Option<HabitInstanceModel>, habitId: Uuid, date: Time, now: Time, freshId: Uuid)
    : (r: HabitInstanceModel)
    ensures r.skippedAt == Some(now) && r.completedAt == None && HabitRecordExclusive(r)
    ensures found.Some? ==> r.id == found.value.id && HabitSlot(r) == HabitSlot(found.value)
    ensures found.None? ==> r.id == freshId && r.habitId == habitId && r.scheduledDate == StartOfDay(date)
  {
    match found
    case Some(existing) => existing.(skippedAt := Some(now), completedAt := None)
    case None => HabitInstanceModel(freshId, habitId, StartOfDay(date), None, Some(now))
  }

  /** Skipping is not a toggle: skipping twice leaves the day skipped, stamped with the later time. */
  lemma SkipIsNotToggle(found: Option<HabitInstanceModel>, habitId: Uuid, date: Time, t1: Time, t2: Time, freshId: Uuid)
    ensures var once := Skipped(found, habitId, date, t1, freshId);
      var twice := Skipped(Some(once), habitId, date, t2, freshId);
      twice.IsSkipped() && !twice.IsCompleted() && twice.skippedAt == Some(t2) && twice.id == once.id
  {
  }

  /** Toggling completion twice on the same day leaves the day's record pending, neither completed nor skipped. */
  lemma ToggleTwiceClears(found: Option<HabitInstanceModel>, habitId: Uuid, date: Time, t1: Time, t2: Time, freshId: Uuid)
    requires found.None? || !found.value.IsCompleted()
    ensures var once := CompletionToggled(found, habitId, date, t1, freshId);
      var twice := CompletionToggled(Some(once), habitId, date, t2, freshId);
      !twice.IsCompleted() && !twice.IsSkipped() && twice.id == once.id
  {
  }

  /** A slot given a record by a toggle or a skip keeps a valid store valid when the new id is unused. */
  lemma StoreRecordKeepsValid(rs: seq<HabitInstanceModel>, habitId: Uuid, date: Time, x: HabitInstanceModel)
    requires StoreValid(rs, HabitRecordId, HabitSlot, HabitRecordExclusive)
    requires HabitRecordExclusive(x) && HabitSlot(x) == (habitId, DayOf(date))
    requires match GetHabitInstance(rs, habitId, date)
             case Some(e) => x.id == e.id
             case None => forall r :: r in rs ==> r.id != x.id
    ensures var r := Upsert(rs, HabitSlot, x);
      StoreValid(r, HabitRecordId, HabitSlot, HabitRecordExclusive)
      && GetHabitInstance(r, habitId, date) == Some(x)
      && (forall y :: y in rs && HabitSlot(y) != HabitSlot(x) ==> y in r)
      && |r| == |rs| + (if GetHabitInstance(rs, habitId, date).None? then 1 else 0)
  {
    var r := Upsert(rs, HabitSlot, x);
    match IndexOfKey(rs, HabitSlot, HabitSlot(x))
    case Some(i) =>
    case None =>
      forall j | 0 <= j < |rs| ensures rs[j].id != x.id {
        assert rs[j] in rs;
      }
    UpsertKeepsStoreValid(rs, HabitRecordId, HabitSlot, HabitRecordExclusive, x);
    UpsertUnique(rs, HabitSlot, x);
    GetHabitInstanceOnly(r, habitId, date, x);
  }

  // ---------------------------------------------------------------------------
  // Medication dose records (the store's medication-instance half follows the habit one)

  /** The slot of a dose record: its medication, its day and its dose number. */
  function MedicationSlot(r: MedicationInstanceModel): (Uuid, Day, int) {
    (r.medicationId, DayOf(r.scheduledDate), r.doseNumber)
  }

  predicate MedicationRecordExclusive(r: MedicationInstanceModel) {
    !(r.IsCompleted() && r.IsSkipped())
  }

  /** `getMedicationInstance(for:on:doseNumber:)`: the first record of that dose on the day of `date`. */
  function GetMedicationInstance(rs: seq<MedicationInstanceModel>, medicationId: Uuid, date: Time, doseNumber: int)
    : (r: Option<MedicationInstanceModel>)
    ensures r.Some? ==> r.value in rs && MedicationSlot(r.value) == (medicationId, DayOf(date), doseNumber)
    ensures r.None? <==> forall x :: x in rs ==> MedicationSlot(x) != (medicationId, DayOf(date), doseNumber)
  {
    match IndexOfKey(rs, MedicationSlot, (medicationId, DayOf(date), doseNumber))
    case Some(i) => Some(rs[i])
    case None => None
  }

  /** The record `toggleMedicationCompletion` stores, as for habits. */
  function DoseCompletionToggled(found: Option<MedicationInstanceModel>, medicationId: Uuid, date: Time,
                                 doseNumber: int, now: Time, freshId: Uuid): (r: MedicationInstanceModel)
    ensures r.IsCompleted() <==> !(found.Some? && found.value.IsCompleted())
    ensures r.IsCompleted() ==> r.completedAt == Some(now) && !r.IsSkipped()
    ensures MedicationRecordExclusive(r)
    ensures found.Some? ==> r.id == found.value.id && MedicationSlot(r) == MedicationSlot(found.value)
    ensures found.None? ==> r.id == freshId && MedicationSlot(r) == (medicationId, DayOf(date), doseNumber)
  {
    match found
    case Some(existing) =>
      if existing.IsCompleted() then existing.(completedAt := None)
      else existing.(completedAt := Some(now), skippedAt := None)
    case None => MedicationInstanceModel(freshId, medicationId, StartOfDay(date), doseNumber, Some(now), None)
  }

  /** The record `skipMedication` stores, as for habits. */
  function DoseSkipped(found: Option<MedicationInstanceModel>, medicationId: Uuid, date: Time,
                       doseNumber: int, now: Time, freshId: Uuid): (r: MedicationInstanceModel)
    ensures r.skippedAt == Some(now) && r.completedAt == None && MedicationRecordExclusive(r)
    ensures found.Some? ==> r.id == found.value.id && MedicationSlot(r) == MedicationSlot(found.value)
    ensures found.None? ==> r.id == freshId && MedicationSlot(r) == (medicationId, DayOf(date), doseNumber)
  {
    match found
    case Some(existing) => existing.(skippedAt := Some(now), completedAt := None)
    case None => MedicationInstanceModel(freshId, medicationId, StartOfDay(date), doseNumber, None, Some(now))
  }

  /** Storing a dose record in its slot keeps the store valid, and the record is what the lookup then finds. */
  lemma StoreDoseKeepsValid(rs: seq<MedicationInstanceModel>, medicationId: Uuid, date: Time, doseNumber: int,
                            x: MedicationInstanceModel)
    requires StoreValid(rs, MedicationRecordId, MedicationSlot, MedicationRecordExclusive)
    requires MedicationRecordExclusive(x) && MedicationSlot(x) == (medicationId, DayOf(date), doseNumber)
    requires match GetMedicationInstance(rs, medicationId, date, doseNumber)
             case Some(e) => x.id == e.id
             case None => forall r :: r in rs ==> r.id != x.id
    ensures var r := Upsert(rs, MedicationSlot, x);
      StoreValid(r, MedicationRecordId, MedicationSlot, MedicationRecordExclusive)
      && GetMedicationInstance(r, medicationId, date, doseNumber) == Some(x)
  {
    var r := Upsert(rs, MedicationSlot, x);
    match IndexOfKey(rs, MedicationSlot, MedicationSlot(x))
    case Some(i) =>
    case None =>
      forall j | 0 <= j < |rs| ensures rs[j].id != x.id {
        assert rs[j] in rs;
      }
    UpsertKeepsStoreValid(rs, MedicationRecordId, MedicationSlot, MedicationRecordExclusive, x);
    UpsertUnique(rs, MedicationSlot, x);
    FoundIsOnly(r, MedicationSlot, x);
  }

  /** Removing the record found in a slot empties that slot. */
  lemma RemoveFoundEmptiesSlot<T, K>(rs: seq<T>, id: T -> Uuid, slot: T -> K, e: T)
    requires UniqueKeys(rs, slot) && e in rs
    ensures forall y :: y in RemoveKey(rs, id, id(e)) ==> slot(y) != slot(e)
  {
    forall y | y in RemoveKey(rs, id, id(e)) ensures slot(y) != slot(e) {
      var i :| 0 <= i < |rs| && rs[i] == y;
      var k :| 0 <= k < |rs| && rs[k] == e;
    }
  }

  // ---------------------------------------------------------------------------
  // Tasks

  /**
   * The task `toggleTaskCompletion` saves: completion flipped and stamped, the
   * skip state left as it was.
   */
  function TaskCompletionToggled(t: TaskModel, now: Time): (r: TaskModel)
    ensures r.isCompleted == !t.isCompleted
    ensures r.completedAt.Some? <==> r.isCompleted
    ensures r.isCompleted ==> r.completedAt == Some(now)
    ensures r.isSkipped == t.isSkipped && r.skippedAt == t.skippedAt
    ensures r.id == t.id && r.createdAt == t.createdAt && r.updatedAt == now
  {
    t.(isCompleted := !t.isCompleted,
       completedAt := if !t.isCompleted then Some(now) else None,
       updatedAt := now)
  }

  /** Toggling completion twice restores the completion state and leaves no completion stamp on a pending task. */
  lemma TaskToggleTwice(t: TaskModel, t1: Time, t2: Time)
    requires !t.isCompleted
    ensures var r := TaskCompletionToggled(TaskCompletionToggled(t, t1), t2);
      !r.isCompleted && r.completedAt == None && r.isSkipped == t.isSkipped
  {
  }

  // ---------------------------------------------------------------------------
  // The store

  class DataManager {
    var tasks: seq<TaskModel>
    var habits: seq<HabitModel>
    var habitInstances: seq<HabitInstanceModel>
    var medications: seq<MedicationModel>
    var medicationInstances: seq<MedicationInstanceModel>

    predicate Valid()
      reads this
    {
      UniqueKeys(tasks, TaskId) && UniqueKeys(habits, HabitId) && UniqueKeys(medications, MedicationId)
      && StoreValid(habitInstances, HabitRecordId, HabitSlot, HabitRecordExclusive)
      && StoreValid(medicationInstances, MedicationRecordId, MedicationSlot, MedicationRecordExclusive)
    }

    /** `loadAllData` when no file can be read: every list starts empty. */
    constructor ()
      ensures Valid()
      ensures tasks == [] && habits == [] && habitInstances == [] && medications == [] && medicationInstances == []
    {
      tasks, habits, habitInstances, medications, medicationInstances := [], [], [], [], [];
    }

    /** `saveTask`: replace the task with the same id in place, or append it. */
    method SaveTask(task: TaskModel)
      requires Valid()
      modifies this
      ensures Valid()
      ensures tasks == Upsert(old(tasks), TaskId, task)
      ensures habits == old(habits) && habitInstances == old(habitInstances)
      ensures medications == old(medications) && medicationInstances == old(medicationInstances)
    {
      UpsertUnique(tasks, TaskId, task);
      match IndexOfKey(tasks, TaskId, task.id) {
        case Some(i) => tasks := tasks[i := task];
        case None => tasks := tasks + [task];
      }
    }

    /** `deleteTask`: remove every task with that id, keeping the rest in order. */
    method DeleteTask(task: TaskModel)
      requires Valid()
      modifies this
      ensures Valid()
      ensures tasks == RemoveKey(old(tasks), TaskId, task.id)
      ensures habits == old(habits) && habitInstances == old(habitInstances)
      ensures medications == old(medications) && medicationInstances == old(medicationInstances)
    {
      FilterUnique(tasks, KeyIsNot(TaskId, task.id), TaskId);
      tasks := RemoveKey(tasks, TaskId, task.id);
    }

    /** `toggleTaskCompletion`: save the task with its completion flipped. */
    method ToggleTaskCompletion(task: TaskModel, now: Time)
      requires Valid()
      modifies this
      ensures Valid()
      ensures tasks == Upsert(old(tasks), TaskId, TaskCompletionToggled(task, now))
      ensures habits == old(habits) && habitInstances == old(habitInstances)
      ensures medications == old(medications) && medicationInstances == old(medicationInstances)
    {
      var updated := task;
      updated := updated.(isCompleted := !updated.isCompleted);
      updated := updated.(completedAt := if updated.isCompleted then Some(now) else None);
      updated := updated.(updatedAt := now);
      SaveTask(updated);
    }

    /** `saveHabit`: stamp `updatedAt` and upsert by id. */
    method SaveHabit(habit: HabitModel, now: Time)
      requires Valid()
      modifies this
      ensures Valid()
      ensures habits == Upsert(old(habits), HabitId, habit.(updatedAt := now))
      ensures tasks == old(tasks) && habitInstances == old(habitInstances)
      ensures medications == old(medications) && medicationInstances == old(medicationInstances)
    {
      var updated := habit.(updatedAt := now);
      UpsertUnique(habits, HabitId, updated);
      match IndexOfKey(habits, HabitId, habit.id) {
        case Some(i) => habits := habits[i := updated];
        case None => habits := habits + [updated];
      }
    }

    /** `deleteHabit`: remove the habit and, with it, every record of its instances. */
    method DeleteHabit(habit: HabitModel)
      requires Valid()
      modifies this
      ensures Valid()
      ensures habits == RemoveKey(old(habits), HabitId, habit.id)
      ensures habitInstances == RemoveKey(old(habitInstances), RecordHabitId, habit.id)
      ensures tasks == old(tasks)
      ensures medications == old(medications) && medicationInstances == old(medicationInstances)
    {
      FilterUnique(habits, KeyIsNot(HabitId, habit.id), HabitId);
      FilterKeepsStoreValid(habitInstances, HabitRecordId, HabitSlot, HabitRecordExclusive,
                            KeyIsNot(RecordHabitId, habit.id));
      habits := RemoveKey(habits, HabitId, habit.id);
      habitInstances := RemoveKey(habitInstances, RecordHabitId, habit.id);
    }

    /**
     * `toggleHabitCompletion(for:on:)`: find the day's record, flip its
     * completion and write it back at the index of its id; with no record,
     * append a completed one at the start of the day under the fresh id.
     */
    method ToggleHabitCompletion(habitId: Uuid, date: Time, now: Time, freshId: Uuid)
      requires Valid()
      requires forall r :: r in habitInstances ==> r.id != freshId
      modifies this
      ensures Valid()
      ensures habitInstances == Upsert(old(habitInstances), HabitSlot,
        CompletionToggled(GetHabitInstance(old(habitInstances), habitId, date), habitId, date, now, freshId))
      ensures tasks == old(tasks) && habits == old(habits)
      ensures medications == old(medications) && medicationInstances == old(medicationInstances)
    {
      var found := GetHabitInstance(habitInstances, habitId, date);
      var x := CompletionToggled(found, habitId, date, now, freshId);
      StoreRecordKeepsValid(habitInstances, habitId, date, x);
      match found {
        case Some(existing) =>
          var updated := existing;
          if updated.IsCompleted() {
            updated := updated.(completedAt := None);
          } else {
            updated := updated.(completedAt := Some(now), skippedAt := None);
          }
          FoundIsOnly(habitInstances, HabitRecordId, existing);
          FoundIsOnly(habitInstances, HabitSlot, existing);
          match IndexOfKey(habitInstances, HabitRecordId, existing.id) {
            case Some(i) => habitInstances := habitInstances[i := updated];
            case None =>
          }
        case None =>
          habitInstances := habitInstances + [HabitInstanceModel(freshId, habitId, StartOfDay(date), Some(now), None)];
      }
    }

    /**
     * `skipHabit(for:on:)`: mark the day's record skipped now and clear its
     * completion, creating the record if there is none.
     */
    method SkipHabit(habitId: Uuid, date: Time, now: Time, freshId: Uuid)
      requires Valid()
      requires forall r :: r in habitInstances ==> r.id != freshId
      modifies this
      ensures Valid()
      ensures habitInstances == Upsert(old(habitInstances), HabitSlot,
        Skipped(GetHabitInstance(old(habitInstances), habitId, date), habitId, date, now, freshId))
      ensures tasks == old(tasks) && habits == old(habits)
      ensures medications == old(medications) && medicationInstances == old(medicationInstances)
    {
      var found := GetHabitInstance(habitInstances, habitId, date);
      var x := Skipped(found, habitId, date, now, freshId);
      StoreRecordKeepsValid(habitInstances, habitId, date, x);
      match found {
        case Some(existing) =>
          var updated := existing.(skippedAt := Some(now));
          updated := updated.(completedAt := None);
          FoundIsOnly(habitInstances, HabitRecordId, existing);
          FoundIsOnly(habitInstances, HabitSlot, existing);
          match IndexOfKey(habitInstances, HabitRecordId, existing.id) {
            case Some(i) => habitInstances := habitInstances[i := updated];
            case None =>
          }
        case None =>
          habitInstances := habitInstances + [HabitInstanceModel(freshId, habitId, StartOfDay(date), None, Some(now))];
      }
    }

    /** `habitInstances.removeAll { $0.id == id }`, as the item card does when a skip is undone. */
    method RemoveHabitRecord(id: Uuid)
      requires Valid()
      modifies this
      ensures Valid()
      ensures habitInstances == RemoveKey(old(habitInstances), HabitRecordId, id)
      ensures tasks == old(tasks) && habits == old(habits)
      ensures medications == old(medications) && medicationInstances == old(medicationInstances)
    {
      FilterKeepsStoreValid(habitInstances, HabitRecordId, HabitSlot, HabitRecordExclusive,
                            KeyIsNot(HabitRecordId, id));
      habitInstances := RemoveKey(habitInstances, HabitRecordId, id);
    }

    /** `saveMedication`: stamp `updatedAt` and upsert by id. */
    method SaveMedication(medication: MedicationModel, now: Time)
      requires Valid()
      modifies this
      ensures Valid()
      ensures medications == Upsert(old(medications), MedicationId, medication.(updatedAt := now))
      ensures tasks == old(tasks) && habits == old(habits)
      ensures habitInstances == old(habitInstances) && medicationInstances == old(medicationInstances)
    {
      var updated := medication.(updatedAt := now);
      UpsertUnique(medications, MedicationId, updated);
      match IndexOfKey(medications, MedicationId, medication.id) {
        case Some(i) => medications := medications[i := updated];
        case None => medications := medications + [updated];
      }
    }

    /** `deleteMedication`: remove the medication only; its dose records stay. */
    method DeleteMedication(medication: MedicationModel)
      requires Valid()
      modifies this
      ensures Valid()
      ensures medications == RemoveKey(old(medications), MedicationId, medication.id)
      ensures medicationInstances == old(medicationInstances)
      ensures tasks == old(tasks) && habits == old(habits) && habitInstances == old(habitInstances)
    {
      FilterUnique(medications, KeyIsNot(MedicationId, medication.id), MedicationId);
      medications := RemoveKey(medications, MedicationId, medication.id);
    }

    /** `toggleMedicationCompletion(for:on:doseNumber:)`, as for habits. */
    method ToggleMedicationCompletion(medicationId: Uuid, date: Time, doseNumber: int, now: Time, freshId: Uuid)
      requires Valid()
      requires forall r :: r in medicationInstances ==> r.id != freshId
      modifies this
      ensures Valid()
      ensures medicationInstances == Upsert(old(medicationInstances), MedicationSlot,
        DoseCompletionToggled(GetMedicationInstance(old(medicationInstances), medicationId, date, doseNumber),
                              medicationId, date, doseNumber, now, freshId))
      ensures tasks == old(tasks) && habits == old(habits)
      ensures habitInstances == old(habitInstances) && medications == old(medications)
    {
      var found := GetMedicationInstance(medicationInstances, medicationId, date, doseNumber);
      var x := DoseCompletionToggled(found, medicationId, date, doseNumber, now, freshId);
      StoreDose(found, x);
    }

    /** `skipMedication(for:on:doseNumber:)`, as for habits. */
    method SkipMedication(medicationId: Uuid, date: Time, doseNumber: int, now: Time, freshId: Uuid)
      requires Valid()
      requires forall r :: r in medicationInstances ==> r.id != freshId
      modifies this
      ensures Valid()
      ensures medicationInstances == Upsert(old(medicationInstances), MedicationSlot,
        DoseSkipped(GetMedicationInstance(old(medicationInstances), medicationId, date, doseNumber),
                    medicationId, date, doseNumber, now, freshId))
      ensures tasks == old(tasks) && habits == old(habits)
      ensures habitInstances == old(habitInstances) && medications == old(medications)
    {
      var found := GetMedicationInstance(medicationInstances, medicationId, date, doseNumber);
      var x := DoseSkipped(found, medicationId, date, doseNumber, now, freshId);
      StoreDose(found, x);
    }

    /** Write a dose record back at the index of the found record's id, or append it. */
    method StoreDose(found: Option<MedicationInstanceModel>, x: MedicationInstanceModel)
      requires Valid() && MedicationRecordExclusive(x)
      requires found == GetMedicationInstance(medicationInstances, x.medicationId, x.scheduledDate, x.doseNumber)
      requires found.Some? ==> x.id == found.value.id
      requires found.None? ==> forall r :: r in medicationInstances ==> r.id != x.id
      modifies this
      ensures Valid()
      ensures medicationInstances == Upsert(old(medicationInstances), MedicationSlot, x)
      ensures tasks == old(tasks) && habits == old(habits)
      ensures habitInstances == old(habitInstances) && medications == old(medications)
    {
      var rs := medicationInstances;
      match IndexOfKey(rs, MedicationSlot, MedicationSlot(x)) {
        case Some(i) =>
        case None =>
          forall j | 0 <= j < |rs| ensures rs[j].id != x.id {
            assert rs[j] in rs;
          }
      }
      UpsertKeepsStoreValid(rs, MedicationRecordId, MedicationSlot, MedicationRecordExclusive, x);
      match found {
        case Some(existing) =>
          FoundIsOnly(rs, MedicationRecordId, existing);
          FoundIsOnly(rs, MedicationSlot, existing);
          match IndexOfKey(rs, MedicationRecordId, existing.id) {
            case Some(i) => medicationInstances := rs[i := x];
            case None =>
          }
        case None =>
          medicationInstances := rs + [x];
      }
    }

    /** `medicationInstances.removeAll { $0.id == id }`, as the item card does when a skip is undone. */
    method RemoveMedicationRecord(id: Uuid)
      requires Valid()
      modifies this
      ensures Valid()
      ensures medicationInstances == RemoveKey(old(medicationInstances), MedicationRecordId, id)
      ensures tasks == old(tasks) && habits == old(habits)
      ensures habitInstances == old(habitInstances) && medications == old(medications)
    {
      FilterKeepsStoreValid(medicationInstances, MedicationRecordId, MedicationSlot, MedicationRecordExclusive,
                            KeyIsNot(MedicationRecordId, id));
      medicationInstances := RemoveKey(medicationInstances, MedicationRecordId, id);
    }
  }

  /** After a delete, no habit and no record of that habit remains, and every other record is kept. */
  lemma DeleteHabitCascades(habits: seq<HabitModel>, rs: seq<HabitInstanceModel>, id: Uuid)
    ensures forall h :: h in RemoveKey(habits, HabitId, id) ==> h.id != id
    ensures forall r :: r in RemoveKey(rs, RecordHabitId, id) ==> r.habitId != id
    ensures forall r :: r in rs && r.habitId != id ==> r in RemoveKey(rs, RecordHabitId, id)
  {
  }
}
