/**
 * The home screen's item list: over a three-day window it expands habits and
 * medications into instances, keeps the tasks due in the window, sorts
 * everything by time, and splits the result into active items and the
 * "completed & skipped" list, which hides an item from 02:00 on the day after
 * it was acted on.
 */
module ItemsList {
  import opened Wrappers
  import opened Dates
  import opened Seqs
  import opened Sorting
  import opened Models
  import opened Recurrence
  import opened Store

  /**
   * The deterministic instance key: the habit and the day (`<id>_<yyyy-MM-dd>`),
   * or the medication, the day and the dose (`<id>_<yyyy-MM-dd>_dose<n>`).
   */
  datatype InstanceKey = HabitKey(habitId: Uuid, day: Day) | DoseKey(medicationId: Uuid, day: Day, doseNumber: int)

  /** A habit on one day, with the completion state loaded from its record. */
  datatype HabitInstance = HabitInstance(
    originalHabit: HabitModel,
    instanceDate: Time,
    instanceKey: InstanceKey,
    name: string,
    itemDescription: string,
    scheduledTime: Time,
    isCompleted: bool,
    isSkipped: bool,
    completedAt: Option<Time>,
    skippedAt: Option<Time>)

  /** One dose of a medication on one day, with the state loaded from its record. */
  datatype MedicationInstance = MedicationInstance(
    originalMedication: MedicationModel,
    instanceDate: Time,
    doseNumber: int,
    instanceKey: InstanceKey,
    name: string,
    itemDescription: string,
    scheduledTime: Time,
    isCompleted: bool,
    isSkipped: bool,
    completedAt: Option<Time>,
    skippedAt: Option<Time>)

  /** `completedAt ?? skippedAt`. */
  function FirstStamp(completedAt: Option<Time>, skippedAt: Option<Time>): (r: Option<Time>)
    ensures r.None? <==> completedAt.None? && skippedAt.None?
    ensures completedAt.Some? ==> r == completedAt
  {
    if completedAt.Some? then completedAt else skippedAt
  }

  /** An entry of the list: a task, a habit instance or a medication dose. */
  datatype Item = TaskItem(task: TaskModel) | HabitItem(habit: HabitInstance) | DoseItem(dose: MedicationInstance)
  {
    function ScheduledTime(): Time {
      match this
      case TaskItem(t) => t.dueDate
      case HabitItem(h) => h.scheduledTime
      case DoseItem(m) => m.scheduledTime
    }

    predicate IsCompleted() {
      match this
      case TaskItem(t) => t.isCompleted
      case HabitItem(h) => h.isCompleted
      case DoseItem(m) => m.isCompleted
    }

    predicate IsSkipped() {
      match this
      case TaskItem(t) => t.isSkipped
      case HabitItem(h) => h.isSkipped
      case DoseItem(m) => m.isSkipped
    }

    function ActionTimestamp(): Option<Time> {
      match this
      case TaskItem(t) => FirstStamp(t.completedAt, t.skippedAt)
      case HabitItem(h) => FirstStamp(h.completedAt, h.skippedAt)
      case DoseItem(m) => FirstStamp(m.completedAt, m.skippedAt)
    }
  }

  /** `HabitInstance(from:for:instance:)`: the habit's clock time on the day of `date`. */
  function NewHabitInstance(habit: HabitModel, date: Time, found: Option<HabitInstanceModel>): (r: HabitInstance)
    ensures DayOf(r.scheduledTime) == DayOf(date) && TimeOfDay(r.scheduledTime) == TimeOfDay(habit.remindAt)
    ensures r.instanceKey == HabitKey(habit.id, DayOf(date))
    ensures r.originalHabit == habit && r.instanceDate == date
    ensures r.isCompleted <==> found.Some? && found.value.IsCompleted()
    ensures r.isSkipped <==> found.Some? && found.value.IsSkipped()
    ensures r.completedAt == (if found.Some? then found.value.completedAt else None)
    ensures r.skippedAt == (if found.Some? then found.value.skippedAt else None)
  {
    HabitInstance(habit, date, HabitKey(habit.id, DayOf(date)), habit.name, habit.habitDescription,
                  AtTimeOf(date, habit.remindAt),
                  found.Some? && found.value.IsCompleted(), found.Some? && found.value.IsSkipped(),
                  if found.Some? then found.value.completedAt else None,
                  if found.Some? then found.value.skippedAt else None)
  }

  /**
   * `MedicationInstance(from:for:doseNumber:instance:)`: dose `n` is taken at the
   * clock time of the `n`-th reminder on the day of `date`, or at `date` itself
   * when there are fewer reminders than doses.
   */
  function NewMedicationInstance(medication: MedicationModel, date: Time, doseNumber: int,
                                 found: Option<MedicationInstanceModel>): (r: MedicationInstance)
    requires doseNumber >= 1
    ensures doseNumber - 1 < |medication.reminderTimes| ==>
      DayOf(r.scheduledTime) == DayOf(date)
      && TimeOfDay(r.scheduledTime) == TimeOfDay(medication.reminderTimes[doseNumber - 1])
    ensures doseNumber - 1 >= |medication.reminderTimes| ==> r.scheduledTime == date
    ensures r.instanceKey == DoseKey(medication.id, DayOf(date), doseNumber) && r.doseNumber == doseNumber
    ensures r.originalMedication == medication && r.instanceDate == date
    ensures r.isCompleted <==> found.Some? && found.value.IsCompleted()
    ensures r.isSkipped <==> found.Some? && found.value.IsSkipped()
    ensures r.completedAt == (if found.Some? then found.value.completedAt else None)
    ensures r.skippedAt == (if found.Some? then found.value.skippedAt else None)
  {
    var scheduled :=
      if doseNumber - 1 < |medication.reminderTimes|
      then AtTimeOf(date, medication.reminderTimes[doseNumber - 1])
      else date;
    MedicationInstance(medication, date, doseNumber, DoseKey(medication.id, DayOf(date), doseNumber),
                       medication.name, medication.medicationDescription, scheduled,
                       found.Some? && found.value.IsCompleted(), found.Some? && found.value.IsSkipped(),
                       if found.Some? then found.value.completedAt else None,
                       if found.Some? then found.value.skippedAt else None)
  }

  /** The three midnights from today on. */
  function DateRange(now: Time): (r: seq<Time>)
    ensures |r| == 3
    ensures forall k :: 0 <= k < 3 ==> r[k] == MidnightOf(DayOf(now) + k)
  {
    [MidnightOf(DayOf(now)), MidnightOf(DayOf(now) + 1), MidnightOf(DayOf(now) + 2)]
  }

  // ---------------------------------------------------------------------------
  // Habit expansion

  predicate AllUsable(habits: seq<HabitModel>) {
    forall h :: h in habits ==> IntervalsUsable(h)
  }

  /** The instances of one habit over `dates`, in date order. */
  function HabitDays(cal: Calendar, h: HabitModel, records: seq<HabitInstanceModel>, dates: seq<Time>)
    : (r: seq<HabitInstance>)
    requires IntervalsUsable(h)
    ensures |r| <= |dates|
    ensures forall k :: 0 <= k < |r| ==> r[k].originalHabit == h
    decreases |dates|
  {
    if dates == [] then []
    else
      var last := dates[|dates| - 1];
      HabitDays(cal, h, records, dates[..|dates| - 1])
      + (if ShouldOccur(cal, h, last) then [NewHabitInstance(h, last, GetHabitInstance(records, h.id, last))] else [])
  }

  /** The instances of all habits over `dates`, habit by habit. */
  function HabitOccurrences(cal: Calendar, habits: seq<HabitModel>, records: seq<HabitInstanceModel>, dates: seq<Time>)
    : (r: seq<HabitInstance>)
    requires AllUsable(habits)
    ensures |r| <= |habits| * |dates|
    ensures forall k :: 0 <= k < |r| ==> r[k].originalHabit in habits
    decreases |habits|
  {
    if habits == [] then []
    else
      var init, last := habits[..|habits| - 1], habits[|habits| - 1];
      var before, days := HabitOccurrences(cal, init, records, dates), HabitDays(cal, last, records, dates);
      MultiplyStep(|init|, |dates|);
      assert forall k :: 0 <= k < |before| ==> before[k].originalHabit in habits by {
        forall k | 0 <= k < |before| ensures before[k].originalHabit in habits {
          assert before[k].originalHabit in init;
        }
      }
      before + days
  }

  /** An instance of one habit over `dates` is that habit on a due date, with that day's record. */
  lemma {:induction false} HabitDaysMembers(cal: Calendar, h: HabitModel, records: seq<HabitInstanceModel>,
                                            dates: seq<Time>, x: HabitInstance)
    requires IntervalsUsable(h)
    ensures x in HabitDays(cal, h, records, dates) <==>
      exists d :: d in dates && ShouldOccur(cal, h, d) && x == NewHabitInstance(h, d, GetHabitInstance(records, h.id, d))
    decreases |dates|
  {
    if dates != [] {
      var init, last := dates[..|dates| - 1], dates[|dates| - 1];
      HabitDaysMembers(cal, h, records, init, x);
      assert dates == init + [last];
      if x in HabitDays(cal, h, records, dates) && x !in HabitDays(cal, h, records, init) {
        assert last in dates;
      }
    }
  }

  /**
   * The materialised habit instances are exactly the due (habit, date) pairs
   * of the window, each carrying the record stored for that habit and day.
   */
  lemma {:induction false} HabitOccurrencesMembers(cal: Calendar, habits: seq<HabitModel>,
                                                   records: seq<HabitInstanceModel>, dates: seq<Time>, x: HabitInstance)
    requires AllUsable(habits)
    ensures x in HabitOccurrences(cal, habits, records, dates) <==>
      exists h, d :: h in habits && d in dates && ShouldOccur(cal, h, d)
        && x == NewHabitInstance(h, d, GetHabitInstance(records, h.id, d))
    decreases |habits|
  {
    if habits != [] {
      var init, last := habits[..|habits| - 1], habits[|habits| - 1];
      assert habits == init + [last];
      HabitOccurrencesMembers(cal, init, records, dates, x);
      HabitDaysMembers(cal, last, records, dates, x);
    }
  }

  /** `generateHabitInstances`: for each habit, for each window date on which it is due, one instance. */
  method GenerateHabitInstances(cal: Calendar, habits: seq<HabitModel>, records: seq<HabitInstanceModel>, now: Time)
    returns (instances: seq<HabitInstance>)
    requires AllUsable(habits)
    ensures instances == HabitOccurrences(cal, habits, records, DateRange(now))
  {
    var dates := DateRange(now);
    instances := [];
    for i := 0 to |habits|
      invariant instances == HabitOccurrences(cal, habits[..i], records, dates)
    {
      HabitsStep(cal, habits, records, dates, i);
      instances := AppendHabitDays(cal, instances, habits[i], records, dates);
    }
    assert habits[..|habits|] == habits;
  }

  /** The body of the outer loop of `generateHabitInstances`: one habit's instances on its due dates. */
  method AppendHabitDays(cal: Calendar, instances: seq<HabitInstance>, habit: HabitModel,
                         records: seq<HabitInstanceModel>, dates: seq<Time>)
    returns (r: seq<HabitInstance>)
    requires IntervalsUsable(habit)
    ensures r == instances + HabitDays(cal, habit, records, dates)
  {
    r := instances;
    for j := 0 to |dates|
      invariant r == instances + HabitDays(cal, habit, records, dates[..j])
    {
      var date := dates[j];
      HabitDaysStep(cal, habit, records, dates, j);
      if ShouldOccur(cal, habit, date) {
        var existing := GetHabitInstance(records, habit.id, date);
        r := r + [NewHabitInstance(habit, date, existing)];
      }
    }
    assert dates[..|dates|] == dates;
  }

  /** One more habit extends the expansion by that habit's instances. */
  lemma HabitsStep(cal: Calendar, habits: seq<HabitModel>, records: seq<HabitInstanceModel>, dates: seq<Time>, i: nat)
    requires AllUsable(habits) && i < |habits|
    ensures AllUsable(habits[..i]) && AllUsable(habits[..i + 1]) && IntervalsUsable(habits[i])
    ensures HabitOccurrences(cal, habits[..i + 1], records, dates)
         == HabitOccurrences(cal, habits[..i], records, dates) + HabitDays(cal, habits[i], records, dates)
  {
    assert habits[..i + 1][..i] == habits[..i];
    assert habits[i] in habits;
  }

  /** One more date extends a habit's instances by that date's instance, when the habit is due. */
  lemma HabitDaysStep(cal: Calendar, h: HabitModel, records: seq<HabitInstanceModel>, dates: seq<Time>, j: nat)
    requires IntervalsUsable(h) && j < |dates|
    ensures HabitDays(cal, h, records, dates[..j + 1])
         == HabitDays(cal, h, records, dates[..j])
            + (if ShouldOccur(cal, h, dates[j]) then [NewHabitInstance(h, dates[j], GetHabitInstance(records, h.id, dates[j]))] else [])
  {
    assert dates[..j + 1][..j] == dates[..j];
  }

  // ---------------------------------------------------------------------------
  // Medication expansion

  predicate AllDosed(medications: seq<MedicationModel>) {
    forall m :: m in medications ==> m.timesPerDay >= 1
  }

  /** Doses 1 through `n` of a medication on the day of `date`. */
  function Doses(m: MedicationModel, records: seq<MedicationInstanceModel>, date: Time, n: nat)
    : (r: seq<MedicationInstance>)
    ensures |r| == n
    ensures forall k :: 0 <= k < n ==> r[k].doseNumber == k + 1 && r[k].instanceKey == DoseKey(m.id, DayOf(date), k + 1)
    ensures forall k :: 0 <= k < n ==> r[k] == NewMedicationInstance(m, date, k + 1, GetMedicationInstance(records, m.id, date, k + 1))
  {
    if n == 0 then []
    else Doses(m, records, date, n - 1) + [NewMedicationInstance(m, date, n, GetMedicationInstance(records, m.id, date, n))]
  }

  /** All doses of one medication over `dates`. */
  function MedicationDays(m: MedicationModel, records: seq<MedicationInstanceModel>, dates: seq<Time>)
    : (r: seq<MedicationInstance>)
    requires m.timesPerDay >= 1
    ensures forall k :: 0 <= k < |r| ==> r[k].originalMedication == m && 1 <= r[k].doseNumber <= m.timesPerDay
    decreases |dates|
  {
    if dates == [] then []
    else MedicationDays(m, records, dates[..|dates| - 1]) + Doses(m, records, dates[|dates| - 1], m.timesPerDay)
  }

  /** The number of doses a day: the sum of `timesPerDay`. */
  function TotalDoses(medications: seq<MedicationModel>): (total: int)
    ensures AllDosed(medications) ==> total >= |medications|
    ensures medications == [] ==> total == 0
  {
    if medications == [] then 0
    else TotalDoses(medications[..|medications| - 1]) + medications[|medications| - 1].timesPerDay
  }

  /** All doses of all medications over `dates`, medication by medication. */
  function MedicationOccurrences(medications: seq<MedicationModel>, records: seq<MedicationInstanceModel>, dates: seq<Time>)
    : (r: seq<MedicationInstance>)
    requires AllDosed(medications)
    ensures forall k :: 0 <= k < |r| ==>
      r[k].originalMedication in medications && 1 <= r[k].doseNumber <= r[k].originalMedication.timesPerDay
    decreases |medications|
  {
    if medications == [] then []
    else
      var init, last := medications[..|medications| - 1], medications[|medications| - 1];
      assert last in medications;
      var before := MedicationOccurrences(init, records, dates);
      assert forall k :: 0 <= k < |before| ==> before[k].originalMedication in medications by {
        forall k | 0 <= k < |before| ensures before[k].originalMedication in medications {
          assert before[k].originalMedication in init;
        }
      }
      before + MedicationDays(last, records, dates)
  }

  lemma MultiplyStep(a: int, n: int)
    ensures (a + 1) * n == a * n + n
  {
  }

  lemma Distribute(n: int, a: int, b: int)
    ensures n * (a + b) == n * a + n * b
  {
  }

  /** A medication yields `timesPerDay` instances on each date. */
  lemma {:induction false} MedicationDaysLength(m: MedicationModel, records: seq<MedicationInstanceModel>, dates: seq<Time>)
    requires m.timesPerDay >= 1
    ensures |MedicationDays(m, records, dates)| == |dates| * m.timesPerDay
    decreases |dates|
  {
    if dates != [] {
      var n, t := |dates| - 1, m.timesPerDay;
      var before := MedicationDays(m, records, dates[..n]);
      MedicationDaysLength(m, records, dates[..n]);
      assert |before| == n * t;
      assert |MedicationDays(m, records, dates)| == |before| + t;
      MultiplyStep(n, t);
    }
  }

  /** The expansion has exactly one instance per date and per daily dose of every medication. */
  lemma {:induction false} MedicationOccurrencesLength(medications: seq<MedicationModel>,
                                                       records: seq<MedicationInstanceModel>, dates: seq<Time>)
    requires AllDosed(medications)
    ensures |MedicationOccurrences(medications, records, dates)| == |dates| * TotalDoses(medications)
    decreases |medications|
  {
    if medications != [] {
      var init, last := medications[..|medications| - 1], medications[|medications| - 1];
      assert last in medications;
      MedicationOccurrencesLength(init, records, dates);
      MedicationDaysLength(last, records, dates);
      var n, total, t := |dates|, TotalDoses(init), last.timesPerDay;
      assert TotalDoses(medications) == total + t;
      Distribute(n, total, t);
    }
  }

  /** A dose instance over `dates` is dose 1..timesPerDay of the medication on one of the dates. */
  lemma {:induction false} MedicationDaysMembers(m: MedicationModel, records: seq<MedicationInstanceModel>,
                                                 dates: seq<Time>, x: MedicationInstance)
    requires m.timesPerDay >= 1
    ensures x in MedicationDays(m, records, dates) <==>
      exists d, n :: d in dates && 1 <= n <= m.timesPerDay
        && x == NewMedicationInstance(m, d, n, GetMedicationInstance(records, m.id, d, n))
    decreases |dates|
  {
    if dates != [] {
      var init, last := dates[..|dates| - 1], dates[|dates| - 1];
      assert dates == init + [last];
      MedicationDaysMembers(m, records, init, x);
      var tail := Doses(m, records, last, m.timesPerDay);
      assert MedicationDays(m, records, dates) == MedicationDays(m, records, init) + tail;
      if x in tail {
        var k :| 0 <= k < |tail| && tail[k] == x;
        assert last in dates && 1 <= k + 1 <= m.timesPerDay;
      }
      if exists d, n :: d in dates && 1 <= n <= m.timesPerDay
           && x == NewMedicationInstance(m, d, n, GetMedicationInstance(records, m.id, d, n)) {
        var d, n :| d in dates && 1 <= n <= m.timesPerDay
          && x == NewMedicationInstance(m, d, n, GetMedicationInstance(records, m.id, d, n));
        if d == last {
          assert tail[n - 1] == x;
        } else {
          assert d in init;
        }
      }
    }
  }

  /** `generateMedicationInstances`: for each medication, each window date and each dose 1...timesPerDay, one instance. */
  method GenerateMedicationInstances(medications: seq<MedicationModel>, records: seq<MedicationInstanceModel>, now: Time)
    returns (instances: seq<MedicationInstance>)
    requires AllDosed(medications)
    ensures instances == MedicationOccurrences(medications, records, DateRange(now))
    ensures |instances| == 3 * TotalDoses(medications)
  {
    var dates := DateRange(now);
    instances := [];
    for i := 0 to |medications|
      invariant instances == MedicationOccurrences(medications[..i], records, dates)
    {
      var medication := medications[i];
      OccurrencesStep(medications, records, dates, i);
      instances := AppendMedicationDays(instances, medication, records, dates);
    }
    assert medications[..|medications|] == medications;
    MedicationOccurrencesLength(medications, records, dates);
  }

  /** The body of the outer loop of `generateMedicationInstances`: every dose of one medication on every date. */
  method AppendMedicationDays(instances: seq<MedicationInstance>, medication: MedicationModel,
                              records: seq<MedicationInstanceModel>, dates: seq<Time>)
    returns (r: seq<MedicationInstance>)
    requires medication.timesPerDay >= 1
    ensures r == instances + MedicationDays(medication, records, dates)
  {
    r := instances;
    for j := 0 to |dates|
      invariant r == instances + MedicationDays(medication, records, dates[..j])
    {
      r := AppendDosesOn(r, medication, records, dates[j]);
      DaysStep(medication, records, dates, j);
    }
    assert dates[..|dates|] == dates;
  }

  /** The innermost loop of `generateMedicationInstances` (and of the medication screen's copy): doses 1 through `timesPerDay` on one date. */
  method AppendDosesOn(instances: seq<MedicationInstance>, medication: MedicationModel,
                       records: seq<MedicationInstanceModel>, date: Time)
    returns (r: seq<MedicationInstance>)
    requires medication.timesPerDay >= 1
    ensures r == instances + Doses(medication, records, date, medication.timesPerDay)
  {
    r := instances;
    for doseNumber := 1 to medication.timesPerDay + 1
      invariant r == instances + Doses(medication, records, date, doseNumber - 1)
    {
      var existing := GetMedicationInstance(records, medication.id, date, doseNumber);
      r := r + [NewMedicationInstance(medication, date, doseNumber, existing)];
    }
  }

  /** One more medication extends the doses by that medication's doses. */
  lemma OccurrencesStep(medications: seq<MedicationModel>, records: seq<MedicationInstanceModel>, dates: seq<Time>, i: nat)
    requires AllDosed(medications) && i < |medications|
    ensures AllDosed(medications[..i]) && AllDosed(medications[..i + 1]) && medications[i].timesPerDay >= 1
    ensures MedicationOccurrences(medications[..i + 1], records, dates)
         == MedicationOccurrences(medications[..i], records, dates) + MedicationDays(medications[i], records, dates)
  {
    assert medications[..i + 1][..i] == medications[..i];
    assert medications[i] in medications;
  }

  /** One more date extends a medication's doses by that day's doses. */
  lemma DaysStep(m: MedicationModel, records: seq<MedicationInstanceModel>, dates: seq<Time>, j: nat)
    requires m.timesPerDay >= 1 && j < |dates|
    ensures MedicationDays(m, records, dates[..j + 1])
         == MedicationDays(m, records, dates[..j]) + Doses(m, records, dates[j], m.timesPerDay)
  {
    assert dates[..j + 1][..j] == dates[..j];
  }

  // ---------------------------------------------------------------------------
  // The combined list

  /** A task is shown when the start of its due day lies in [today, today + 3 days). */
  function InWindow(now: Time, t: TaskModel): (inWindow: bool)
    ensures inWindow <==> DayOf(now) <= DayOf(t.dueDate) < DayOf(now) + 3
  {
    StartOfDay(now) <= StartOfDay(t.dueDate) < StartOfDay(now) + 3 * MinutesPerDay
  }

  function TaskItems(tasks: seq<TaskModel>): (r: seq<Item>)
    ensures |r| == |tasks| && forall k :: 0 <= k < |r| ==> r[k] == TaskItem(tasks[k])
  {
    if tasks == [] then [] else TaskItems(tasks[..|tasks| - 1]) + [TaskItem(tasks[|tasks| - 1])]
  }

  function HabitItems(s: seq<HabitInstance>): (r: seq<Item>)
    ensures |r| == |s| && forall k :: 0 <= k < |r| ==> r[k] == HabitItem(s[k])
  {
    if s == [] then [] else HabitItems(s[..|s| - 1]) + [HabitItem(s[|s| - 1])]
  }

  function DoseItems(s: seq<MedicationInstance>): (r: seq<Item>)
    ensures |r| == |s| && forall k :: 0 <= k < |r| ==> r[k] == DoseItem(s[k])
  {
    if s == [] then [] else DoseItems(s[..|s| - 1]) + [DoseItem(s[|s| - 1])]
  }

  /** "`a` may come before `b`" for `sorted { $0.scheduledTime < $1.scheduledTime }`. */
  predicate ScheduledLe(a: Item, b: Item) {
    a.ScheduledTime() <= b.ScheduledTime()
  }

  lemma ScheduledLeTotalPreorder()
    ensures TotalPreorder(ScheduledLe)
  {
  }

  /** What the list draws from: the window's tasks, the due habit instances and every dose. */
  function ItemPool(cal: Calendar, tasks: seq<TaskModel>, habits: seq<HabitModel>, habitRecords: seq<HabitInstanceModel>,
                    medications: seq<MedicationModel>, doseRecords: seq<MedicationInstanceModel>, now: Time): seq<Item>
    requires AllUsable(habits) && AllDosed(medications)
  {
    TaskItems(Filter(tasks, t => InWindow(now, t)))
    + HabitItems(HabitOccurrences(cal, habits, habitRecords, DateRange(now)))
    + DoseItems(MedicationOccurrences(medications, doseRecords, DateRange(now)))
  }

  /** `allItems`: the pool sorted ascending by scheduled time. */
  method AllItems(cal: Calendar, tasks: seq<TaskModel>, habits: seq<HabitModel>, habitRecords: seq<HabitInstanceModel>,
                  medications: seq<MedicationModel>, doseRecords: seq<MedicationInstanceModel>, now: Time)
    returns (items: seq<Item>)
    requires AllUsable(habits) && AllDosed(medications)
    ensures multiset(items) == multiset(ItemPool(cal, tasks, habits, habitRecords, medications, doseRecords, now))
    ensures SortedBy(items, ScheduledLe)
  {
    var windowTasks := Filter(tasks, t => InWindow(now, t));
    var habitInstances := GenerateHabitInstances(cal, habits, habitRecords, now);
    var medicationInstances := GenerateMedicationInstances(medications, doseRecords, now);
    var pool := TaskItems(windowTasks) + HabitItems(habitInstances) + DoseItems(medicationInstances);
    items := SortBy(pool, ScheduledLe);
    ScheduledLeTotalPreorder();
    SortBySorted(pool, ScheduledLe);
  }

  /** A task is in the list exactly when it is due in the window. */
  lemma TaskInPool(cal: Calendar, tasks: seq<TaskModel>, habits: seq<HabitModel>, habitRecords: seq<HabitInstanceModel>,
                   medications: seq<MedicationModel>, doseRecords: seq<MedicationInstanceModel>, now: Time, t: TaskModel)
    requires AllUsable(habits) && AllDosed(medications)
    ensures TaskItem(t) in ItemPool(cal, tasks, habits, habitRecords, medications, doseRecords, now)
            <==> t in tasks && InWindow(now, t)
  {
    var w := Filter(tasks, t => InWindow(now, t));
    var hs := HabitItems(HabitOccurrences(cal, habits, habitRecords, DateRange(now)));
    var ds := DoseItems(MedicationOccurrences(medications, doseRecords, DateRange(now)));
    assert ItemPool(cal, tasks, habits, habitRecords, medications, doseRecords, now) == TaskItems(w) + hs + ds;
    TaskItemsMembers(w, t);
    assert TaskItem(t) !in hs && TaskItem(t) !in ds;
  }

  /** The tasks' items hold exactly the tasks. */
  lemma TaskItemsMembers(tasks: seq<TaskModel>, t: TaskModel)
    ensures TaskItem(t) in TaskItems(tasks) <==> t in tasks
  {
    var r := TaskItems(tasks);
    if t in tasks {
      var k :| 0 <= k < |tasks| && tasks[k] == t;
      assert r[k] == TaskItem(t);
    }
  }

  // ---------------------------------------------------------------------------
  // The display split

  /** `activeItems`: neither completed nor skipped, in list order. */
  function ActiveItems(all: seq<Item>): (r: seq<Item>)
    ensures forall x :: x in r <==> x in all && !x.IsCompleted() && !x.IsSkipped()
    ensures forall x :: multiset(r)[x] == if !x.IsCompleted() && !x.IsSkipped() then multiset(all)[x] else 0
    ensures SortedBy(all, ScheduledLe) ==> SortedBy(r, ScheduledLe)
  {
    var r := Filter(all, IsActive);
    assert forall x :: multiset(r)[x] == if IsActive(x) then multiset(all)[x] else 0 by {
      forall x ensures multiset(r)[x] == if IsActive(x) then multiset(all)[x] else 0 {
        FilterCount(all, IsActive, x);
      }
    }
    FilterKeepsOrder(all, IsActive, ScheduledLe);
    r
  }

  predicate IsActive(x: Item) {
    !x.IsCompleted() && !x.IsSkipped()
  }

  /** 02:00 on the day after `t`. */
  function ArchiveCutoff(t: Time): (r: Time)
    ensures DayOf(r) == DayOf(t) + 1 && TimeOfDay(r) == 2 * MinutesPerHour
  {
    MidnightOf(DayOf(t) + 1) + 2 * MinutesPerHour
  }

  /** An item stays in the finished list while it has no action time or now is before the cutoff. */
  function StillShown(now: Time, x: Item): (shown: bool)
    ensures shown ==> x.IsCompleted() || x.IsSkipped()
    ensures (x.IsCompleted() || x.IsSkipped()) && x.ActionTimestamp().Some? && now <= x.ActionTimestamp().value ==> shown
    ensures (x.IsCompleted() || x.IsSkipped()) && (x.ActionTimestamp().None? || now < ArchiveCutoff(x.ActionTimestamp().value))
            ==> shown
    ensures shown && x.ActionTimestamp().Some? ==>
      now < (DayOf(x.ActionTimestamp().value) + 1) * MinutesPerDay + 2 * MinutesPerHour
  {
    (x.IsCompleted() || x.IsSkipped())
    && match x.ActionTimestamp()
       case None => true
       case Some(t) => now < ArchiveCutoff(t)
  }

  /** The finished list's order: completed before skipped, then by scheduled time. */
  predicate CompletedFirstLe(a: Item, b: Item) {
    if a.IsCompleted() != b.IsCompleted() then a.IsCompleted()
    else a.ScheduledTime() <= b.ScheduledTime()
  }

  lemma CompletedFirstLeTotalPreorder()
    ensures TotalPreorder(CompletedFirstLe)
  {
  }

  /** `completedAndSkippedItems`: the items still shown, completed first, then by time. */
  function CompletedAndSkippedItems(all: seq<Item>, now: Time): (r: seq<Item>)
    ensures forall x :: x in r <==> x in all && StillShown(now, x)
    ensures forall x :: multiset(r)[x] == if StillShown(now, x) then multiset(all)[x] else 0
  {
    var shown := Filter(all, x => StillShown(now, x));
    assert forall x :: multiset(shown)[x] == if StillShown(now, x) then multiset(all)[x] else 0 by {
      forall x ensures multiset(shown)[x] == if StillShown(now, x) then multiset(all)[x] else 0 {
        FilterCount(all, y => StillShown(now, y), x);
      }
    }
    SortByMembersAll(shown, CompletedFirstLe);
    SortBy(shown, CompletedFirstLe)
  }

  /** Sorting keeps exactly the members of its input. */
  lemma SortByMembersAll<T>(s: seq<T>, le: (T, T) -> bool)
    ensures forall x :: x in SortBy(s, le) <==> x in s
  {
    forall x ensures x in SortBy(s, le) <==> x in s {
      SortByMembers(s, le, x);
    }
  }

  /** The finished list puts every completed item before every skipped-only one, and is time-ordered within each. */
  lemma CompletedAndSkippedOrdered(all: seq<Item>, now: Time)
    ensures SortedBy(CompletedAndSkippedItems(all, now), CompletedFirstLe)
    ensures var r := CompletedAndSkippedItems(all, now);
      forall i, j :: 0 <= i < j < |r| && r[j].IsCompleted() ==> r[i].IsCompleted()
  {
    CompletedFirstLeTotalPreorder();
    SortBySorted(Filter(all, x => StillShown(now, x)), CompletedFirstLe);
  }

  /** No item is both active and finished; every finished item left the active list. */
  lemma ActiveAndFinishedDisjoint(all: seq<Item>, now: Time, x: Item)
    ensures !(x in ActiveItems(all) && x in CompletedAndSkippedItems(all, now))
    ensures x in all && x !in ActiveItems(all) ==> x.IsCompleted() || x.IsSkipped()
  {
  }

  /**
   * An item completed at 23:00 on 2024-03-01 (day 19783) is still listed at
   * 01:59 the next day and gone at 02:01.
   */
  lemma CutoffExample(h: HabitInstance)
    requires h.isCompleted && h.completedAt == Some(MidnightOf(19783) + 23 * 60)
    ensures StillShown(MidnightOf(19784) + 119, HabitItem(h))
    ensures !StillShown(MidnightOf(19784) + 121, HabitItem(h))
  {
  }
}
