/**
 * The medications screen: today's dose schedule and its counters, the
 * time-of-day filter chips with the search box, and the "next dose" line of a
 * medication card.
 */
module MedicationsScreen {
  import opened Wrappers
  import opened Dates
  import opened Seqs
  import opened Sorting
  import opened Text
  import opened Models
  import opened Store
  import opened ItemsList

  /** One dose instance per medication and dose number, for today only. */
  method TodayMedicationInstances(medications: seq<MedicationModel>, records: seq<MedicationInstanceModel>, now: Time)
    returns (instances: seq<MedicationInstance>)
    requires AllDosed(medications)
    ensures instances == MedicationOccurrences(medications, records, [StartOfDay(now)])
    ensures |instances| == TotalDoses(medications)
  {
    var today := StartOfDay(now);
    instances := [];
    for i := 0 to |medications|
      invariant instances == MedicationOccurrences(medications[..i], records, [today])
    {
      var medication := medications[i];
      OccurrencesStep(medications, records, [today], i);
      OneDayDoses(medication, records, today);
      instances := AppendDosesOn(instances, medication, records, today);
    }
    assert medications[..|medications|] == medications;
    MedicationOccurrencesLength(medications, records, [today]);
  }

  /** Over a single date, a medication's doses are that day's doses. */
  lemma OneDayDoses(m: MedicationModel, records: seq<MedicationInstanceModel>, date: Time)
    requires m.timesPerDay >= 1
    ensures MedicationDays(m, records, [date]) == Doses(m, records, date, m.timesPerDay)
  {
    assert [date][..0] == [];
  }

  function DoseTaken(x: MedicationInstance): bool { x.isCompleted }

  /** "Taken" on the header: today's doses that are marked completed. */
  function TakenTodayCount(medications: seq<MedicationModel>, records: seq<MedicationInstanceModel>, now: Time): (n: nat)
    requires AllDosed(medications)
    ensures n <= TotalDoses(medications)
  {
    MedicationOccurrencesLength(medications, records, [StartOfDay(now)]);
    |Filter(MedicationOccurrences(medications, records, [StartOfDay(now)]), DoseTaken)|
  }

  /** A dose of `dates` shows as taken only when a completed record of its day exists. */
  lemma {:induction false} TakenDoseHasRecord(medications: seq<MedicationModel>, records: seq<MedicationInstanceModel>,
                                               dates: seq<Time>, x: MedicationInstance)
    requires AllDosed(medications) && x in MedicationOccurrences(medications, records, dates)
    ensures x.isCompleted ==>
      exists r :: r in records && r.medicationId == x.originalMedication.id
        && DayOf(r.scheduledDate) == DayOf(x.instanceDate) && r.IsCompleted()
    decreases |medications|
  {
    var init, last := medications[..|medications| - 1], medications[|medications| - 1];
    assert last in medications;
    if x in MedicationOccurrences(init, records, dates) {
      TakenDoseHasRecord(init, records, dates, x);
    } else {
      MedicationDaysMembers(last, records, dates, x);
      var d, n :| d in dates && 1 <= n <= last.timesPerDay
        && x == NewMedicationInstance(last, d, n, GetMedicationInstance(records, last.id, d, n));
      if x.isCompleted {
        var r := GetMedicationInstance(records, last.id, d, n).value;
        assert r in records && MedicationSlot(r) == (last.id, DayOf(d), n);
      }
    }
  }

  /** With no completed record of today, nothing counts as taken. */
  lemma NothingTakenWithoutRecords(medications: seq<MedicationModel>, records: seq<MedicationInstanceModel>, now: Time)
    requires AllDosed(medications)
    requires forall r :: r in records && DayOf(r.scheduledDate) == DayOf(now) ==> !r.IsCompleted()
    ensures TakenTodayCount(medications, records, now) == 0
  {
    var taken := Filter(MedicationOccurrences(medications, records, [StartOfDay(now)]), DoseTaken);
    if |taken| > 0 {
      assert taken[0] in taken;
      TakenDoseHasRecord(medications, records, [StartOfDay(now)], taken[0]);
      MedicationDaysInstanceDate(medications, records, [StartOfDay(now)], taken[0]);
    }
  }

  /** Every dose over `dates` is placed on one of those dates. */
  lemma {:induction false} MedicationDaysInstanceDate(medications: seq<MedicationModel>, records: seq<MedicationInstanceModel>,
                                                       dates: seq<Time>, x: MedicationInstance)
    requires AllDosed(medications) && x in MedicationOccurrences(medications, records, dates)
    ensures x.instanceDate in dates
    decreases |medications|
  {
    var init, last := medications[..|medications| - 1], medications[|medications| - 1];
    assert last in medications;
    if x in MedicationOccurrences(init, records, dates) {
      MedicationDaysInstanceDate(init, records, dates, x);
    } else {
      MedicationDaysMembers(last, records, dates, x);
    }
  }

  /** The chips above the medication list. */
  datatype TimeFilter = All | Morning | Afternoon | Evening | Night

  /** Whether an hour of the day falls in a chip's range. */
  function InRange(filter: TimeFilter, hour: int): (inRange: bool)
    ensures filter == All ==> inRange
    ensures (filter == Morning || filter == Afternoon || filter == Evening) && inRange ==> 5 <= hour < 21
    ensures filter == Night && 0 <= hour < 24 ==> (inRange <==> !(5 <= hour < 21))
  {
    match filter
    case All => true
    case Morning => 5 <= hour < 12
    case Afternoon => 12 <= hour < 17
    case Evening => 17 <= hour < 21
    case Night => hour >= 21 || hour < 5
  }

  /** The four ranges split the day: every hour is in exactly one of them. */
  lemma RangesPartitionDay(hour: int)
    requires 0 <= hour < 24
    ensures InRange(Morning, hour) || InRange(Afternoon, hour) || InRange(Evening, hour) || InRange(Night, hour)
    ensures forall f, g :: f != All && g != All && f != g && InRange(f, hour) ==> !InRange(g, hour)
  {
  }

  /** A chip keeps the medications with at least one reminder in its range. */
  function HasReminderIn(filter: TimeFilter): (keeps: MedicationModel -> bool)
    ensures forall m: MedicationModel :: m.reminderTimes == [] ==> (keeps(m) <==> filter == All)
    ensures forall m: MedicationModel :: filter == All ==> keeps(m)
    ensures forall m: MedicationModel :: filter != All ==>
      (keeps(m) <==> exists t :: t in m.reminderTimes && InRange(filter, Hour(t)))
  {
    (m: MedicationModel) => filter == All || exists t :: t in m.reminderTimes && InRange(filter, Hour(t))
  }

  /** The search box: an empty text keeps everything, otherwise name, description or instructions must contain it. */
  function MatchesSearch(searchText: string, matches: (string, string) -> bool): MedicationModel -> bool {
    (m: MedicationModel) =>
      searchText == [] || matches(m.name, searchText) || matches(m.medicationDescription, searchText)
      || matches(m.instructions, searchText)
  }

  function MedicationName(m: MedicationModel): string { m.name }

  /** The list shown under the chips, by name. */
  method FilteredMedications(medications: seq<MedicationModel>, filter: TimeFilter,
                             searchText: string, matches: (string, string) -> bool)
    returns (shown: seq<MedicationModel>)
    ensures forall m :: m in shown <==>
              m in medications && HasReminderIn(filter)(m) && MatchesSearch(searchText, matches)(m)
    ensures multiset(shown) == multiset(Filter(Filter(medications, HasReminderIn(filter)), MatchesSearch(searchText, matches)))
    ensures SortedBy(shown, NameOrder(MedicationName))
  {
    var kept := medications;
    if filter != All {
      kept := Filter(kept, HasReminderIn(filter));
    } else {
      FilterAll(kept, HasReminderIn(filter));
    }
    if searchText != [] {
      kept := Filter(kept, MatchesSearch(searchText, matches));
    } else {
      FilterAll(kept, MatchesSearch(searchText, matches));
    }
    shown := SortBy(kept, NameOrder(MedicationName));
    NameOrderTotalPreorder(MedicationName);
    SortBySorted(kept, NameOrder(MedicationName));
    forall m ensures m in shown <==> m in kept {
      SortByMembers(kept, NameOrder(MedicationName), m);
    }
  }

  /** A medication with any reminder is kept by one of the four range chips. */
  lemma ReminderFindsAChip(m: MedicationModel)
    requires m.reminderTimes != []
    ensures exists f :: f != All && HasReminderIn(f)(m)
  {
    var t := m.reminderTimes[0];
    RangesPartitionDay(Hour(t));
    if InRange(Morning, Hour(t)) {
      assert HasReminderIn(Morning)(m);
    } else if InRange(Afternoon, Hour(t)) {
      assert HasReminderIn(Afternoon)(m);
    } else if InRange(Evening, Hour(t)) {
      assert HasReminderIn(Evening)(m);
    } else {
      assert HasReminderIn(Night)(m);
    }
  }

  /** The card's "Next:" line: a reminder still ahead today, or tomorrow's first reminder. */
  datatype NextDose = Today(at: Time) | Tomorrow(firstDose: Time)

  /**
   * The first reminder, in list order, whose clock time today is still ahead
   * of `now`; otherwise the first reminder, tomorrow; nothing without
   * reminders. When the reminders are in clock order the dose found today is
   * the earliest one still ahead.
   */
  method GetNextDoseTime(reminderTimes: seq<Time>, now: Time) returns (next: Option<NextDose>)
    ensures next.None? <==> reminderTimes == []
    ensures next.Some? && next.value.Today? ==>
      exists i :: 0 <= i < |reminderTimes|
        && next.value.at == AtTimeOf(now, reminderTimes[i]) && next.value.at > now
        && forall j :: 0 <= j < i ==> AtTimeOf(now, reminderTimes[j]) <= now
    ensures next.Some? && next.value.Tomorrow? ==>
      && next.value.firstDose == reminderTimes[0]
      && forall j :: 0 <= j < |reminderTimes| ==> AtTimeOf(now, reminderTimes[j]) <= now
    ensures next.Some? && next.value.Today? && InClockOrder(reminderTimes) ==>
      forall j :: 0 <= j < |reminderTimes| && AtTimeOf(now, reminderTimes[j]) > now ==>
        next.value.at <= AtTimeOf(now, reminderTimes[j])
  {
    for i := 0 to |reminderTimes|
      invariant forall j :: 0 <= j < i ==> AtTimeOf(now, reminderTimes[j]) <= now
    {
      var todayTime := AtTimeOf(now, reminderTimes[i]);
      if todayTime > now {
        ClockOrderMonotone(reminderTimes, now, i);
        return Some(Today(todayTime));
      }
    }
    if reminderTimes != [] {
      return Some(Tomorrow(reminderTimes[0]));
    }
    return None;
  }

  /** Reminders sorted by time of day. */
  predicate InClockOrder(times: seq<Time>) {
    forall i, j :: 0 <= i < j < |times| ==> TimeOfDay(times[i]) <= TimeOfDay(times[j])
  }

  /** In clock order, later reminders fall later on any given day. */
  lemma ClockOrderMonotone(times: seq<Time>, now: Time, i: nat)
    requires i < |times|
    ensures InClockOrder(times) ==>
      forall j :: i <= j < |times| ==> AtTimeOf(now, times[i]) <= AtTimeOf(now, times[j])
  {
  }
}
