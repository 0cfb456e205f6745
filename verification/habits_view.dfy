/**
 * The habits screen: the filtered and sorted habit list, the header counters,
 * and the month calendar with its per-day completion and due counts.
 */
module HabitsScreen {
  import opened Wrappers
  import opened Dates
  import opened Seqs
  import opened Sorting
  import opened Text
  import opened Models
  import opened Recurrence

  function HabitName(h: HabitModel): string { h.name }

  /** The frequency chip: no chip keeps every habit, a chip keeps that frequency only. */
  function HasFrequency(selected: Option<HabitFrequency>): HabitModel -> bool {
    (h: HabitModel) => selected.None? || h.frequency == selected.value
  }

  /**
   * The search box: an empty text keeps every habit, otherwise the name or the
   * description must contain it. `matches` stands for Foundation's
   * locale-aware, case-insensitive `localizedCaseInsensitiveContains`.
   */
  function MatchesSearch(searchText: string, matches: (string, string) -> bool): HabitModel -> bool {
    (h: HabitModel) => searchText == [] || matches(h.name, searchText) || matches(h.habitDescription, searchText)
  }

  /** The list shown: habits of the chosen frequency that match the search, by name. */
  method FilteredHabits(habits: seq<HabitModel>, selected: Option<HabitFrequency>,
                        searchText: string, matches: (string, string) -> bool)
    returns (shown: seq<HabitModel>)
    ensures forall h :: h in shown <==>
              h in habits && HasFrequency(selected)(h) && MatchesSearch(searchText, matches)(h)
    ensures multiset(shown) == multiset(Filter(Filter(habits, HasFrequency(selected)), MatchesSearch(searchText, matches)))
    ensures SortedBy(shown, NameOrder(HabitName))
  {
    var kept := habits;
    if selected.Some? {
      kept := Filter(kept, HasFrequency(selected));
    } else {
      FilterAll(kept, HasFrequency(selected));
    }
    if searchText != [] {
      kept := Filter(kept, MatchesSearch(searchText, matches));
    } else {
      FilterAll(kept, MatchesSearch(searchText, matches));
    }
    shown := SortBy(kept, NameOrder(HabitName));
    NameOrderTotalPreorder(HabitName);
    SortBySorted(kept, NameOrder(HabitName));
    forall h ensures h in shown <==> h in kept {
      SortByMembers(kept, NameOrder(HabitName), h);
    }
  }

  /** Every habit on the screen can be tested without dividing by zero. */
  predicate AllDailyUsable(habits: seq<HabitModel>) {
    forall h :: h in habits ==> DailyIntervalUsable(h)
  }

  /** Due on `date` by the habits screen's rule. */
  function DueOnScreen(cal: Calendar, date: Time): HabitModel -> bool {
    (h: HabitModel) => DailyIntervalUsable(h) && HabitsViewShouldOccur(cal, h, date)
  }

  /** Due on `date` by the calendar grid's rule. */
  function DueOnGrid(cal: Calendar, date: Time): HabitModel -> bool {
    (h: HabitModel) => DailyIntervalUsable(h) && CalendarGridShouldOccur(cal, h, date)
  }

  /** Due on `date` by the item list's rule. */
  function DueInList(cal: Calendar, date: Time): HabitModel -> bool {
    (h: HabitModel) => IntervalsUsable(h) && ShouldOccur(cal, h, date)
  }

  /** "Today" on the header: how many habits the screen's rule makes due today. */
  function TodayHabitsCount(cal: Calendar, habits: seq<HabitModel>, today: Time): (n: nat)
    requires AllDailyUsable(habits)
    ensures n <= |habits|
    ensures n == 0 <==> forall h :: h in habits ==> !HabitsViewShouldOccur(cal, h, today)
  {
    var due := Filter(habits, DueOnScreen(cal, today));
    assert |due| != 0 ==> due[0] in due;
    |due|
  }

  /** The calendar cell's denominator: how many habits the grid's rule makes due on `date`. */
  function GetTotalCount(cal: Calendar, habits: seq<HabitModel>, date: Time): (n: nat)
    requires AllDailyUsable(habits)
    ensures n <= |habits|
    ensures n == 0 <==> forall h :: h in habits ==> !CalendarGridShouldOccur(cal, h, date)
  {
    var due := Filter(habits, DueOnGrid(cal, date));
    assert |due| != 0 ==> due[0] in due;
    |due|
  }

  /** The header count and the calendar's count for today are the same number. */
  lemma TodayCountIsGridCount(cal: Calendar, habits: seq<HabitModel>, today: Time)
    requires AllDailyUsable(habits)
    ensures TodayHabitsCount(cal, habits, today) == GetTotalCount(cal, habits, today)
  {
    forall h | h in habits ensures DueOnScreen(cal, today)(h) == DueOnGrid(cal, today)(h) {
      CopiesAgree(cal, h, today);
    }
    FilterSame(habits, DueOnScreen(cal, today), DueOnGrid(cal, today));
  }

  /**
   * The header never under-counts the instances the item list shows for today,
   * because the screen's rule ignores the weekly and monthly intervals.
   */
  lemma ListDueAtMostTodayCount(cal: Calendar, habits: seq<HabitModel>, today: Time)
    requires forall h :: h in habits ==> IntervalsUsable(h)
    ensures AllDailyUsable(habits)
    ensures |Filter(habits, DueInList(cal, today))| <= TodayHabitsCount(cal, habits, today)
  {
    forall h | h in habits && DueInList(cal, today)(h) ensures DueOnScreen(cal, today)(h) {
      ShouldOccurRefines(cal, h, today);
    }
    FilterMonotone(habits, DueInList(cal, today), DueOnScreen(cal, today));
  }

  function IsCompletedRecord(r: HabitInstanceModel): bool { r.IsCompleted() }

  /** Latest scheduled date first. */
  predicate LaterFirst(a: HabitInstanceModel, b: HabitInstanceModel) {
    a.scheduledDate >= b.scheduledDate
  }

  lemma LaterFirstTotalPreorder()
    ensures TotalPreorder(LaterFirst)
  {
  }

  /** The 30 most recent completions, latest first. */
  function RecentCompletions(records: seq<HabitInstanceModel>): (recent: seq<HabitInstanceModel>)
    ensures SortedBy(recent, LaterFirst)
    ensures forall r :: r in recent ==> r in records && r.IsCompleted()
  {
    var sorted := SortBy(Filter(records, IsCompletedRecord), LaterFirst);
    LaterFirstTotalPreorder();
    SortBySorted(Filter(records, IsCompletedRecord), LaterFirst);
    forall r | r in Prefix(sorted, 30) ensures r in records && r.IsCompleted() {
      SortByMembers(Filter(records, IsCompletedRecord), LaterFirst, r);
    }
    Prefix(sorted, 30)
  }

  /**
   * "Best streak" on the header: the number of completed records, capped at
   * 30 — a count of completions, not of consecutive days.
   */
  function LongestStreak(records: seq<HabitInstanceModel>): (n: nat)
    ensures n == if |Filter(records, IsCompletedRecord)| < 30 then |Filter(records, IsCompletedRecord)| else 30
    ensures n <= |records|
  {
    |RecentCompletions(records)|
  }

  /** Completed on the calendar day `day`. */
  function CompletedOn(day: Day): HabitInstanceModel -> bool {
    (r: HabitInstanceModel) => DayOf(r.scheduledDate) == day && r.IsCompleted()
  }

  /** The calendar cell's numerator: records of that day that are completed. */
  function GetCompletionCount(records: seq<HabitInstanceModel>, date: Time): (n: nat)
    ensures n <= |records|
    ensures n == 0 <==> forall r :: r in records ==> !(DayOf(r.scheduledDate) == DayOf(date) && r.IsCompleted())
  {
    var done := Filter(records, CompletedOn(DayOf(date)));
    assert |done| != 0 ==> done[0] in done;
    |done|
  }

  /** The completion count never exceeds the number of completed records. */
  lemma CompletionCountAtMostCompleted(records: seq<HabitInstanceModel>, date: Time)
    ensures GetCompletionCount(records, date) <= |Filter(records, IsCompletedRecord)|
  {
    FilterMonotone(records, CompletedOn(DayOf(date)), IsCompletedRecord);
  }

  /**
   * The month grid: blank cells up to the first day's weekday (Sunday
   * first), then one cell per day of the month, then blanks to fill the last
   * week. `startOfMonth` and `numberOfDays` are what the calendar reports for
   * the selected month.
   */
  method CalendarDays(startOfMonth: Day, numberOfDays: int) returns (days: seq<Option<Day>>)
    requires numberOfDays >= 1
    ensures var lead := WeekdayRaw(startOfMonth) - 1;
      && |days| % 7 == 0
      && lead + numberOfDays <= |days| < lead + numberOfDays + 7
      && (forall k :: 0 <= k < lead ==> days[k] == None)
      && (forall i :: lead <= i < lead + numberOfDays ==> days[i] == Some(startOfMonth + (i - lead)))
      && (forall k :: lead + numberOfDays <= k < |days| ==> days[k] == None)
  {
    var firstWeekday := WeekdayRaw(startOfMonth) - 1;
    days := seq(firstWeekday, _ => None);
    for day := 1 to numberOfDays + 1
      invariant |days| == firstWeekday + day - 1
      invariant forall k :: 0 <= k < firstWeekday ==> days[k] == None
      invariant forall i :: firstWeekday <= i < |days| ==> days[i] == Some(startOfMonth + (i - firstWeekday))
    {
      days := days + [Some(startOfMonth + day - 1)];
    }
    ghost var filled := firstWeekday + numberOfDays;
    ghost var weekEnd := filled + (7 - filled % 7) % 7;
    while |days| % 7 != 0
      invariant filled <= |days| <= weekEnd
      invariant forall k :: 0 <= k < firstWeekday ==> days[k] == None
      invariant forall i :: firstWeekday <= i < filled ==> days[i] == Some(startOfMonth + (i - firstWeekday))
      invariant forall k :: filled <= k < |days| ==> days[k] == None
      decreases weekEnd - |days|
    {
      days := days + [None];
    }
  }
}
