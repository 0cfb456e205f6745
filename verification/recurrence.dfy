/**
 * Whether a habit falls on a date. `ShouldOccur` is the rule the item list
 * materialises instances with; the habits screen and its calendar grid carry
 * copies that ignore the weekly and monthly intervals.
 */
module Recurrence {
  import opened Dates
  import opened Models

  /** The interval the rule in use divides by is non-zero (`%` by zero traps). */
  predicate IntervalsUsable(h: HabitModel) {
    match h.frequency
    case Daily => h.dailyInterval != 0
    case Weekly => h.weeklyInterval != 0
    case Monthly => h.monthlyInterval != 0
    case _ => true
  }

  /** The copies on the habits screen divide only by the daily interval. */
  predicate DailyIntervalUsable(h: HabitModel) {
    h.frequency == Daily ==> h.dailyInterval != 0
  }

  /** The normalised start day of a habit. */
  function StartDay(h: HabitModel): Day {
    DayOf(h.remindAt)
  }

  /** The item list's rule: is `h` due on the day of `date`? */
  function ShouldOccur(cal: Calendar, h: HabitModel, date: Time): (due: bool)
    requires IntervalsUsable(h)
    ensures due ==> DayOf(date) >= StartDay(h)
    ensures DayOf(date) == StartDay(h) && h.frequency == NoRepetition ==> due
    ensures h.frequency == Weekly && due ==> IsoWeekday(DayOf(date)) in h.selectedWeekdays
  {
    var start, target := StartDay(h), DayOf(date);
    if target < start then false
    else
      match h.frequency
      case NoRepetition => target == start
      case Daily => (target - start) % h.dailyInterval == 0
      case Weekly =>
        MondayBased(WeekdayRaw(target)) in h.selectedWeekdays
        && WeeksBetween(start, target) % h.weeklyInterval == 0
      case Monthly =>
        cal.dayOfMonth(target) == h.selectedDayOfMonth
        && cal.monthsBetween(start, target) % h.monthlyInterval == 0
      case Custom => cal.dayOfMonth(target) in h.customDays
  }

  /** The habits screen's copy: weekly and monthly rules test only the weekday or day of month. */
  function HabitsViewShouldOccur(cal: Calendar, h: HabitModel, date: Time): (due: bool)
    requires DailyIntervalUsable(h)
    ensures due ==> DayOf(date) >= StartDay(h)
    ensures IntervalsUsable(h) && ShouldOccur(cal, h, date) ==> due
  {
    var start, target := StartDay(h), DayOf(date);
    if target < start then false
    else
      match h.frequency
      case NoRepetition => target == start
      case Daily => (target - start) % h.dailyInterval == 0
      case Weekly => MondayBased(WeekdayRaw(target)) in h.selectedWeekdays
      case Monthly => cal.dayOfMonth(target) == h.selectedDayOfMonth
      case Custom => cal.dayOfMonth(target) in h.customDays
  }

  /** The calendar grid's copy, written out separately in the source. */
  function CalendarGridShouldOccur(cal: Calendar, h: HabitModel, date: Time): (due: bool)
    requires DailyIntervalUsable(h)
    ensures due == HabitsViewShouldOccur(cal, h, date)
  {
    var start, target := StartDay(h), DayOf(date);
    if target < start then false
    else
      match h.frequency
      case NoRepetition => target == start
      case Daily => (target - start) % h.dailyInterval == 0
      case Weekly => MondayBased(WeekdayRaw(target)) in h.selectedWeekdays
      case Monthly => cal.dayOfMonth(target) == h.selectedDayOfMonth
      case Custom => cal.dayOfMonth(target) in h.customDays
  }

  /** No rule makes a habit due before its start day. */
  lemma NeverBeforeStart(cal: Calendar, h: HabitModel, date: Time)
    requires IntervalsUsable(h)
    requires DayOf(date) < StartDay(h)
    ensures !ShouldOccur(cal, h, date)
    ensures !HabitsViewShouldOccur(cal, h, date)
    ensures !CalendarGridShouldOccur(cal, h, date)
  {
  }

  /** A one-off habit is due on its start day and on no other day. */
  lemma NoRepetitionOnlyOnStart(cal: Calendar, h: HabitModel, date: Time)
    requires h.frequency == NoRepetition
    ensures ShouldOccur(cal, h, date) <==> DayOf(date) == StartDay(h)
  {
  }

  /** A daily habit is due exactly on the days whose distance from the start the interval divides. */
  lemma DailyRule(cal: Calendar, h: HabitModel, date: Time)
    requires h.frequency == Daily && h.dailyInterval != 0
    ensures ShouldOccur(cal, h, date)
      <==> DayOf(date) >= StartDay(h) && (DayOf(date) - StartDay(h)) % h.dailyInterval == 0
  {
  }

  /** A weekly habit needs both a selected weekday and a whole number of intervals elapsed. */
  lemma WeeklyRule(cal: Calendar, h: HabitModel, date: Time)
    requires h.frequency == Weekly && h.weeklyInterval != 0
    ensures ShouldOccur(cal, h, date)
      <==> DayOf(date) >= StartDay(h)
           && IsoWeekday(DayOf(date)) in h.selectedWeekdays
           && ((DayOf(date) - StartDay(h)) / 7) % h.weeklyInterval == 0
  {
  }

  /** A monthly habit needs the selected day of month and a whole number of intervals elapsed. */
  lemma MonthlyRule(cal: Calendar, h: HabitModel, date: Time)
    requires h.frequency == Monthly && h.monthlyInterval != 0
    ensures ShouldOccur(cal, h, date)
      <==> DayOf(date) >= StartDay(h)
           && cal.dayOfMonth(DayOf(date)) == h.selectedDayOfMonth
           && cal.monthsBetween(StartDay(h), DayOf(date)) % h.monthlyInterval == 0
  {
  }

  /** A custom habit is due on its listed days of the month, with no interval. */
  lemma CustomRule(cal: Calendar, h: HabitModel, date: Time)
    requires h.frequency == Custom
    ensures ShouldOccur(cal, h, date)
      <==> DayOf(date) >= StartDay(h) && cal.dayOfMonth(DayOf(date)) in h.customDays
  {
  }

  /** A positive number times a positive count is at least the number. */
  lemma {:induction false} ProductAtLeast(m: int, d: int)
    requires m > 0 && d >= 1
    ensures m * d >= m
  {
    if d > 1 {
      ProductAtLeast(m, d - 1);
      assert m * d == m * (d - 1) + m;
    }
  }

  /** A multiple of a non-zero number leaves no remainder. */
  lemma MultipleMod(m: int, c: int)
    requires m != 0
    ensures (m * c) % m == 0
  {
    var q, r := (m * c) / m, (m * c) % m;
    var a, d := if m < 0 then -m else m, c - q;
    assert m * c == m * q + r;
    assert r == m * d;
    if d >= 1 {
      ProductAtLeast(a, d);
    } else if d <= -1 {
      ProductAtLeast(a, -d);
    }
  }

  /** Multiples of a non-zero divisor stay multiples when a multiple of its magnitude is added. */
  lemma ModShift(x: int, m: int, k: nat)
    requires m != 0 && x % m == 0
    ensures (x + k * (if m < 0 then -m else m)) % m == 0
  {
    var q := x / m;
    assert x == m * q;
    if m < 0 {
      assert x + k * -m == m * (q - k);
      MultipleMod(m, q - k);
    } else {
      assert x + k * m == m * (q + k);
      MultipleMod(m, q + k);
    }
  }

  /** The magnitude of a non-zero interval: the period of a daily rule, in days. */
  function Period(i: int): (p: nat)
    requires i != 0
    ensures p > 0 && (p == i || p == -i)
  {
    if i < 0 then -i else i
  }

  /** Once due, a daily habit is due again every `|dailyInterval|` days. */
  lemma {:induction false} DailyRecurs(cal: Calendar, h: HabitModel, d: Day, k: nat)
    requires h.frequency == Daily && h.dailyInterval != 0
    requires ShouldOccur(cal, h, MidnightOf(d))
    ensures ShouldOccur(cal, h, MidnightOf(d + k * Period(h.dailyInterval)))
  {
    ModShift(d - StartDay(h), h.dailyInterval, k);
    assert d + k * Period(h.dailyInterval) - StartDay(h)
        == d - StartDay(h) + k * Period(h.dailyInterval);
  }

  /** Once due, a weekly habit is due again every `|weeklyInterval|` weeks. */
  lemma {:induction false} WeeklyRecurs(cal: Calendar, h: HabitModel, d: Day, k: nat)
    requires h.frequency == Weekly && h.weeklyInterval != 0
    requires ShouldOccur(cal, h, MidnightOf(d))
    ensures ShouldOccur(cal, h, MidnightOf(d + 7 * (k * Period(h.weeklyInterval))))
  {
    var n := k * Period(h.weeklyInterval);
    var d' := d + 7 * n;
    var start := StartDay(h);
    WeekdayPeriodic(d, n);
    assert (d' - start) / 7 == (d - start) / 7 + n by {
      assert d' - start == (d - start) + 7 * n;
    }
    ModShift(WeeksBetween(start, d), h.weeklyInterval, k);
  }

  /** Whatever the item list deems due, the habits screen's copy deems due. */
  lemma ShouldOccurRefines(cal: Calendar, h: HabitModel, date: Time)
    requires IntervalsUsable(h)
    ensures ShouldOccur(cal, h, date) ==> HabitsViewShouldOccur(cal, h, date)
  {
  }

  /** With weekly and monthly intervals of 1 the rules coincide. */
  lemma UnitIntervalsAgree(cal: Calendar, h: HabitModel, date: Time)
    requires IntervalsUsable(h) && h.weeklyInterval == 1 && h.monthlyInterval == 1
    ensures ShouldOccur(cal, h, date) == HabitsViewShouldOccur(cal, h, date)
  {
  }

  /** The two copies on the habits screen agree on all inputs. */
  lemma CopiesAgree(cal: Calendar, h: HabitModel, date: Time)
    requires DailyIntervalUsable(h)
    ensures HabitsViewShouldOccur(cal, h, date) == CalendarGridShouldOccur(cal, h, date)
  {
  }

  /** A habit made with the default arguments is due exactly on its start day. */
  lemma DefaultHabitOnlyOnStart(cal: Calendar, id: Uuid, now: Time, date: Time)
    ensures IntervalsUsable(DefaultHabit(id, now))
    ensures ShouldOccur(cal, DefaultHabit(id, now), date) <==> DayOf(date) == DayOf(now)
  {
  }

  // Day 19723 is Monday 2024-01-01.

  /** Every other day from a Monday start: due on days 0, 2, 4 and not on day 1. */
  lemma DailyEveryOtherDayExample(cal: Calendar)
    ensures var h := NewHabit(1, "Run", "", Daily, MidnightOf(19723) + 420, 2, 1, [], 1, 1, [], 0);
      ShouldOccur(cal, h, MidnightOf(19723) + 600)
      && !ShouldOccur(cal, h, MidnightOf(19724) + 600)
      && ShouldOccur(cal, h, MidnightOf(19725))
      && ShouldOccur(cal, h, MidnightOf(19727) + 1439)
      && !ShouldOccur(cal, h, MidnightOf(19722) + 600)
  {
  }

  /**
   * Mondays and Wednesdays every second week: due on the first Monday and
   * Wednesday and on the Monday two weeks later; the Monday in between has a
   * selected weekday but is skipped by the interval, which the habits screen's
   * copy does not see.
   */
  lemma WeeklyIntervalExample(cal: Calendar)
    ensures var h := NewHabit(2, "Gym", "", Weekly, MidnightOf(19723) + 480, 1, 2, [1, 3], 1, 1, [], 0);
      ShouldOccur(cal, h, MidnightOf(19723))
      && ShouldOccur(cal, h, MidnightOf(19725))
      && !ShouldOccur(cal, h, MidnightOf(19724))
      && !ShouldOccur(cal, h, MidnightOf(19730))
      && HabitsViewShouldOccur(cal, h, MidnightOf(19730))
      && ShouldOccur(cal, h, MidnightOf(19737))
  {
    assert WeekdayRaw(19723) == 2 && WeekdayRaw(19725) == 4;
    assert WeekdayRaw(19724) == 3 && WeekdayRaw(19730) == 2 && WeekdayRaw(19737) == 2;
  }
}
