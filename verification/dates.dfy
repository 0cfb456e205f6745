/**
 * Calendar utilities. A `Time` is a whole number of minutes since local midnight
 * of 1970-01-01, a `Day` a whole number of days since then. Time zones and DST
 * are not modelled: `startOfDay` truncates to the day, `isDate(_:inSameDayAs:)`
 * and `isDateInToday` compare day numbers.
 */
module Dates {
  type Time = int
  type Day = int

  const MinutesPerDay := 1440
  const MinutesPerHour := 60

  /** The calendar day a moment falls on. */
  function DayOf(t: Time): (d: Day)
    ensures d * MinutesPerDay <= t < (d + 1) * MinutesPerDay
  {
    t / MinutesPerDay
  }

  /** `calendar.startOfDay(for:)`: midnight of the day of `t`. */
  function StartOfDay(t: Time): (r: Time)
    ensures r <= t < r + MinutesPerDay
    ensures DayOf(r) == DayOf(t)
  {
    DayOf(t) * MinutesPerDay
  }

  /** Minutes past midnight. */
  function TimeOfDay(t: Time): (m: int)
    ensures 0 <= m < MinutesPerDay
    ensures t == DayOf(t) * MinutesPerDay + m
  {
    t % MinutesPerDay
  }

  /** `calendar.component(.hour, from:)`. */
  function Hour(t: Time): (h: int)
    ensures 0 <= h < 24
  {
    TimeOfDay(t) / MinutesPerHour
  }

  /** `calendar.date(bySettingHour:minute:second: 0, of: date)` with the hour and minute of `clock`. */
  function AtTimeOf(date: Time, clock: Time): (r: Time)
    ensures DayOf(r) == DayOf(date)
    ensures TimeOfDay(r) == TimeOfDay(clock)
  {
    DayOf(date) * MinutesPerDay + TimeOfDay(clock)
  }

  /** Midnight of day `d`. */
  function MidnightOf(d: Day): (r: Time)
    ensures DayOf(r) == d && TimeOfDay(r) == 0
  {
    d * MinutesPerDay
  }

  /**
   * `calendar.component(.weekday, from:)` in Foundation's numbering, 1 = Sunday
   * ... 7 = Saturday. Day 0 (1970-01-01) was a Thursday.
   */
  function WeekdayRaw(d: Day): (w: int)
    ensures 1 <= w <= 7
  {
    (d + 4) % 7 + 1
  }

  /** Weekdays repeat every seven days, and consecutive days have distinct weekdays within a week. */
  lemma WeekdayPeriodic(d: Day, k: int)
    ensures WeekdayRaw(d + 7 * k) == WeekdayRaw(d)
    ensures 0 < k < 7 ==> WeekdayRaw(d + k) != WeekdayRaw(d)
  {
  }

  /** The remap `weekday == 1 ? 7 : weekday - 1` to Monday = 1 ... Sunday = 7. */
  function MondayBased(raw: int): int {
    if raw == 1 then 7 else raw - 1
  }

  /** The inverse of `MondayBased` on 1..7. */
  function SundayBased(iso: int): int {
    if iso == 7 then 1 else iso + 1
  }

  /** The remap is a bijection of 1..7 onto itself that sends Sunday to 7, with inverse `SundayBased`. */
  lemma MondayBasedBijection(raw: int, iso: int)
    ensures 1 <= raw <= 7 ==> 1 <= MondayBased(raw) <= 7 && SundayBased(MondayBased(raw)) == raw
    ensures 1 <= iso <= 7 ==> 1 <= SundayBased(iso) <= 7 && MondayBased(SundayBased(iso)) == iso
    ensures MondayBased(1) == 7 && MondayBased(2) == 1
  {
  }

  /** The Monday-based weekday of a day. */
  function IsoWeekday(d: Day): (w: int)
    ensures 1 <= w <= 7
  {
    MondayBased(WeekdayRaw(d))
  }

  /**
   * `dateComponents([.weekOfYear], from: start, to: target).weekOfYear` for two
   * midnights with `start <= target`: whole weeks elapsed.
   */
  function WeeksBetween(start: Day, target: Day): (w: int)
    requires start <= target
    ensures 0 <= w && 7 * w <= target - start < 7 * (w + 1)
  {
    (target - start) / 7
  }

  /**
   * The parts of Foundation's Gregorian calendar that are not modelled:
   * `component(.day, from:)` and `dateComponents([.month], from:to:).month`
   * (whole months elapsed) as functions of day numbers.
   */
  datatype Calendar = Calendar(dayOfMonth: Day -> int, monthsBetween: (Day, Day) -> int)
}
