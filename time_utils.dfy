/**
 * Local time and the check-in windows of src/utils/timeUtils.js.
 *
 * The application reads the clock in one fixed time zone; here "now" is
 * always passed in as a local calendar date plus the milliseconds elapsed
 * since local midnight. `Rank` orders local times exactly as the clock
 * does, which is all that the comparisons of the source need.
 */
module TimeUtils {
  import opened Wrappers

  const MS_PER_HOUR := 3_600_000
  const MS_PER_DAY := 86_400_000

  predicate IsLeapYear(year: int)
  {
    year % 4 == 0 && (year % 100 != 0 || year % 400 == 0)
  }

  function DaysInMonth(year: int, month: int): (n: int)
    ensures 28 <= n <= 31
  {
    if month == 2 then (if IsLeapYear(year) then 29 else 28)
    else if month == 4 || month == 6 || month == 9 || month == 11 then 30
    else 31
  }

  datatype Date = Date(year: int, month: int, day: int)

  predicate IsCalendarDate(d: Date)
  {
    1 <= d.month <= 12 && 1 <= d.day <= DaysInMonth(d.year, d.month)
  }

  /** A day of the proleptic Gregorian calendar. */
  type CalendarDate = d: Date | IsCalendarDate(d) witness Date(1970, 1, 1)

  /** Milliseconds since local midnight. */
  type MsOfDay = ms: int | 0 <= ms < MS_PER_DAY

  /** A local date and time, to the millisecond. */
  datatype LocalTime = LocalTime(date: CalendarDate, ms: MsOfDay)

  /** An integer that increases with the date, in calendar order. */
  function DayRank(d: CalendarDate): int
  {
    (d.year * 13 + d.month) * 32 + d.day
  }

  /** An integer that orders local times as the clock does. */
  function Rank(t: LocalTime): int
  {
    DayRank(t.date) * MS_PER_DAY + t.ms
  }

  /** Days compare by year, then month, then day, and only equal days tie. */
  lemma DayRankOrder(a: CalendarDate, b: CalendarDate)
    ensures DayRank(a) < DayRank(b) <==>
      a.year < b.year || (a.year == b.year && (a.month < b.month || (a.month == b.month && a.day < b.day)))
    ensures DayRank(a) == DayRank(b) <==> a == b
  {
  }

  /** Two local times compare by date first and by time of day on the same date. */
  lemma RankOrder(a: LocalTime, b: LocalTime)
    ensures Rank(a) < Rank(b) <==> DayRank(a.date) < DayRank(b.date) || (a.date == b.date && a.ms < b.ms)
    ensures Rank(a) == Rank(b) <==> a == b
  {
    DayRankOrder(a.date, b.date);
    if DayRank(a.date) < DayRank(b.date) {
      assert Rank(a) < (DayRank(a.date) + 1) * MS_PER_DAY <= Rank(b);
    } else if DayRank(b.date) < DayRank(a.date) {
      assert Rank(b) < (DayRank(b.date) + 1) * MS_PER_DAY <= Rank(a);
    }
  }

  /** For `a` and `b` on the same date, rank order is time-of-day order. */
  lemma SameDateOrder(a: LocalTime, b: LocalTime)
    requires a.date == b.date
    ensures Rank(a) <= Rank(b) <==> a.ms <= b.ms
    ensures Rank(a) < Rank(b) <==> a.ms < b.ms
  {
  }

  /** The two kinds of check-in. */
  datatype CheckinType = Morning | Evening

  /** The `type` strings that name a kind of check-in. */
  function ParseCheckinType(s: string): (r: Option<CheckinType>)
    ensures r == Some(Morning) <==> s == "morning"
    ensures r == Some(Evening) <==> s == "evening"
  {
    if s == "morning" then Some(Morning)
    else if s == "evening" then Some(Evening)
    else None
  }

  /** The first and the last millisecond of morning and evening, as times of day. */
  const MORNING_START: MsOfDay := 4 * MS_PER_HOUR
  const MORNING_END: MsOfDay := 13 * MS_PER_HOUR
  const EVENING_START: MsOfDay := 16 * MS_PER_HOUR
  const EVENING_END: MsOfDay := 22 * MS_PER_HOUR

  function StartOfDay(kind: CheckinType): MsOfDay
  {
    match kind
    case Morning => MORNING_START
    case Evening => EVENING_START
  }

  function EndOfDay(kind: CheckinType): MsOfDay
  {
    match kind
    case Morning => MORNING_END
    case Evening => EVENING_END
  }

  /** The bounds `{ start, end }` of a check-in window. */
  datatype Window = Window(start: LocalTime, end: LocalTime)

  /** The window of a kind of check-in on the local date of `now`. */
  function WindowOn(kind: CheckinType, now: LocalTime): (w: Window)
    ensures w.start.date == now.date && w.end.date == now.date
    ensures Rank(w.start) < Rank(w.end)
  {
    Window(LocalTime(now.date, StartOfDay(kind)), LocalTime(now.date, EndOfDay(kind)))
  }

  /**
   * `checkInTime(type)`: the window for 'morning' or 'evening' on the date of
   * `now`, and nothing for any other string (the source falls off the end of
   * the function and yields undefined).
   */
  function CheckInTime(kind: string, now: LocalTime): (r: Option<Window>)
    ensures r.Some? <==> kind == "morning" || kind == "evening"
    ensures kind == "morning" ==> r == Some(Window(LocalTime(now.date, 4 * MS_PER_HOUR), LocalTime(now.date, 13 * MS_PER_HOUR)))
    ensures kind == "evening" ==> r == Some(Window(LocalTime(now.date, 16 * MS_PER_HOUR), LocalTime(now.date, 22 * MS_PER_HOUR)))
  {
    match ParseCheckinType(kind)
    case Some(t) => Some(WindowOn(t, now))
    case None => None
  }

  /** The bounds depend only on the date of "now", never on its time of day. */
  lemma CheckInTimeIgnoresTimeOfDay(kind: string, a: LocalTime, b: LocalTime)
    requires a.date == b.date
    ensures CheckInTime(kind, a) == CheckInTime(kind, b)
  {
  }

  /** Each window starts before it ends, and the morning window ends before the evening one starts. */
  lemma WindowsAreOrdered(now: LocalTime)
    ensures Rank(WindowOn(Morning, now).start) < Rank(WindowOn(Morning, now).end)
    ensures Rank(WindowOn(Evening, now).start) < Rank(WindowOn(Evening, now).end)
    ensures Rank(WindowOn(Morning, now).end) < Rank(WindowOn(Evening, now).start)
  {
  }

  /** `startOf('month')` of the month of `now`: its first day at midnight. */
  function StartOfMonth(now: LocalTime): LocalTime
  {
    LocalTime(Date(now.date.year, now.date.month, 1), 0)
  }

  /** `endOf('month')` of the month of `now`: its last day at 23:59:59.999. */
  function EndOfMonth(now: LocalTime): LocalTime
  {
    var d := now.date;
    LocalTime(Date(d.year, d.month, DaysInMonth(d.year, d.month)), MS_PER_DAY - 1)
  }

  /** The query bound `$gte: startOfMonth, $lt: endOfMonth`. */
  predicate InMonthQuery(t: LocalTime, now: LocalTime)
  {
    Rank(StartOfMonth(now)) <= Rank(t) < Rank(EndOfMonth(now))
  }

  /**
   * The month query admits exactly the times in the month of `now`, except
   * the very last millisecond of that month, which `$lt` leaves out.
   */
  lemma InMonthQueryMeans(t: LocalTime, now: LocalTime)
    ensures InMonthQuery(t, now) <==>
      t.date.year == now.date.year && t.date.month == now.date.month &&
      !(t.date.day == DaysInMonth(t.date.year, t.date.month) && t.ms == MS_PER_DAY - 1)
  {
    RankOrder(StartOfMonth(now), t);
    RankOrder(t, EndOfMonth(now));
    DayRankOrder(StartOfMonth(now).date, t.date);
    DayRankOrder(t.date, EndOfMonth(now).date);
  }
}
