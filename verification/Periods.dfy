/** The periods the client asks for (apps/web/src/features/usage/range.ts) against the
    alignment the server applies (query in apps/web/src/server/usage/store.ts). */
module Periods {
  import opened Calendar

  datatype Period = Today | SevenDays | ThirtyDays | MonthOf(year: int, month: int)

  datatype Range = Range(start: int, end: int, grain: Grain)

  /** periodRange: the client's own arithmetic, months counted from 1. */
  function PeriodRange(period: Period, now: int): Range {
    var dayStart := (now + OFFSET) / DAY_MS * DAY_MS - OFFSET;
    match period
    case Today => Range(dayStart, dayStart + DAY_MS, Minute)
    case SevenDays => Range(dayStart - 6 * DAY_MS, dayStart + DAY_MS, Day)
    case ThirtyDays => Range(dayStart - 29 * DAY_MS, dayStart + DAY_MS, Day)
    case MonthOf(year, month) => Range(DateUTC(year, month - 1) - OFFSET, DateUTC(year, month) - OFFSET, Day)
  }

  /** currentShanghaiMonth: year and month of the ISO date at UTC+8. */
  function CurrentShanghaiMonth(now: int): Period {
    MonthOf(LocalYear(now), MonthFromDay(LocalDay(now)) + 1)
  }

  /** The server's alignment of a requested range. */
  function Aligned(r: Range): Range {
    var start := BucketStart(r.start, r.grain);
    var end := if BucketStart(r.end, r.grain) == r.end then r.end else NextBucket(BucketStart(r.end, r.grain), r.grain);
    Range(start, end, r.grain)
  }

  predicate NaturalMonth(r: Range) {
    r.start == MonthStart(r.start) && r.end == NextBucket(r.start, Month)
  }

  /** The period the server compares with. */
  function PreviousStart(r: Range): int {
    if NaturalMonth(r) then MonthStart(r.start - 1) else r.start - (r.end - r.start)
  }

  /** A whole number of days after a local midnight is on every grain below the month. */
  lemma MidnightsAligned(x: int, k: int, grain: Grain)
    requires grain != Month
    ensures var t := x / DAY_MS * DAY_MS + k * DAY_MS - OFFSET; BucketStart(t, grain) == t
  {
    var n := x / DAY_MS + k;
    assert x / DAY_MS * DAY_MS + k * DAY_MS == n * DAY_MS;
    assert n * DAY_MS == n * 1440 * MINUTE_MS;
  }

  /** Client and server agree: the server's alignment leaves every range the client builds
      as it is. */
  lemma PeriodsAligned(period: Period, now: int)
    requires period.MonthOf? ==> 0 <= period.year && 1 <= period.month <= 12
    ensures Aligned(PeriodRange(period, now)) == PeriodRange(period, now)
  {
    hide DateUTC;
    hide BucketStart;
    hide NextBucket;
    var x := now + OFFSET;
    match period
    case MonthOf(year, month) =>
      MonthMidnight(year, month - 1);
      MonthMidnight(year, month);
    case Today =>
      MidnightsAligned(x, 0, Minute);
      MidnightsAligned(x, 1, Minute);
    case SevenDays =>
      MidnightsAligned(x, -6, Day);
      MidnightsAligned(x, 1, Day);
    case ThirtyDays =>
      MidnightsAligned(x, -29, Day);
      MidnightsAligned(x, 1, Day);
  }

  lemma MonthMidnight(year: int, month: int)
    ensures BucketStart(DateUTC(year, month) - OFFSET, Day) == DateUTC(year, month) - OFFSET
  {
    hide MakeDay;
    var day := MakeDay(if 0 <= year <= 99 then 1900 + year else year, month);
    MidnightsAligned(day * DAY_MS, 0, Day);
  }

  /** The month range of a year that Date.UTC reads as itself is recognised as that natural
      month; a year from 0 to 99 selects the month in the twentieth century. */
  lemma MonthRecognised(year: int, month: int, now: int)
    requires 0 <= year && 1 <= month <= 12
    ensures var r := PeriodRange(MonthOf(year, month), now);
            var meant := if year <= 99 then 1900 + year else year;
            && NaturalMonth(r)
            && LocalYear(r.start) == meant && MonthFromDay(LocalDay(r.start)) == month - 1
  {
    hide DayFromYear;
    hide LeapYear;
    hide DaysBefore;
    hide MakeDay;
    var meant := if year <= 99 then 1900 + year else year;
    var r := PeriodRange(MonthOf(year, month), now);
    FirstInMonth(meant, month - 1);
    MonthUnique(MakeDay(meant, month - 1), meant, month - 1);
    assert LocalDay(r.start) == MakeDay(meant, month - 1);
    MonthStartIsFirst(r.start, meant, month - 1);
  }

  /** The current month of the client is the server's month bucket of the current instant. */
  lemma CurrentMonthAgrees(now: int)
    requires Modern(now)
    ensures var r := PeriodRange(CurrentShanghaiMonth(now), now);
            r.start == MonthStart(now) && r.start <= now < r.end && r.end == NextBucket(r.start, Month)
  {
    hide DayFromYear;
    hide LeapYear;
    hide DaysBefore;
    hide MakeDay;
    var y, m := YearFromDay(LocalDay(now)), MonthFromDay(LocalDay(now));
    MonthOfDay(LocalDay(now));
    MonthStartIsFirst(now, y, m);
    MonthTiling(now);
  }

  /** The period before a natural month is the whole month that ends where it starts. */
  lemma PreviousMonthAdjoins(r: Range)
    requires Modern(r.start - 1) && NaturalMonth(r)
    ensures PreviousStart(r) < r.start && NextBucket(PreviousStart(r), Month) == r.start
  {
    hide DateUTC;
    hide MonthStart;
    hide LocalYear;
    hide LocalDay;
    ModernTiling(r.start - 1, Month);
    ModernLater(r.start - 1, r.start);
    var p := MonthStart(r.start - 1);
    if r.start < NextBucket(p, Month) { ModernUnique(r.start, p, Month); }
  }
}
