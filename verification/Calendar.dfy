/** The panel's accounting calendar: apps/web/src/server/usage/time.ts over the
    Date arithmetic of ECMA-262 (section 21.4.1), shifted to UTC+8. */
module Calendar {

  const MINUTE_MS := 60_000
  const DAY_MS := 86_400_000
  const OFFSET := 8 * 60 * 60 * 1000

  datatype Grain = Minute | Day | Month

  // ---------------------------------------------------------------- ECMA-262 days

  /** DayFromYear: the day number of 1 January of year `y`. */
  function DayFromYear(y: int): int {
    365 * (y - 1970) + (y - 1969) / 4 - (y - 1901) / 100 + (y - 1601) / 400
  }

  predicate LeapYear(y: int) {
    y % 4 == 0 && (y % 100 != 0 || y % 400 == 0)
  }

  function DaysInYear(y: int): int {
    if LeapYear(y) then 366 else 365
  }

  lemma LeapFours(y: int)
    ensures (y - 1968) / 4 - (y - 1969) / 4 == if y % 4 == 0 then 1 else 0
  {}

  lemma LeapCenturies(y: int)
    ensures (y - 1900) / 100 - (y - 1901) / 100 == if y % 100 == 0 then 1 else 0
    ensures y % 100 == 0 ==> y % 4 == 0
  {}

  lemma LeapCycles(y: int)
    ensures (y - 1600) / 400 - (y - 1601) / 400 == if y % 400 == 0 then 1 else 0
    ensures y % 400 == 0 ==> y % 100 == 0
  {}

  lemma YearLength(y: int)
    ensures DayFromYear(y + 1) == DayFromYear(y) + DaysInYear(y)
  {
    LeapFours(y);
    LeapCenturies(y);
    LeapCycles(y);
  }

  /** The last year from `y` on that has begun by day `d`. */
  function YearScan(y: int, d: int): (r: int)
    requires DayFromYear(y) <= d
    ensures DayFromYear(r) <= d < DayFromYear(r + 1)
    decreases d - DayFromYear(y)
  {
    YearLength(y);
    if DayFromYear(y + 1) <= d then YearScan(y + 1, d) else y
  }

  /** YearFromTime: the year that contains day `d`. */
  function YearFromDay(d: int): (y: int)
    ensures DayFromYear(y) <= d < DayFromYear(y + 1)
  {
    YearScan(1970 + (if d < 0 then d / 365 else d / 366), d)
  }

  lemma {:induction false} YearsIncrease(a: int, b: int)
    requires a <= b
    ensures DayFromYear(a) + 365 * (b - a) <= DayFromYear(b)
    decreases b - a
  {
    if a < b {
      YearLength(b - 1);
      YearsIncrease(a, b - 1);
    }
  }

  lemma YearUnique(d: int, y: int)
    requires DayFromYear(y) <= d < DayFromYear(y + 1)
    ensures YearFromDay(d) == y
  {
    hide DayFromYear;
    hide YearScan;
    var r := YearFromDay(d);
    if r < y { YearsIncrease(r + 1, y); }
    if y < r { YearsIncrease(y + 1, r); }
  }

  /** Days before month `m` (0 = January, 12 = the end of the year). */
  function DaysBefore(m: int, leap: bool): int
    requires 0 <= m <= 12
  {
    [0, 31, 59, 90, 120, 151, 181, 212, 243, 273, 304, 334, 365][m] + (if leap && m >= 2 then 1 else 0)
  }

  lemma DaysBeforeIncreases(a: int, b: int, leap: bool)
    requires 0 <= a < b <= 12
    ensures DaysBefore(a, leap) + 28 <= DaysBefore(b, leap)
  {
    var table := [0, 31, 59, 90, 120, 151, 181, 212, 243, 273, 304, 334, 365];
    assert forall i | 0 <= i < 12 :: table[i] + 28 <= table[i + 1];
    if a + 1 < b { DaysBeforeIncreases(a, b - 1, leap); }
  }

  function MonthScan(m: int, dayInYear: int, leap: bool): (r: int)
    requires 0 <= m <= 11 && DaysBefore(m, leap) <= dayInYear < DaysBefore(12, leap)
    ensures 0 <= r <= 11 && DaysBefore(r, leap) <= dayInYear < DaysBefore(r + 1, leap)
    decreases 12 - m
  {
    if DaysBefore(m + 1, leap) <= dayInYear then MonthScan(m + 1, dayInYear, leap) else m
  }

  /** MonthFromTime: the month, 0 to 11, that contains day `d`. */
  function MonthFromDay(d: int): (m: int)
    ensures 0 <= m <= 11
    ensures var y := YearFromDay(d);
            DaysBefore(m, LeapYear(y)) <= d - DayFromYear(y) < DaysBefore(m + 1, LeapYear(y))
  {
    DayOfYear(d);
    var y := YearFromDay(d);
    MonthScan(0, d - DayFromYear(y), LeapYear(y))
  }

  lemma DayOfYear(d: int)
    ensures var y := YearFromDay(d);
            DaysBefore(0, LeapYear(y)) <= d - DayFromYear(y) < DaysBefore(12, LeapYear(y))
  {
    hide DayFromYear;
    hide YearFromDay;
    YearLength(YearFromDay(d));
  }

  /** MakeDay with date 1: the day number of the first of a month, months beyond
      December carrying into the following years. */
  function MakeDay(year: int, month: int): int {
    var y := year + month / 12;
    DayFromYear(y) + DaysBefore(month % 12, LeapYear(y))
  }

  /** Date.UTC(year, month, 1), which reads the years 0 to 99 as 1900 to 1999. */
  function DateUTC(year: int, month: int): int {
    MakeDay(if 0 <= year <= 99 then 1900 + year else year, month) * DAY_MS
  }

  // ---------------------------------------------------------------- time.ts

  /** The local (UTC+8) day that contains `time`. */
  function LocalDay(time: int): int { (time + OFFSET) / DAY_MS }

  function LocalYear(time: int): int { YearFromDay(LocalDay(time)) }

  function MonthStart(time: int): int {
    var day := LocalDay(time);
    DateUTC(YearFromDay(day), MonthFromDay(day)) - OFFSET
  }

  function Size(grain: Grain): int
    requires grain != Month
  {
    if grain == Minute then MINUTE_MS else DAY_MS
  }

  function BucketStart(time: int, grain: Grain): int {
    if grain == Month then MonthStart(time)
    else (time + OFFSET) / Size(grain) * Size(grain) - OFFSET
  }

  function NextBucket(start: int, grain: Grain): int {
    if grain != Month then start + Size(grain)
    else
      var day := LocalDay(start);
      DateUTC(YearFromDay(day), MonthFromDay(day) + 1) - OFFSET
  }

  // ---------------------------------------------------------------- tiling

  lemma MakeDayInYear(y: int, m: int)
    requires 0 <= m <= 12
    ensures MakeDay(y, m) == DayFromYear(y) + DaysBefore(m, LeapYear(y))
  {
    YearLength(y);
  }

  /** Day `d` lies in month `m` of year `y`. */
  predicate InMonth(d: int, y: int, m: int) {
    0 <= m <= 11 && MakeDay(y, m) <= d < MakeDay(y, m + 1)
  }

  lemma MonthOfDay(d: int)
    ensures InMonth(d, YearFromDay(d), MonthFromDay(d))
  {
    hide DayFromYear;
    hide LeapYear;
    hide DaysBefore;
    hide MakeDay;
    MakeDayInYear(YearFromDay(d), MonthFromDay(d));
    MakeDayInYear(YearFromDay(d), MonthFromDay(d) + 1);
  }

  lemma FirstInMonth(y: int, m: int)
    requires 0 <= m <= 11
    ensures InMonth(MakeDay(y, m), y, m)
  {
    hide DayFromYear;
    hide LeapYear;
    hide DaysBefore;
    hide MakeDay;
    MakeDayInYear(y, m);
    MakeDayInYear(y, m + 1);
    DaysBeforeIncreases(m, m + 1, LeapYear(y));
  }

  lemma YearOfMonth(d: int, y: int, m: int)
    requires InMonth(d, y, m)
    ensures YearFromDay(d) == y
  {
    hide DayFromYear;
    hide LeapYear;
    hide MakeDay;
    hide YearFromDay;
    MakeDayInYear(y, m);
    MakeDayInYear(y, m + 1);
    YearLength(y);
    assert DaysBefore(0, LeapYear(y)) <= DaysBefore(m, LeapYear(y)) by {
      if 0 < m { DaysBeforeIncreases(0, m, LeapYear(y)); }
    }
    assert DaysBefore(m + 1, LeapYear(y)) <= DaysBefore(12, LeapYear(y)) by {
      if m < 11 { DaysBeforeIncreases(m + 1, 12, LeapYear(y)); }
    }
    YearUnique(d, y);
  }

  lemma MonthUnique(d: int, y: int, m: int)
    requires InMonth(d, y, m)
    ensures YearFromDay(d) == y && MonthFromDay(d) == m
  {
    hide DayFromYear;
    hide LeapYear;
    hide DaysBefore;
    hide MakeDay;
    YearOfMonth(d, y, m);
    MakeDayInYear(y, m);
    MakeDayInYear(y, m + 1);
    var r := MonthFromDay(d);
    if r + 1 < m { DaysBeforeIncreases(r + 1, m, LeapYear(y)); }
    if m + 1 < r { DaysBeforeIncreases(m + 1, r, LeapYear(y)); }
  }

  lemma MonthStartIsFirst(time: int, y: int, m: int)
    requires InMonth(LocalDay(time), y, m) && !(0 <= y <= 99)
    ensures MonthStart(time) == MakeDay(y, m) * DAY_MS - OFFSET
    ensures LocalDay(MonthStart(time)) == MakeDay(y, m)
    ensures NextBucket(MonthStart(time), Month) == MakeDay(y, m + 1) * DAY_MS - OFFSET
  {
    hide DayFromYear;
    hide LeapYear;
    hide DaysBefore;
    hide MakeDay;
    MonthUnique(LocalDay(time), y, m);
    FirstInMonth(y, m);
    MonthUnique(MakeDay(y, m), y, m);
  }

  lemma CenturyShift(d: int, y: int, m: int)
    requires InMonth(d, y, m) && 0 <= y <= 99
    ensures d < MakeDay(1900 + y, m)
  {
    YearOfMonth(d, y, m);
    MakeDayInYear(1900 + y, m);
    assert DaysBefore(0, LeapYear(1900 + y)) <= DaysBefore(m, LeapYear(1900 + y)) by {
      if 0 < m { DaysBeforeIncreases(0, m, LeapYear(1900 + y)); }
    }
    YearsIncrease(y + 1, 1900 + y);
  }

  /** The month grain tiles time around every instant whose local year Date.UTC reads
      as itself, and around no other: in the years 0 to 99 the bucket of an instant
      starts nineteen centuries after it. */
  lemma MonthTiling(time: int)
    ensures (MonthStart(time) <= time < NextBucket(MonthStart(time), Month)) <==> !(0 <= LocalYear(time) <= 99)
    ensures !(0 <= LocalYear(time) <= 99) ==> MonthStart(MonthStart(time)) == MonthStart(time)
  {
    hide DayFromYear;
    hide LeapYear;
    hide DaysBefore;
    hide MakeDay;
    var d := LocalDay(time);
    var y, m := YearFromDay(d), MonthFromDay(d);
    MonthOfDay(d);
    if 0 <= y <= 99 {
      CenturyShift(d, y, m);
      assert MonthStart(time) == MakeDay(1900 + y, m) * DAY_MS - OFFSET;
    } else {
      MonthStartIsFirst(time, y, m);
      FirstInMonth(y, m);
      MonthStartIsFirst(MonthStart(time), y, m);
    }
  }

  /** The instants the panel computes with: Date.UTC reads their local year as itself. */
  predicate Modern(time: int) { 100 <= LocalYear(time) }

  lemma ModernSince1970(time: int)
    requires -OFFSET <= time
    ensures Modern(time) && 1970 <= LocalYear(time)
  {
    var y := LocalYear(time);
    if y < 1970 { YearsIncrease(y + 1, 1970); }
  }

  lemma ModernLater(early: int, late: int)
    requires early <= late && Modern(early)
    ensures Modern(late)
  {
    hide DayFromYear;
    var a, b := LocalYear(early), LocalYear(late);
    assert LocalDay(early) <= LocalDay(late);
    if b < a {
      YearsIncrease(b + 1, a);
    }
  }

  lemma Rounding(x: int, size: int)
    requires size == MINUTE_MS || size == DAY_MS
    ensures x / size * size <= x < x / size * size + size
    ensures (x / size * size) / size * size == x / size * size
    ensures (x / size * size + size) / size * size == x / size * size + size
    ensures (x / size * size) / DAY_MS == x / DAY_MS
  {}

  lemma SameDaySameYear(a: int, b: int)
    requires LocalDay(a) == LocalDay(b)
    ensures LocalYear(a) == LocalYear(b) && MonthStart(a) == MonthStart(b)
  {}

  /** The instants whose buckets are plain: all of them on the minute and day grains, and on
      the month grain those outside the years that Date.UTC reads as others. */
  predicate Plain(time: int, grain: Grain) { grain != Month || !(0 <= LocalYear(time) <= 99) }

  /** A plain instant lies in its bucket, and the bucket's start is plain and a fixed point. */
  lemma Tiling(time: int, grain: Grain)
    requires Plain(time, grain)
    ensures BucketStart(time, grain) <= time < NextBucket(BucketStart(time, grain), grain)
    ensures BucketStart(BucketStart(time, grain), grain) == BucketStart(time, grain)
    ensures LocalYear(BucketStart(time, grain)) == LocalYear(time)
  {
    hide MonthStart;
    hide DateUTC;
    hide YearFromDay;
    if grain == Month {
      MonthTiling(time);
      MonthStartYear(time);
    } else {
      Rounding(time + OFFSET, Size(grain));
      SameDaySameYear(time, BucketStart(time, grain));
    }
  }

  lemma MonthStartYear(time: int)
    requires !(0 <= LocalYear(time) <= 99)
    ensures LocalYear(MonthStart(time)) == LocalYear(time)
  {
    hide DayFromYear;
    hide LeapYear;
    hide DaysBefore;
    hide MakeDay;
    var y, m := YearFromDay(LocalDay(time)), MonthFromDay(LocalDay(time));
    MonthOfDay(LocalDay(time));
    MonthStartIsFirst(time, y, m);
    FirstInMonth(y, m);
    MonthUnique(MakeDay(y, m), y, m);
  }

  /** The successor of a plain bucket lies after it, and is a bucket start again if and only
      if it is plain itself, which only the month before the year 0 is not followed by. */
  lemma Successor(start: int, grain: Grain)
    requires Plain(start, grain) && BucketStart(start, grain) == start
    ensures start < NextBucket(start, grain)
    ensures var next := NextBucket(start, grain);
            BucketStart(next, grain) == next <==> Plain(next, grain)
  {
    hide DateUTC;
    hide MonthStart;
    hide LocalYear;
    if grain == Month {
      Tiling(start, Month);
      NextMonthIsFirst(start);
    } else {
      Rounding(start + OFFSET, Size(grain));
    }
  }

  /** The first of the month after an instant, as a year and a month. */
  lemma NextMonth(start: int) returns (y: int, m: int)
    requires !(0 <= LocalYear(start) <= 99)
    ensures LocalDay(NextBucket(start, Month)) == MakeDay(y, m)
    ensures NextBucket(start, Month) == MakeDay(y, m) * DAY_MS - OFFSET
    ensures InMonth(MakeDay(y, m), y, m)
  {
    hide DayFromYear;
    hide LeapYear;
    hide DaysBefore;
    hide MakeDay;
    hide DayFromYear;
    hide LeapYear;
    hide DaysBefore;
    hide MakeDay;
    y, m := YearFromDay(LocalDay(start)), MonthFromDay(LocalDay(start)) + 1;
    if m == 12 {
      NewYear(y);
      y, m := y + 1, 0;
    }
    FirstInMonth(y, m);
  }

  lemma NewYear(y: int)
    ensures MakeDay(y, 12) == MakeDay(y + 1, 0)
  {}

  lemma NextMonthIsFirst(start: int)
    requires !(0 <= LocalYear(start) <= 99)
    ensures var next := NextBucket(start, Month);
            MonthStart(next) == next <==> !(0 <= LocalYear(next) <= 99)
  {
    hide DayFromYear;
    hide LeapYear;
    hide DaysBefore;
    hide MakeDay;
    var y, m := NextMonth(start);
    hide NextBucket;
    var next := NextBucket(start, Month);
    MonthUnique(MakeDay(y, m), y, m);
    if 0 <= y <= 99 {
      CenturyShift(MakeDay(y, m), y, m);
      assert MonthStart(next) == MakeDay(1900 + y, m) * DAY_MS - OFFSET;
    } else {
      MonthStartIsFirst(next, y, m);
    }
  }

  /** The plain bucket that contains an instant is the only one that does. */
  lemma BucketUnique(time: int, start: int, grain: Grain)
    requires Plain(start, grain) && BucketStart(start, grain) == start <= time < NextBucket(start, grain)
    ensures BucketStart(time, grain) == start
  {
    hide MonthStart;
    hide LocalYear;
    hide DateUTC;
    if grain == Month {
      MonthBucketUnique(time, start);
    } else {
      Quotients(time + OFFSET, start + OFFSET, Size(grain));
    }
  }

  lemma Quotients(a: int, b: int, size: int)
    requires size == MINUTE_MS || size == DAY_MS
    requires b / size * size == b <= a < b + size
    ensures a / size * size == b
  {}

  lemma MonthBucketUnique(time: int, start: int)
    requires !(0 <= LocalYear(start) <= 99) && MonthStart(start) == start <= time < NextBucket(start, Month)
    ensures MonthStart(time) == start
  {
    hide DayFromYear;
    hide LeapYear;
    hide DaysBefore;
    hide MakeDay;
    var y, m := YearFromDay(LocalDay(start)), MonthFromDay(LocalDay(start));
    MonthOfDay(LocalDay(start));
    MonthStartIsFirst(start, y, m);
    assert InMonth(LocalDay(time), y, m);
    MonthStartIsFirst(time, y, m);
  }

  // ---------------------------------------------------------------- from the year 100 on

  lemma ModernTiling(time: int, grain: Grain)
    requires Modern(time)
    ensures BucketStart(time, grain) <= time < NextBucket(BucketStart(time, grain), grain)
    ensures BucketStart(BucketStart(time, grain), grain) == BucketStart(time, grain)
    ensures Modern(BucketStart(time, grain))
  {
    hide BucketStart;
    hide NextBucket;
    hide LocalYear;
    Tiling(time, grain);
  }

  lemma ModernSuccessor(start: int, grain: Grain)
    requires Modern(start) && BucketStart(start, grain) == start
    ensures start < NextBucket(start, grain)
    ensures BucketStart(NextBucket(start, grain), grain) == NextBucket(start, grain)
    ensures Modern(NextBucket(start, grain))
  {
    hide BucketStart;
    hide NextBucket;
    hide LocalYear;
    Successor(start, grain);
    ModernLater(start, NextBucket(start, grain));
  }

  lemma ModernUnique(time: int, start: int, grain: Grain)
    requires Modern(start) && BucketStart(start, grain) == start <= time < NextBucket(start, grain)
    ensures BucketStart(time, grain) == start
  {
    hide BucketStart;
    hide NextBucket;
    hide LocalYear;
    BucketUnique(time, start, grain);
  }

  /** Every bucket of the coarser grains is at least a day long. */
  lemma MonthHoldsADay(start: int)
    requires Modern(start) && MonthStart(start) == start
    ensures start + DAY_MS <= NextBucket(start, Month)
  {
    hide DayFromYear;
    hide LeapYear;
    hide DaysBefore;
    hide MakeDay;
    var y, m := YearFromDay(LocalDay(start)), MonthFromDay(LocalDay(start));
    MonthOfDay(LocalDay(start));
    MonthStartIsFirst(start, y, m);
  }

  /** Minutes refine days and days refine months: an instant and the start of its finer
      bucket always fall into the same coarser bucket. */
  lemma Refines(time: int)
    ensures BucketStart(BucketStart(time, Minute), Day) == BucketStart(time, Day)
    ensures BucketStart(BucketStart(time, Day), Month) == BucketStart(time, Month)
    ensures BucketStart(BucketStart(time, Minute), Month) == BucketStart(time, Month)
  {
    hide MonthStart;
    hide LocalYear;
    Rounding(time + OFFSET, MINUTE_MS);
    Rounding(time + OFFSET, DAY_MS);
    SameDaySameYear(time, BucketStart(time, Minute));
    SameDaySameYear(time, BucketStart(time, Day));
  }
}
