// Calendar arithmetic as ECMA-262 (2021 and later, section 21.4.1) defines it, in a time zone of
// fixed offset, and the billing interval built on it (src/billing/billing.service.ts, addPlanInterval).
module Calendar {
  import opened Blocks

  const MS_PER_DAY: int := 86_400_000

  predicate IsLeap(y: int) {
    y % 4 == 0 && (y % 100 != 0 || y % 400 == 0)
  }

  function DaysInYear(y: int): int {
    if IsLeap(y) then 366 else 365
  }

  // The day number of 1 January of year y, year by year from 1 January 1970, which is day 0;
  // DayFromYearFormula gives it in closed form.
  function DayFromYear(y: int): int
    decreases if y < 1970 then 1970 - y else y - 1970
  {
    if y == 1970 then 0
    else if y > 1970 then DayFromYear(y - 1) + DaysInYear(y - 1)
    else DayFromYear(y + 1) - DaysInYear(y)
  }

  function DaysInMonth(y: int, m: int): int
    requires 0 <= m < 12
  {
    if m == 1 then (if IsLeap(y) then 29 else 28)
    else if m == 3 || m == 5 || m == 8 || m == 10 then 30
    else 31
  }

  // Days before month m (0 is January) in year y.
  function DaysBefore(y: int, m: int): int
    requires 0 <= m <= 12
  {
    if m == 0 then 0 else DaysBefore(y, m - 1) + DaysInMonth(y, m - 1)
  }

  // YearFromTime: the year that contains the day.
  function YearOf(day: int): (y: int)
    ensures DayFromYear(y) <= day < DayFromYear(y + 1)
    decreases if day < 0 then -day else day
  {
    if day == 0 then 1970
    else if day > 0 then
      var y := YearOf(day - 1);
      YearLength(y + 1);
      if day < DayFromYear(y + 1) then y else y + 1
    else
      var y := YearOf(day + 1);
      YearLength(y - 1);
      if DayFromYear(y) <= day then y else y - 1
  }

  function DayInYear(day: int): int {
    day - DayFromYear(YearOf(day))
  }

  // The month of a day of the year, scanning from month m.
  function MonthFrom(y: int, dayInYear: int, m: int): (r: int)
    requires 0 <= m < 12 && DaysBefore(y, m) <= dayInYear < DaysBefore(y, 12)
    ensures 0 <= r < 12 && DaysBefore(y, r) <= dayInYear < DaysBefore(y, r + 1)
    decreases 12 - m
  {
    if dayInYear < DaysBefore(y, m + 1) then m else MonthFrom(y, dayInYear, m + 1)
  }

  // MonthFromTime, 0 for January.
  function MonthOf(day: int): (m: int)
    ensures 0 <= m < 12
    ensures DaysBefore(YearOf(day), m) <= DayInYear(day) < DaysBefore(YearOf(day), m + 1)
  {
    YearLength(YearOf(day));
    MonthsFillYear(YearOf(day));
    MonthFrom(YearOf(day), DayInYear(day), 0)
  }

  // DateFromTime: the day of the month, from 1.
  function DateOf(day: int): (d: int)
    ensures 1 <= d <= DaysInMonth(YearOf(day), MonthOf(day))
  {
    DayInYear(day) - DaysBefore(YearOf(day), MonthOf(day)) + 1
  }

  // MakeDay: months past the end of the year carry into the year, dates past the end of the
  // month run on into the next.
  function MakeDay(year: int, month: int, date: int): int {
    DayFromYear(year + month / 12) + DaysBefore(year + month / 12, month % 12) + date - 1
  }

  // ---------- Years, months and days fit together ----------

  lemma YearLength(y: int)
    ensures DayFromYear(y + 1) - DayFromYear(y) == DaysInYear(y)
  {
  }

  function LeapDays(y: int): int {
    (y - 1969) / 4 - (y - 1901) / 100 + (y - 1601) / 400
  }

  lemma FourthYear(y: int)
    ensures (y - 1968) / 4 - (y - 1969) / 4 == if y % 4 == 0 then 1 else 0
  {
  }

  lemma HundredthYear(y: int)
    ensures (y - 1900) / 100 - (y - 1901) / 100 == if y % 100 == 0 then 1 else 0
  {
  }

  lemma FourHundredthYear(y: int)
    ensures (y - 1600) / 400 - (y - 1601) / 400 == if y % 400 == 0 then 1 else 0
    ensures y % 400 == 0 ==> y % 100 == 0 && y % 4 == 0
    ensures y % 100 == 0 ==> y % 4 == 0
  {
  }

  lemma LeapDaysStep(y: int)
    ensures LeapDays(y + 1) - LeapDays(y) == if IsLeap(y) then 1 else 0
  {
    FourthYear(y);
    HundredthYear(y);
    FourHundredthYear(y);
  }

  // The formula of ECMA-262 for the day number of a year.
  lemma {:induction false} DayFromYearFormula(y: int)
    ensures DayFromYear(y) == 365 * (y - 1970) + LeapDays(y)
    decreases if y < 1970 then 1970 - y else y - 1970
  {
    if y > 1970 {
      DayFromYearFormula(y - 1);
      LeapDaysStep(y - 1);
    } else if y < 1970 {
      DayFromYearFormula(y + 1);
      LeapDaysStep(y);
    }
  }

  lemma MonthsFillYear(y: int)
    ensures DaysBefore(y, 12) == DaysInYear(y)
  {
    assert DaysBefore(y, 2) == DaysBefore(y, 1) + DaysInMonth(y, 1);
    assert DaysBefore(y, 4) == DaysBefore(y, 2) + 61;
    assert DaysBefore(y, 6) == DaysBefore(y, 4) + 61;
    assert DaysBefore(y, 8) == DaysBefore(y, 6) + 62;
    assert DaysBefore(y, 10) == DaysBefore(y, 8) + 61;
    assert DaysBefore(y, 12) == DaysBefore(y, 10) + 61;
  }

  lemma MakeDayWithin(y: int, m: int, d: int)
    requires 0 <= m < 12
    ensures MakeDay(y, m, d) == DayFromYear(y) + DaysBefore(y, m) + d - 1
  {
  }

  // Month 12 is January of the next year.
  lemma MakeDayCarry(y: int, d: int)
    ensures MakeDay(y, 12, d) == MakeDay(y + 1, 0, d) == DayFromYear(y + 1) + d - 1
  {
  }

  // Reading the fields of a day and making a day of them gives the day back.
  lemma MakeDayOfFields(day: int)
    ensures MakeDay(YearOf(day), MonthOf(day), DateOf(day)) == day
  {
    MakeDayWithin(YearOf(day), MonthOf(day), DateOf(day));
  }

  lemma {:induction false} YearsIncrease(y: int, z: int)
    requires y <= z
    ensures DayFromYear(y) + 365 * (z - y) <= DayFromYear(z)
    decreases z - y
  {
    if y < z {
      YearLength(y);
      YearsIncrease(y + 1, z);
    }
  }

  lemma {:induction false} MonthsIncrease(y: int, m: int, n: int)
    requires 0 <= m <= n <= 12
    ensures DaysBefore(y, m) <= DaysBefore(y, n)
    decreases n - m
  {
    if m < n {
      MonthsIncrease(y, m, n - 1);
    }
  }

  lemma YearIs(day: int, y: int)
    requires DayFromYear(y) <= day < DayFromYear(y + 1)
    ensures YearOf(day) == y
  {
    var z := YearOf(day);
    if z < y { YearsIncrease(z + 1, y); }
    if z > y { YearsIncrease(y + 1, z); }
  }

  lemma MonthFits(y: int, dayInYear: int, m: int, n: int)
    requires 0 <= m < 12 && DaysBefore(y, m) <= dayInYear < DaysBefore(y, m + 1)
    requires 0 <= n < 12 && DaysBefore(y, n) <= dayInYear < DaysBefore(y, n + 1)
    ensures m == n
  {
    if n < m { MonthsIncrease(y, n + 1, m); }
    if n > m { MonthsIncrease(y, m + 1, n); }
  }

  // Only the fields of a day make that day: the calendar date of a day number is unique.
  lemma FieldsOfMadeDay(y: int, m: int, d: int)
    requires 0 <= m < 12 && 1 <= d <= DaysInMonth(y, m)
    ensures YearOf(MakeDay(y, m, d)) == y && MonthOf(MakeDay(y, m, d)) == m && DateOf(MakeDay(y, m, d)) == d
  {
    var day := MakeDay(y, m, d);
    MakeDayWithin(y, m, d);
    DateWithinYear(y, m, d);
    YearIs(day, y);
    MonthFits(y, DayInYear(day), MonthOf(day), m);
  }

  lemma DateWithinYear(y: int, m: int, d: int)
    requires 0 <= m < 12 && 1 <= d <= DaysInMonth(y, m)
    ensures DayFromYear(y) <= DayFromYear(y) + DaysBefore(y, m) + d - 1 < DayFromYear(y + 1)
    ensures DaysBefore(y, m) + d - 1 < DaysBefore(y, m + 1)
  {
    MonthsFillYear(y);
    MonthsIncrease(y, m + 1, 12);
    MonthsIncrease(y, 0, m);
    YearLength(y);
  }

  // ---------- A mutable Date in a zone of fixed offset ----------

  // LocalTime(t) = t + offset; the day and the time within it.
  function LocalDay(time: int, offset: int): int {
    (time + offset) / MS_PER_DAY
  }

  function AtLocalDay(time: int, offset: int, day: int): int {
    time + (day - LocalDay(time, offset)) * MS_PER_DAY
  }

  class Date {
    var time: int
    const offset: int

    constructor (time: int, offset: int)
      ensures this.time == time && this.offset == offset
    {
      this.time, this.offset := time, offset;
    }

    function Day(): int
      reads this
    {
      LocalDay(time, offset)
    }

    method SetDate(date: int)
      modifies this
      ensures time == AtLocalDay(old(time), offset, MakeDay(YearOf(old(Day())), MonthOf(old(Day())), date))
    {
      var timeInDay := (time + offset) % MS_PER_DAY;
      time := MakeDay(YearOf(Day()), MonthOf(Day()), date) * MS_PER_DAY + timeInDay - offset;
    }

    method SetMonth(month: int)
      modifies this
      ensures time == AtLocalDay(old(time), offset, MakeDay(YearOf(old(Day())), month, DateOf(old(Day()))))
    {
      var timeInDay := (time + offset) % MS_PER_DAY;
      time := MakeDay(YearOf(Day()), month, DateOf(Day())) * MS_PER_DAY + timeInDay - offset;
    }

    method SetFullYear(year: int)
      modifies this
      ensures time == AtLocalDay(old(time), offset, MakeDay(year, MonthOf(old(Day())), DateOf(old(Day()))))
    {
      var timeInDay := (time + offset) % MS_PER_DAY;
      time := MakeDay(year, MonthOf(Day()), DateOf(Day())) * MS_PER_DAY + timeInDay - offset;
    }
  }

  // ---------- addPlanInterval ----------

  // The end of a period that starts on date d of month m of year y.
  function NextFrom(y: int, m: int, d: int, interval: string): int {
    if interval == "day" then MakeDay(y, m, d + 1)
    else if interval == "week" then MakeDay(y, m, d + 7)
    else if interval == "year" then MakeDay(y + 1, m, d)
    else MakeDay(y, m + 1, d)
  }

  // The local day on which a period that starts on `day` ends.
  function NextDay(day: int, interval: string): int {
    NextFrom(YearOf(day), MonthOf(day), DateOf(day), interval)
  }

  function AddPlanInterval(start: int, offset: int, interval: string): int {
    AtLocalDay(start, offset, NextDay(LocalDay(start, offset), interval))
  }

  // addPlanInterval copies the start and moves the copy; the start is left alone.
  method AddInterval(start: Date, interval: string) returns (end: Date)
    ensures fresh(end) && end.offset == start.offset
    ensures end.time == AddPlanInterval(start.time, start.offset, interval)
  {
    end := new Date(start.time, start.offset);
    var day := end.Day();
    assert day == LocalDay(start.time, start.offset);
    if interval == "day" {
      end.SetDate(DateOf(day) + 1);
      assert end.time == AtLocalDay(start.time, start.offset, NextDay(day, interval));
    } else if interval == "week" {
      end.SetDate(DateOf(day) + 7);
      assert end.time == AtLocalDay(start.time, start.offset, NextDay(day, interval));
    } else if interval == "year" {
      end.SetFullYear(YearOf(day) + 1);
      assert end.time == AtLocalDay(start.time, start.offset, NextDay(day, interval));
    } else {
      end.SetMonth(MonthOf(day) + 1);
      assert end.time == AtLocalDay(start.time, start.offset, NextDay(day, interval));
    }
  }

  // The length in days of a period that starts in month m of year y.
  function PeriodFrom(y: int, m: int, interval: string): int
    requires 0 <= m < 12
  {
    if interval == "day" then 1
    else if interval == "week" then 7
    else if interval == "year" then (if m <= 1 then DaysInYear(y) else DaysInYear(y + 1))
    else DaysInMonth(y, m)
  }

  function PeriodDays(day: int, interval: string): int {
    PeriodFrom(YearOf(day), MonthOf(day), interval)
  }

  lemma NextMonthStarts(y: int, m: int, d: int)
    requires 0 <= m < 12
    ensures MakeDay(y, m + 1, d) == DayFromYear(y) + DaysBefore(y, m) + DaysInMonth(y, m) + d - 1
  {
    if m == 11 {
      MakeDayCarry(y, d);
      MonthsFillYear(y);
      YearLength(y);
    } else {
      MakeDayWithin(y, m + 1, d);
    }
  }

  // From March on, the days before a month differ between two years by what February differs.
  lemma {:induction false} DaysBeforeAcrossYears(y: int, z: int, m: int)
    requires 0 <= m <= 12
    ensures DaysBefore(z, m) - DaysBefore(y, m) == if m <= 1 then 0 else DaysInYear(z) - DaysInYear(y)
    decreases m
  {
    if m > 0 {
      DaysBeforeAcrossYears(y, z, m - 1);
    }
  }

  // The exact length of every interval, for every start date: one day; seven days; the length of
  // the start's own month, also for an unknown interval; or 365 days, 366 when the year from the
  // start on, the start included, holds a 29 February.
  lemma IntervalLength(start: int, offset: int, interval: string)
    ensures AddPlanInterval(start, offset, interval) - start
            == PeriodDays(LocalDay(start, offset), interval) * MS_PER_DAY
  {
    DaysToNext(LocalDay(start, offset), interval);
  }

  lemma DaysToNext(day: int, interval: string)
    ensures NextDay(day, interval) - day == PeriodDays(day, interval)
  {
    MakeDayOfFields(day);
    DaysFrom(YearOf(day), MonthOf(day), DateOf(day), interval);
  }

  lemma DaysFrom(y: int, m: int, d: int, interval: string)
    requires 0 <= m < 12
    ensures NextFrom(y, m, d, interval) - MakeDay(y, m, d) == PeriodFrom(y, m, interval)
  {
    MakeDayWithin(y, m, d);
    if interval == "day" {
      MakeDayWithin(y, m, d + 1);
    } else if interval == "week" {
      MakeDayWithin(y, m, d + 7);
    } else if interval == "year" {
      YearLater(y, m, d);
    } else {
      NextMonthStarts(y, m, d);
    }
  }

  lemma YearLater(y: int, m: int, d: int)
    requires 0 <= m < 12
    ensures MakeDay(y + 1, m, d) - MakeDay(y, m, d) == if m <= 1 then DaysInYear(y) else DaysInYear(y + 1)
  {
    MakeDayWithin(y, m, d);
    MakeDayWithin(y + 1, m, d);
    YearLength(y);
    DaysBeforeAcrossYears(y, y + 1, m);
  }

  // A period is never empty.
  lemma IntervalEndsLater(start: int, offset: int, interval: string)
    ensures AddPlanInterval(start, offset, interval) >= start + MS_PER_DAY
  {
    IntervalLength(start, offset, interval);
    assert PeriodDays(LocalDay(start, offset), interval) >= 1;
  }

  // The month after month m of year y.
  function FollowingMonth(y: int, m: int): (int, int) {
    if m == 11 then (y + 1, 0) else (y, m + 1)
  }

  lemma MonthEnd(day: int)
    ensures var next := FollowingMonth(YearOf(day), MonthOf(day));
            NextDay(day, "month") == MakeDay(next.0, next.1, DateOf(day))
  {
    MakeDayCarry(YearOf(day), DateOf(day));
  }

  // A date past the end of its month runs on into the month after it.
  lemma DateOverflows(y: int, m: int, d: int)
    requires 0 <= m < 12 && DaysInMonth(y, m) < d <= 31
    ensures m < 11 && MakeDay(y, m, d) == MakeDay(y, m + 1, d - DaysInMonth(y, m))
  {
    MakeDayWithin(y, m, d);
    MakeDayWithin(y, m + 1, d - DaysInMonth(y, m));
  }

  // Where a month lands: the same date of the next month when it has one, and otherwise as many
  // days into the month after it as the next month is short.
  lemma MonthLandsOn(day: int, y: int, m: int, d: int)
    requires d == DateOf(day) && (y, m) == FollowingMonth(YearOf(day), MonthOf(day))
    ensures var end := NextDay(day, "month");
            if d <= DaysInMonth(y, m) then YearOf(end) == y && MonthOf(end) == m && DateOf(end) == d
            else m < 11 && YearOf(end) == y && MonthOf(end) == m + 1 && DateOf(end) == d - DaysInMonth(y, m)
  {
    MonthEnd(day);
    if d <= DaysInMonth(y, m) {
      FieldsOfMadeDay(y, m, d);
    } else {
      DateOverflows(y, m, d);
      FieldsOfMadeDay(y, m + 1, d - DaysInMonth(y, m));
    }
  }

  // The end is not monotone in the start: in every common year a month from 31 January ends on
  // 3 March, but a month from 1 February already on 1 March.
  lemma MonthIsNotMonotone(y: int)
    requires !IsLeap(y)
    ensures MakeDay(y, 0, 31) < MakeDay(y, 1, 1)
    ensures NextDay(MakeDay(y, 0, 31), "month") == MakeDay(y, 2, 3)
    ensures NextDay(MakeDay(y, 1, 1), "month") == MakeDay(y, 2, 1)
    ensures MakeDay(y, 2, 3) > MakeDay(y, 2, 1)
  {
    FieldsOfMadeDay(y, 0, 31);
    FieldsOfMadeDay(y, 1, 1);
    MonthEnd(MakeDay(y, 0, 31));
    MonthEnd(MakeDay(y, 1, 1));
    MakeDayWithin(y, 0, 31);
    MakeDayWithin(y, 1, 1);
    MakeDayWithin(y, 1, 31);
    MakeDayWithin(y, 2, 1);
    MakeDayWithin(y, 2, 3);
    assert DaysBefore(y, 1) == 31 && DaysBefore(y, 2) == DaysBefore(y, 1) + 28;
  }

  // ---------- When the order of starts is kept ----------

  // The first day and the length of the month a day is in.
  function MonthStart(): int -> int {
    (day: int) => day - DateOf(day) + 1
  }

  function MonthLength(): int -> int {
    (day: int) => DaysInMonth(YearOf(day), MonthOf(day))
  }

  lemma FieldsWithin(day: int, y: int, m: int, d: int)
    requires 0 <= m < 12 && 1 <= d <= DaysInMonth(y, m) && day == DayFromYear(y) + DaysBefore(y, m) + d - 1
    ensures YearOf(day) == y && MonthOf(day) == m
  {
    DateWithinYear(y, m, d);
    YearIs(day, y);
    MonthFits(y, DayInYear(day), MonthOf(day), m);
  }

  lemma MonthIsBlock(day: int, other: int)
    ensures MonthStart()(day) <= day < MonthStart()(day) + MonthLength()(day)
    ensures MonthStart()(day) <= other < MonthStart()(day) + MonthLength()(day) ==>
              MonthStart()(other) == MonthStart()(day) && MonthLength()(other) == MonthLength()(day)
  {
    if MonthStart()(day) <= other < MonthStart()(day) + MonthLength()(day) {
      FieldsWithin(other, YearOf(day), MonthOf(day), other - MonthStart()(day) + 1);
    }
  }

  lemma MonthsAreBlocks()
    ensures AreBlocks(MonthStart(), MonthLength())
  {
    forall day
      ensures InBlock(MonthStart(), MonthLength(), day, day)
    {
      MonthIsBlock(day, day);
    }
    forall day, other | InBlock(MonthStart(), MonthLength(), day, other)
      ensures MonthStart()(other) == MonthStart()(day) && MonthLength()(other) == MonthLength()(day)
    {
      MonthIsBlock(day, other);
    }
  }

  // The length of the month after that of a day.
  function LengthAfter(day: int): int {
    var next := FollowingMonth(YearOf(day), MonthOf(day));
    DaysInMonth(next.0, next.1)
  }

  lemma FirstOfNext(y: int, m: int)
    requires 0 <= m < 12
    ensures var next := FollowingMonth(y, m);
            DayFromYear(next.0) + DaysBefore(next.0, next.1) == DayFromYear(y) + DaysBefore(y, m) + DaysInMonth(y, m)
  {
    if m == 11 {
      MonthsFillYear(y);
      YearLength(y);
    }
  }

  lemma FieldsOfNext(y: int, m: int, z: int, n: int, first: int)
    requires 0 <= m < 12 && (z, n) == FollowingMonth(y, m)
    requires first == DayFromYear(y) + DaysBefore(y, m) + DaysInMonth(y, m)
    ensures YearOf(first) == z && MonthOf(first) == n
  {
    FirstOfNext(y, m);
    FieldsWithin(first, z, n, 1);
  }

  lemma StartOfMonth(day: int, y: int, m: int)
    requires y == YearOf(day) && m == MonthOf(day)
    ensures MonthStart()(day) == DayFromYear(y) + DaysBefore(y, m) && MonthLength()(day) == DaysInMonth(y, m)
  {
  }

  lemma NextLength(day: int, first: int)
    requires first == MonthStart()(day) + MonthLength()(day)
    ensures MonthLength()(first) == LengthAfter(day)
  {
    var y, m := YearOf(day), MonthOf(day);
    var next := FollowingMonth(y, m);
    StartOfMonth(day, y, m);
    FieldsOfNext(y, m, next.0, next.1, first);
  }

  lemma MonthGoesOn(day: int)
    ensures NextDay(day, "month") == day + MonthLength()(day)
  {
    DaysToNext(day, "month");
  }

  lemma MonthKeepsOrder(day: int, later: int)
    requires day < later && DateOf(day) <= LengthAfter(day) + 1
    ensures NextDay(day, "month") <= NextDay(later, "month")
    ensures DateOf(day) <= LengthAfter(day) ==> NextDay(day, "month") < NextDay(later, "month")
  {
    var first := MonthStart()(day) + MonthLength()(day);
    MonthsAreBlocks();
    NextLength(day, first);
    EndsInOrder(MonthStart(), MonthLength(), day, later, first);
    MonthGoesOn(day);
    MonthGoesOn(later);
  }

  lemma ShortMonthBreaksOrder(day: int, first: int)
    requires first == MonthStart()(day) + MonthLength()(day) && DateOf(day) > LengthAfter(day) + 1
    ensures first > day && NextDay(day, "month") > NextDay(first, "month")
  {
    MonthIsBlock(day, day);
    NextLength(day, first);
    MonthGoesOn(day);
    MonthGoesOn(first);
  }

  function TimeInDay(time: int, offset: int): int {
    (time + offset) % MS_PER_DAY
  }

  // The end of a month from an instant, by day and time of day.
  lemma MonthEndOf(time: int, offset: int, day: int)
    requires day == LocalDay(time, offset)
    ensures time == day * MS_PER_DAY + TimeInDay(time, offset) - offset && 0 <= TimeInDay(time, offset) < MS_PER_DAY
    ensures AddPlanInterval(time, offset, "month")
            == NextDay(day, "month") * MS_PER_DAY + TimeInDay(time, offset) - offset
  {
  }

  lemma DayAndTime(day: int, timeInDay: int, offset: int)
    requires 0 <= timeInDay < MS_PER_DAY
    ensures LocalDay(day * MS_PER_DAY + timeInDay - offset, offset) == day
    ensures TimeInDay(day * MS_PER_DAY + timeInDay - offset, offset) == timeInDay
  {
  }

  lemma CompareTimes(day: int, timeInDay: int, other: int, otherTime: int)
    requires 0 <= timeInDay < MS_PER_DAY && 0 <= otherTime < MS_PER_DAY
    ensures day * MS_PER_DAY + timeInDay <= other * MS_PER_DAY + otherTime
       <==> day < other || (day == other && timeInDay <= otherTime)
  {
  }

  lemma MonthKeepsOrderOfTimes(start: int, later: int, offset: int, day: int)
    requires start < later && day == LocalDay(start, offset)
    requires DateOf(day) <= LengthAfter(day) || (DateOf(day) == LengthAfter(day) + 1 && TimeInDay(start, offset) == 0)
    ensures AddPlanInterval(start, offset, "month") <= AddPlanInterval(later, offset, "month")
  {
    var other, time, otherTime := LocalDay(later, offset), TimeInDay(start, offset), TimeInDay(later, offset);
    MonthEndOf(start, offset, day);
    MonthEndOf(later, offset, other);
    CompareTimes(day, time, other, otherTime);
    MonthKeepsOrderUpTo(day, other);
    CompareTimes(NextDay(day, "month"), time, NextDay(other, "month"), otherTime);
  }

  lemma MonthKeepsOrderUpTo(day: int, other: int)
    requires day <= other && DateOf(day) <= LengthAfter(day) + 1
    ensures NextDay(day, "month") <= NextDay(other, "month")
    ensures day < other && DateOf(day) <= LengthAfter(day) ==> NextDay(day, "month") < NextDay(other, "month")
  {
    if day < other {
      MonthKeepsOrder(day, other);
    }
  }

  // An instant on the first of the next month whose month ends sooner.
  lemma EarlierEnd(start: int, offset: int, day: int) returns (later: int)
    requires day == LocalDay(start, offset) && DateOf(day) > LengthAfter(day)
    requires DateOf(day) == LengthAfter(day) + 1 ==> TimeInDay(start, offset) > 0
    ensures later > start && AddPlanInterval(start, offset, "month") > AddPlanInterval(later, offset, "month")
  {
    var first := MonthStart()(day) + MonthLength()(day);
    later := first * MS_PER_DAY - offset;
    DayAndTime(first, 0, offset);
    MonthIsBlock(day, day);
    NextLength(day, first);
    MonthGoesOn(day);
    MonthGoesOn(first);
    MonthEndOf(start, offset, day);
    MonthEndOf(later, offset, first);
  }

  // A month from an instant ends no later than a month from every later instant exactly when the
  // next month has the date, or is one day short of it and the instant is midnight. A caller can
  // read this off the start.
  lemma MonthKeepsOrderIff(start: int, offset: int, day: int)
    requires day == LocalDay(start, offset)
    ensures (forall later :: later > start ==>
             AddPlanInterval(start, offset, "month") <= AddPlanInterval(later, offset, "month"))
       <==> DateOf(day) <= LengthAfter(day) || (DateOf(day) == LengthAfter(day) + 1 && TimeInDay(start, offset) == 0)
  {
    if DateOf(day) <= LengthAfter(day) || (DateOf(day) == LengthAfter(day) + 1 && TimeInDay(start, offset) == 0) {
      forall later | later > start
        ensures AddPlanInterval(start, offset, "month") <= AddPlanInterval(later, offset, "month")
      {
        MonthKeepsOrderOfTimes(start, later, offset, day);
      }
    } else {
      var later := EarlierEnd(start, offset, day);
    }
  }

  // The same of whole days: the next month is at most one day short of the date.
  lemma MonthKeepsOrderOfDaysIff(day: int)
    ensures (forall later :: later > day ==> NextDay(day, "month") <= NextDay(later, "month"))
       <==> DateOf(day) <= LengthAfter(day) + 1
  {
    if DateOf(day) <= LengthAfter(day) + 1 {
      forall later | later > day
        ensures NextDay(day, "month") <= NextDay(later, "month")
      {
        MonthKeepsOrder(day, later);
      }
    } else {
      ShortMonthBreaksOrder(day, MonthStart()(day) + MonthLength()(day));
    }
  }

  // Days and weeks keep the order of starting days strictly, years keep it.
  lemma OtherIntervalsKeepOrder(day: int, later: int, interval: string)
    requires day < later && (interval == "day" || interval == "week" || interval == "year")
    ensures NextDay(day, interval) <= NextDay(later, interval)
    ensures interval != "year" ==> NextDay(day, interval) < NextDay(later, interval)
  {
    DaysToNext(day, interval);
    DaysToNext(later, interval);
  }
}
