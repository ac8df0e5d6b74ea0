// The sprint burndown (src/agile/agile.service.ts, getSprintBurndown and daysBetween): a loop
// over at most 180 UTC days, and the work that is open on each.
module Burndown {
  import opened Seqs
  import opened Calendar

  const MAX_DAYS: nat := 180

  datatype Work = Work(storyPoints: Option<int>, done: bool, completedAt: Option<int>)

  datatype Point = Point(date: int, remainingPoints: int, remainingTasks: nat)

  // ---------- The days ----------

  function UtcDay(time: int): int {
    LocalDay(time, 0)
  }

  // The UTC day of an instant is the one that holds it.
  lemma UtcDayHoldsTime(time: int)
    ensures UtcDay(time) * 86_400_000 <= time < (UtcDay(time) + 1) * 86_400_000
  {
  }

  // Midnight UTC of each of n days from the first.
  function DaysFrom(first: int, n: nat): seq<int> {
    seq(n, i => (first + i) * MS_PER_DAY)
  }

  function DaySpan(start: int, end: int, limit: nat): nat {
    if UtcDay(end) < UtcDay(start) then 0 else Min(limit, UtcDay(end) - UtcDay(start) + 1)
  }

  // The days of a sprint; one entry for now when there is none.
  function Days(start: int, end: int, now: int, limit: nat): seq<int> {
    if DaySpan(start, end, limit) == 0 then [now] else DaysFrom(UtcDay(start), DaySpan(start, end, limit))
  }

  lemma NextMidnight(day: int)
    ensures MakeDay(YearOf(day), MonthOf(day), DateOf(day) + 1) == day + 1
  {
    MakeDayOfFields(day);
    MakeDayWithin(YearOf(day), MonthOf(day), DateOf(day));
    MakeDayWithin(YearOf(day), MonthOf(day), DateOf(day) + 1);
  }

  // new Date(Date.UTC(year, month, date)) of an instant.
  method Midnight(time: int) returns (d: Date)
    ensures fresh(d) && d.offset == 0 && d.time == UtcDay(time) * MS_PER_DAY
  {
    var day := UtcDay(time);
    MakeDayOfFields(day);
    d := new Date(MakeDay(YearOf(day), MonthOf(day), DateOf(day)) * MS_PER_DAY, 0);
  }

  method DaysBetween(start: int, end: int, now: int, limit: nat) returns (days: seq<int>)
    ensures days == Days(start, end, now, limit)
  {
    days := [];
    var cursor := Midnight(start);
    var last := Midnight(end);
    while cursor.time <= last.time && |days| < limit
      invariant fresh(cursor) && fresh(last) && cursor != last && cursor.offset == 0
      invariant last.time == UtcDay(end) * MS_PER_DAY
      invariant |days| <= DaySpan(start, end, limit)
      invariant days == DaysFrom(UtcDay(start), |days|)
      invariant cursor.time == (UtcDay(start) + |days|) * MS_PER_DAY
      decreases limit - |days|
    {
      days := days + [cursor.time];
      NextMidnight(cursor.Day());
      cursor.SetDate(DateOf(cursor.Day()) + 1);
    }
    if |days| == 0 {
      days := [now];
    }
  }

  // The day loop yields between 1 and 180 days, in steps of one day, from the first UTC day on,
  // and all of them up to the last unless the limit cuts them off.
  lemma DaysAreConsecutive(start: int, end: int, now: int)
    ensures var days := Days(start, end, now, MAX_DAYS);
            1 <= |days| <= MAX_DAYS && forall i :: 0 <= i < |days| - 1 ==> days[i + 1] == days[i] + MS_PER_DAY
    ensures UtcDay(start) <= UtcDay(end) ==> Days(start, end, now, MAX_DAYS)[0] == UtcDay(start) * MS_PER_DAY
    ensures var days := Days(start, end, now, MAX_DAYS);
            UtcDay(start) <= UtcDay(end) && |days| < MAX_DAYS ==> days[|days| - 1] == UtcDay(end) * MS_PER_DAY
  {
  }

  // ---------- The series ----------

  function PointsOf(): Work -> int {
    (w: Work) => w.storyPoints.GetOr(1)
  }

  function OpenOn(day: int): Work -> bool {
    (w: Work) => w.completedAt.None? || w.completedAt.value > day
  }

  function CompletedBy(day: int): Work -> bool {
    (w: Work) => w.completedAt.Some? && w.completedAt.value <= day
  }

  function Remaining(work: seq<Work>, day: int): Point {
    var open := Filter(work, OpenOn(day));
    Point(day, Sum(open, PointsOf()), |open|)
  }

  function At(work: seq<Work>): int -> Point {
    day => Remaining(work, day)
  }

  function Series(work: seq<Work>, days: seq<int>): seq<Point> {
    Map(days, At(work))
  }

  // Each entry is the total less what was completed by that day.
  lemma {:induction false} RemainingIsTotalLessCompleted(work: seq<Work>, day: int)
    ensures Remaining(work, day).remainingPoints
            == Sum(work, PointsOf()) - Sum(Filter(work, CompletedBy(day)), PointsOf())
    ensures Remaining(work, day).remainingTasks == |work| - |Filter(work, CompletedBy(day))|
  {
    SumSplit(work, OpenOn(day), CompletedBy(day), PointsOf());
    CountSplit(work, OpenOn(day), CompletedBy(day));
  }

  lemma {:induction false} CountSplit<T>(s: seq<T>, p: T -> bool, q: T -> bool)
    requires forall x :: x in s ==> q(x) == !p(x)
    ensures |s| == |Filter(s, p)| + |Filter(s, q)|
  {
    if s != [] {
      CountSplit(s[1..], p, q);
    }
  }

  // What is open later was open before.
  lemma {:induction false} OpenShrinks(work: seq<Work>, day: int, later: int)
    requires day <= later && forall w :: w in work ==> PointsOf()(w) >= 0
    ensures Remaining(work, later).remainingPoints <= Remaining(work, day).remainingPoints
    ensures Remaining(work, later).remainingTasks <= Remaining(work, day).remainingTasks
  {
    if work != [] {
      var w, rest := work[0], work[1..];
      assert work == [w] + rest;
      OpenShrinks(rest, day, later);
      FilterCons(w, rest, OpenOn(day));
      FilterCons(w, rest, OpenOn(later));
      SumConcat([w], Filter(rest, OpenOn(day)), PointsOf());
      SumConcat([w], Filter(rest, OpenOn(later)), PointsOf());
    }
  }

  lemma RemainingIsBounded(work: seq<Work>, day: int)
    requires forall w :: w in work ==> PointsOf()(w) >= 0
    ensures 0 <= Remaining(work, day).remainingPoints <= Sum(work, PointsOf())
    ensures 0 <= Remaining(work, day).remainingTasks <= |work|
  {
    RemainingIsTotalLessCompleted(work, day);
    forall w | w in Filter(work, OpenOn(day)) || w in Filter(work, CompletedBy(day))
      ensures w in work
    {
      FilterMember(work, OpenOn(day), w);
      FilterMember(work, CompletedBy(day), w);
    }
    SumNonNegative(Filter(work, OpenOn(day)), PointsOf());
    SumNonNegative(Filter(work, CompletedBy(day)), PointsOf());
  }

  // The series of a sprint never rises, and stays between nothing and everything.
  lemma SeriesBurnsDown(work: seq<Work>, start: int, end: int, now: int, i: nat, j: nat)
    requires forall w :: w in work ==> PointsOf()(w) >= 0
    requires i <= j < |Days(start, end, now, MAX_DAYS)|
    ensures var series := Series(work, Days(start, end, now, MAX_DAYS));
            && series[j].remainingPoints <= series[i].remainingPoints
            && series[j].remainingTasks <= series[i].remainingTasks
            && 0 <= series[i].remainingPoints <= Sum(work, PointsOf()) && series[i].remainingTasks <= |work|
  {
    var days := Days(start, end, now, MAX_DAYS);
    assert days[i] <= days[j];
    OpenShrinks(work, days[i], days[j]);
    RemainingIsBounded(work, days[i]);
  }

  // ---------- What an entry says ----------

  // A task is still to do on a day when it is not completed, or completed after it; it weighs its
  // points, or one.
  function Weight(w: Work, day: int): int {
    if w.completedAt.Some? && w.completedAt.value <= day then 0
    else if w.storyPoints.Some? then w.storyPoints.value else 1
  }

  function Weights(work: seq<Work>, day: int): int {
    if work == [] then 0 else Weight(work[0], day) + Weights(work[1..], day)
  }

  function OpenTasks(work: seq<Work>, day: int): nat {
    if work == [] then 0
    else (if work[0].completedAt.Some? && work[0].completedAt.value <= day then 0 else 1) + OpenTasks(work[1..], day)
  }

  // Each entry of the series bears its day and weighs what is still to do on it.
  lemma {:induction false} EntryWeighsOpenWork(work: seq<Work>, day: int)
    ensures Remaining(work, day) == Point(day, Weights(work, day), OpenTasks(work, day))
  {
    if work != [] {
      EntryWeighsOpenWork(work[1..], day);
      FilterCons(work[0], work[1..], OpenOn(day));
      assert work == [work[0]] + work[1..];
      SumConcat([work[0]], Filter(work[1..], OpenOn(day)), PointsOf());
    }
  }

  lemma SeriesWeighsOpenWork(work: seq<Work>, days: seq<int>, i: nat)
    requires i < |days|
    ensures |Series(work, days)| == |days|
    ensures Series(work, days)[i] == Point(days[i], Weights(work, days[i]), OpenTasks(work, days[i]))
  {
    EntryWeighsOpenWork(work, days[i]);
  }
}
