/**
 The daily reconciliation as it is scheduled: each run reconciles the day before the midnight it finds
 behind it, and runs are an interval of one day and a little more apart. Which days are reconciled,
 and which never are.
 */
module DailyJob {
  import opened Prelude
  import opened Scheduler
  import opened Reconciliation
  import opened RangeSplitting

  // The interval the job is registered with, in seconds.
  const INTERVAL := 86400

  /** The day a time falls on, counted from the epoch. */
  function DayOf(t: Time): int {
    t / 86400000000
  }

  function TimeOfDay(t: Time): int {
    t % 86400000000
  }

  function MidnightOf(day: int): Time {
    day * 86400000000
  }

  /** The range run_daily_reconciliation computes from the time it runs at. */
  function WindowOf(now: Time): (Time, Time) {
    var end := now - TimeOfDay(now);
    (end - 86400000000, end)
  }

  /** It is one whole calendar day, the one before the run's. */
  lemma WindowIsYesterday(now: Time)
    ensures WindowOf(now) == (MidnightOf(DayOf(now) - 1), MidnightOf(DayOf(now)))
    ensures WindowOf(now).1 <= now < WindowOf(now).1 + 86400000000
  {
  }

  // ---------------------------------------------------------------------------------------
  // Two successive runs
  // ---------------------------------------------------------------------------------------

  /**
   Runs at least a day apart never reconcile a day twice. With ticks at most `g` apart they are less
   than a day and `g` apart; then the two windows are adjacent if and only if the time of day plus
   the delay stays within the day, and otherwise exactly one day lies between them, never reconciled.
   */
  lemma SuccessiveWindows(a: Time, b: Time, g: Time)
    requires 86400000000 <= b - a < 86400000000 + g && 0 < g <= 86400000000
    ensures
      var adjacent := TimeOfDay(a) + (b - a - 86400000000) < 86400000000;
      && (adjacent <==> WindowOf(b).0 == WindowOf(a).1)
      && (!adjacent <==> WindowOf(b).0 == WindowOf(a).1 + 86400000000)
  {
  }

  /** The same of the job's own stamps. */
  lemma {:induction false} StampedWindows(ticks: seq<TickOf>, g: Time, i: nat)
    requires 0 < g <= 86400000000 && ticks != [] && GapsAtMost(ticks[0].at, ticks[1..], g)
    requires forall k | 0 <= k < |ticks| :: ticks[k].enabled && ticks[k].succeeds
    requires i + 1 < |StampsOf(INTERVAL, None, ticks)|
    ensures
      var stamps := StampsOf(INTERVAL, None, ticks);
      var adjacent := TimeOfDay(stamps[i]) + (stamps[i + 1] - stamps[i] - 86400000000) < 86400000000;
      && (adjacent <==> WindowOf(stamps[i + 1]).0 == WindowOf(stamps[i]).1)
      && (!adjacent <==> WindowOf(stamps[i + 1]).0 == WindowOf(stamps[i]).1 + 86400000000)
  {
    PunctualJob(INTERVAL, ticks, g);
    var stamps := StampsOf(INTERVAL, None, ticks);
    SuccessiveWindows(stamps[i], stamps[i + 1], g);
  }

  // ---------------------------------------------------------------------------------------
  // All runs
  // ---------------------------------------------------------------------------------------

  ghost predicate Spaced(stamps: seq<Time>) {
    forall i | 0 <= i < |stamps| - 1 :: stamps[i + 1] - stamps[i] >= 86400000000
  }

  /** Whatever fails or is delayed, the stamps of the job are spaced. */
  lemma {:induction false} JobIsSpaced(ticks: seq<TickOf>)
    ensures Spaced(StampsOf(INTERVAL, None, ticks))
  {
    StampsAreSpaced(INTERVAL, None, ticks);
  }

  /** The days the runs reconcile, one after the other. */
  function DaysOf(stamps: seq<Time>): (days: seq<int>)
    ensures |days| == |stamps|
  {
    seq(|stamps|, i requires 0 <= i < |stamps| => DayOf(stamps[i]) - 1)
  }

  function Days(low: int, high: int): (r: set<int>)
    ensures forall d :: d in r <==> low <= d <= high
    ensures |r| == if low <= high then high - low + 1 else 0
    decreases high - low
  {
    if high < low then {}
    else if high == low then {low}
    else Days(low, high - 1) + {high}
  }

  /** The days between the first and the last that are not among them. */
  function Lost(days: seq<int>): set<int>
    requires days != []
  {
    Days(days[0], days[|days| - 1]) - set d | d in days
  }

  ghost predicate Increasing(days: seq<int>) {
    forall i | 0 <= i < |days| - 1 :: days[i] < days[i + 1]
  }

  lemma {:induction false} SpacedIsIncreasing(stamps: seq<Time>)
    requires Spaced(stamps)
    ensures Increasing(DaysOf(stamps))
  {
    var days := DaysOf(stamps);
    forall i | 0 <= i < |days| - 1 ensures days[i] < days[i + 1] {
      assert stamps[i + 1] - stamps[i] >= 86400000000;
    }
  }

  lemma {:induction false} IncreasingBy(days: seq<int>, i: nat, j: nat)
    requires Increasing(days) && i <= j < |days|
    ensures days[j] - days[i] >= j - i
  {
    if i < j {
      IncreasingBy(days, i, j - 1);
      assert days[j - 1] < days[j - 1 + 1];
    }
  }

  lemma {:induction false} IncreasingCount(days: seq<int>)
    requires Increasing(days)
    ensures |set d | d in days| == |days|
  {
    if days == [] {
      assert (set d | d in days) == {};
    } else {
      var front, last := days[..|days| - 1], |days| - 1;
      IncreasingCount(front);
      forall i | 0 <= i < |front| ensures front[i] != days[last] {
        IncreasingBy(days, i, last);
      }
      assert days == front + [days[last]];
      assert (set d | d in days) == (set d | d in front) + {days[last]};
    }
  }

  /** No day is reconciled twice; the rest of the days between the first and the last is lost. */
  lemma {:induction false} LostCount(days: seq<int>)
    requires days != [] && Increasing(days)
    ensures |Lost(days)| == days[|days| - 1] - days[0] + 1 - |days|
  {
    var last, reconciled := |days| - 1, set d | d in days;
    IncreasingBy(days, 0, last);
    IncreasingCount(days);
    forall d | d in reconciled ensures d in Days(days[0], days[last]) {
      var i :| 0 <= i < |days| && days[i] == d;
      IncreasingBy(days, 0, i);
      IncreasingBy(days, i, last);
    }
    assert Days(days[0], days[last]) == Lost(days) + reconciled;
  }

  lemma {:induction false} NoneLostIsDayByDay(days: seq<int>, i: nat)
    requires days != [] && Increasing(days) && Lost(days) == {} && i < |days|
    ensures days[i] == days[0] + i
  {
    LostCount(days);
    IncreasingBy(days, 0, i);
    IncreasingBy(days, i, |days| - 1);
  }

  /** How far the runs have slipped behind one run a day. */
  function Drift(stamps: seq<Time>): Time
    requires stamps != []
  {
    stamps[|stamps| - 1] - stamps[0] - (|stamps| - 1) * 86400000000
  }

  lemma DriftInDays(first: Time, last: Time, n: nat)
    ensures DayOf(last) - DayOf(first) == n + (TimeOfDay(first) + (last - first - n * 86400000000)) / 86400000000
  {
  }

  /**
   How many days the job never reconciles, for runs at least a day apart: the whole days in the first
   run's time of day plus the drift. None is lost if and only if that stays within one day.
   */
  lemma {:induction false} LostDays(stamps: seq<Time>)
    requires stamps != [] && Spaced(stamps)
    ensures |Lost(DaysOf(stamps))| == (TimeOfDay(stamps[0]) + Drift(stamps)) / 86400000000
    ensures Lost(DaysOf(stamps)) == {} <==> TimeOfDay(stamps[0]) + Drift(stamps) < 86400000000
  {
    SpacedIsIncreasing(stamps);
    LostCount(DaysOf(stamps));
    DriftInDays(stamps[0], stamps[|stamps| - 1], |stamps| - 1);
    assert |Lost(DaysOf(stamps))| == 0 <==> Lost(DaysOf(stamps)) == {};
  }

  // ---------------------------------------------------------------------------------------
  // What the runs report together
  // ---------------------------------------------------------------------------------------

  /** What `report` says of the windows of all the runs, taken together. */
  ghost function Reported(report: (Time, Time) -> multiset<Discrepancy>, stamps: seq<Time>): multiset<Discrepancy> {
    if stamps == [] then multiset{}
    else
      var (start, end) := WindowOf(stamps[|stamps| - 1]);
      Reported(report, stamps[..|stamps| - 1]) + report(start, end)
  }

  lemma WindowDaysLater(first: Time, now: Time, n: nat)
    requires DayOf(now) == DayOf(first) + n
    ensures WindowOf(now) == (Midnight(WindowOf(first).0, n), Midnight(WindowOf(first).0, n + 1))
  {
    WindowIsYesterday(first);
    WindowIsYesterday(now);
  }

  lemma {:induction false} ReportedIsDaily(report: (Time, Time) -> multiset<Discrepancy>, stamps: seq<Time>, start: Time)
    requires forall i: nat | i < |stamps| :: WindowOf(stamps[i]) == (Midnight(start, i), Midnight(start, i + 1))
    ensures Reported(report, stamps) == Daily(report, start, |stamps|)
  {
    if stamps != [] {
      var last := |stamps| - 1;
      ReportedIsDaily(report, stamps[..last], start);
      assert WindowOf(stamps[last]) == (Midnight(start, last), Midnight(start, last + 1));
    }
  }

  /**
   When no day is lost, the runs together report what one run from the first window's start to the
   last one's end would if and only if no id has its two times on opposite sides of a midnight.
   */
  lemma {:induction false} JobTilesTime(rows: seq<Row>, intents: seq<Intent>, stamps: seq<Time>)
    requires ProperRows(rows) && ProperList(intents)
    requires stamps != [] && Spaced(stamps) && Lost(DaysOf(stamps)) == {}
    ensures
      var start, end := WindowOf(stamps[0]).0, WindowOf(stamps[|stamps| - 1]).1;
      Reported(ReportOf(rows, intents), stamps) == ReportOf(rows, intents)(start, end) <==>
        NoStraddledMidnight(rows, intents, start, |stamps|)
  {
    var start := WindowOf(stamps[0]).0;
    SpacedIsIncreasing(stamps);
    forall i: nat | i < |stamps| ensures WindowOf(stamps[i]) == (Midnight(start, i), Midnight(start, i + 1)) {
      NoneLostIsDayByDay(DaysOf(stamps), i);
      WindowDaysLater(stamps[0], stamps[i], i);
    }
    ReportedIsDaily(ReportOf(rows, intents), stamps, start);
    DailyRunsTileTime(rows, intents, start, |stamps|);
  }

  /**
   A run at 23:59:50 and the next, by a tick that comes 20 seconds late, at 00:00:10 two dates on: the
   day of the first run is never reconciled.
   */
  lemma {:induction false} LateRunLosesADay() returns (ticks: seq<TickOf>)
    ensures
      var a, b := 86390000000, 172810000000;
      && StampsOf(INTERVAL, None, ticks) == [a, b]
      && WindowOf(a) == (MidnightOf(-1), MidnightOf(0)) && WindowOf(b) == (MidnightOf(1), MidnightOf(2))
      && Lost(DaysOf([a, b])) == {0}
  {
    var a, b := 86390000000, 172810000000;
    var first, early, late := TickOf(a, true, true), TickOf(172780000000, true, true), TickOf(b, true, true);
    ticks := [first, early, late];
    assert ticks[1..] == [early, late] && [early, late][1..] == [late] && [late][1..] == [];
    assert StampsOf(INTERVAL, Some(a), [late]) == [b];
    assert StampsOf(INTERVAL, Some(a), [early, late]) == [b];
    assert DayOf(a) == 0 && DayOf(b) == 2;
    assert DaysOf([a, b]) == [-1, 1];
    assert (set d | d in [-1, 1]) == {-1, 1};
    assert Days(-1, 1) == {-1, 0, 1};
  }
}
