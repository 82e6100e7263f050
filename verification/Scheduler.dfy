/**
 The background scheduler: once per tick it attempts every enabled job that is due, stamps the ones
 that succeed with the tick's time and leaves the ones that fail due.
 */
module Scheduler {
  import opened Prelude

  // Job intervals are in seconds.
  const SECOND: Time := 1000000

  predicate Due(interval: int, lastRun: Option<Time>, enabled: bool, now: Time) {
    enabled && (lastRun.None? || now - lastRun.value >= interval * SECOND)
  }

  class ScheduledJob {
    const name: string
    const intervalSeconds: int
    var lastRun: Option<Time>
    var enabled: bool

    constructor (name: string, intervalSeconds: int)
      ensures this.name == name && this.intervalSeconds == intervalSeconds && lastRun == None && enabled
    {
      this.name, this.intervalSeconds := name, intervalSeconds;
      lastRun, enabled := None, true;
    }

    predicate IsDue(now: Time)
      reads this
    {
      Due(intervalSeconds, lastRun, enabled, now)
    }
  }

  class BackgroundScheduler {
    var jobs: seq<ScheduledJob>

    constructor ()
      ensures jobs == []
    {
      jobs := [];
    }

    ghost predicate Valid()
      reads this
    {
      forall i, j | 0 <= i < j < |jobs| :: jobs[i] != jobs[j]
    }

    method Register(name: string, intervalSeconds: int)
      requires Valid()
      modifies this`jobs
      ensures Valid() && |jobs| == |old(jobs)| + 1 && jobs[..|old(jobs)|] == old(jobs)
      ensures fresh(jobs[|old(jobs)|]) && jobs[|old(jobs)|].name == name
      ensures jobs[|old(jobs)|].intervalSeconds == intervalSeconds
      ensures jobs[|old(jobs)|].lastRun == None && jobs[|old(jobs)|].enabled
    {
      var job := new ScheduledJob(name, intervalSeconds);
      jobs := jobs + [job];
    }

    /**
     One turn of the loop. `succeeds` says how each job would end; the result is the jobs that were
     attempted, in order: exactly the due ones, each once, whatever became of the others.
     */
    method Tick(now: Time, succeeds: seq<bool>) returns (attempted: seq<nat>)
      requires Valid() && |succeeds| == |jobs|
      modifies (set job | job in jobs)`lastRun
      ensures forall i, j | 0 <= i < j < |attempted| :: attempted[i] < attempted[j]
      ensures forall i: nat :: i in attempted <==> i < |jobs| && old(jobs[i].IsDue(now))
      ensures forall i | 0 <= i < |jobs| ::
        jobs[i].lastRun == After(jobs[i].intervalSeconds, old(jobs[i].lastRun), TickOf(now, jobs[i].enabled, succeeds[i]))
    {
      attempted := [];
      for i := 0 to |jobs|
        invariant forall j | 0 <= j < |attempted| :: attempted[j] < i
        invariant forall j, k | 0 <= j < k < |attempted| :: attempted[j] < attempted[k]
        invariant forall j: nat :: j in attempted <==> j < i && old(jobs[j].IsDue(now))
        invariant forall j | 0 <= j < i ::
          jobs[j].lastRun == if old(jobs[j].IsDue(now)) && succeeds[j] then Some(now) else old(jobs[j].lastRun)
        invariant forall j | i <= j < |jobs| :: jobs[j].lastRun == old(jobs[j].lastRun)
      {
        var job := jobs[i];
        if !job.enabled {
          continue;
        }
        if job.lastRun.None? || now - job.lastRun.value >= job.intervalSeconds * SECOND {
          attempted := attempted + [i];
          if succeeds[i] {
            job.lastRun := Some(now);
          }
        }
      }
    }
  }

  // ---------------------------------------------------------------------------------------
  // One job over many ticks
  // ---------------------------------------------------------------------------------------

  datatype TickOf = TickOf(at: Time, enabled: bool, succeeds: bool)

  predicate Stamps(interval: int, lastRun: Option<Time>, tick: TickOf) {
    Due(interval, lastRun, tick.enabled, tick.at) && tick.succeeds
  }

  function After(interval: int, lastRun: Option<Time>, tick: TickOf): Option<Time> {
    if Stamps(interval, lastRun, tick) then Some(tick.at) else lastRun
  }

  /** The times at which the job ran successfully. */
  function StampsOf(interval: int, lastRun: Option<Time>, ticks: seq<TickOf>): seq<Time>
    decreases |ticks|
  {
    if ticks == [] then []
    else
      var rest := StampsOf(interval, After(interval, lastRun, ticks[0]), ticks[1..]);
      if Stamps(interval, lastRun, ticks[0]) then [ticks[0].at] + rest else rest
  }

  /** Successive stamps, that of a run before these ticks included, are at least the interval apart. */
  lemma {:induction false} StampsAreSpaced(interval: int, lastRun: Option<Time>, ticks: seq<TickOf>)
    ensures
      var stamps := StampsOf(interval, lastRun, ticks);
      && (forall i | 0 <= i < |stamps| - 1 :: stamps[i + 1] - stamps[i] >= interval * SECOND)
      && (lastRun.Some? && stamps != [] ==> stamps[0] - lastRun.value >= interval * SECOND)
    decreases |ticks|
  {
    if ticks != [] {
      StampsAreSpaced(interval, After(interval, lastRun, ticks[0]), ticks[1..]);
    }
  }

  /** A job that failed is due again at the next tick, as long as it is enabled and the clock does not go back. */
  lemma FailedJobIsRetried(interval: int, lastRun: Option<Time>, tick: TickOf, next: TickOf)
    requires Due(interval, lastRun, tick.enabled, tick.at) && !tick.succeeds
    requires next.at >= tick.at && next.enabled
    ensures Due(interval, After(interval, lastRun, tick), next.enabled, next.at)
  {
  }

  /** When a job is due: enabled, and never run or run at least its seconds ago. */
  lemma DueExactly(interval: int, lastRun: Option<Time>, enabled: bool, now: Time)
    ensures Due(interval, lastRun, enabled, now) <==>
      enabled && (lastRun == None || now >= lastRun.value + interval * 1000000)
  {
  }

  /** A disabled job is never run, and a job that always fails is never stamped. */
  lemma {:induction false} NeverStamped(interval: int, lastRun: Option<Time>, ticks: seq<TickOf>)
    requires forall i | 0 <= i < |ticks| :: !ticks[i].enabled || !ticks[i].succeeds
    ensures StampsOf(interval, lastRun, ticks) == []
    decreases |ticks|
  {
    if ticks != [] {
      NeverStamped(interval, After(interval, lastRun, ticks[0]), ticks[1..]);
    }
  }

  predicate GapsAtMost(prev: Time, ticks: seq<TickOf>, g: Time)
    decreases |ticks|
  {
    ticks != [] ==> ticks[0].at - prev <= g && GapsAtMost(ticks[0].at, ticks[1..], g)
  }

  function LastOf(lastRun: Time, stamps: seq<Time>): Time {
    if stamps == [] then lastRun else stamps[|stamps| - 1]
  }

  /** Each stamp comes less than `bound` after the one before it, the first after `prev`. */
  predicate Close(prev: Time, stamps: seq<Time>, bound: Time)
    decreases |stamps|
  {
    stamps != [] ==> stamps[0] - prev < bound && Close(stamps[0], stamps[1..], bound)
  }

  lemma {:induction false} CloseMeans(prev: Time, stamps: seq<Time>, bound: Time, i: nat)
    requires Close(prev, stamps, bound) && i + 1 < |stamps|
    ensures stamps[i + 1] - stamps[i] < bound
    decreases |stamps|
  {
    if i > 0 {
      CloseMeans(stamps[0], stamps[1..], bound, i - 1);
    } else {
      assert stamps[1..][0] == stamps[1];
    }
  }

  // `lastRun` is younger than an interval at the previous tick.
  lemma {:induction false} NeverLate(interval: int, lastRun: Time, prev: Time, ticks: seq<TickOf>, g: Time)
    requires interval > 0 && prev - lastRun < interval * SECOND && GapsAtMost(prev, ticks, g)
    requires forall i | 0 <= i < |ticks| :: ticks[i].enabled && ticks[i].succeeds
    ensures Close(lastRun, StampsOf(interval, Some(lastRun), ticks), interval * SECOND + g)
    ensures ticks != [] ==>
      ticks[|ticks| - 1].at - LastOf(lastRun, StampsOf(interval, Some(lastRun), ticks)) < interval * SECOND
    decreases |ticks|
  {
    if ticks != [] {
      var tick := ticks[0];
      if Stamps(interval, Some(lastRun), tick) {
        NeverLate(interval, tick.at, tick.at, ticks[1..], g);
        var rest := StampsOf(interval, Some(tick.at), ticks[1..]);
        assert ([tick.at] + rest)[1..] == rest;
      } else {
        NeverLate(interval, lastRun, tick.at, ticks[1..], g);
      }
    }
  }

  /**
   With ticks at most `g` apart, an enabled job that never fails runs at its first tick, its stamps
   are less than interval + g apart, and at every tick the last stamp is younger than the interval.
   */
  lemma {:induction false} PunctualJob(interval: int, ticks: seq<TickOf>, g: Time)
    requires interval > 0 && g >= 0 && ticks != [] && GapsAtMost(ticks[0].at, ticks[1..], g)
    requires forall i | 0 <= i < |ticks| :: ticks[i].enabled && ticks[i].succeeds
    ensures
      var stamps := StampsOf(interval, None, ticks);
      && stamps != [] && stamps[0] == ticks[0].at
      && (forall i | 0 <= i < |stamps| - 1 ::
            interval * SECOND <= stamps[i + 1] - stamps[i] < interval * SECOND + g)
      && ticks[|ticks| - 1].at - stamps[|stamps| - 1] < interval * SECOND
  {
    var first := ticks[0].at;
    StampsAreSpaced(interval, None, ticks);
    NeverLate(interval, first, first, ticks[1..], g);
    var stamps := StampsOf(interval, None, ticks);
    assert stamps[1..] == StampsOf(interval, Some(first), ticks[1..]);
    assert Close(first - 1, stamps, interval * SECOND + g);
    forall i | 0 <= i < |stamps| - 1 ensures stamps[i + 1] - stamps[i] < interval * SECOND + g {
      CloseMeans(first - 1, stamps, interval * SECOND + g, i);
    }
  }
}
