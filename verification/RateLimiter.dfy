/**
 The in-memory sliding-window rate limiter. Its log forgets, per key and on access only; against
 the full history of calls it nevertheless decides as if it forgot nothing.
 */
module RateLimiter {
  import opened Prelude

  // One call of is_rate_limited: every call is logged, admitted or not.
  datatype Call = Call(key: string, time: real, limit: int)

  /** The times after `cutoff`. */
  function Prune(times: seq<real>, cutoff: real): (r: seq<real>) {
    if times == [] then []
    else
      var front, t := Prune(times[..|times| - 1], cutoff), times[|times| - 1];
      if t > cutoff then front + [t] else front
  }

  /** When the key was called, according to the full history. */
  function TimesOf(history: seq<Call>, key: string): seq<real> {
    if history == [] then []
    else
      var front, c := TimesOf(history[..|history| - 1], key), history[|history| - 1];
      if c.key == key then front + [c.time] else front
  }

  ghost predicate Chronological(history: seq<Call>) {
    forall i, j | 0 <= i < j < |history| :: history[i].time <= history[j].time
  }

  lemma {:induction false} PruneTwice(times: seq<real>, early: real, late: real)
    requires early <= late
    ensures Prune(Prune(times, early), late) == Prune(times, late)
  {
    if times != [] {
      PruneTwice(times[..|times| - 1], early, late);
      var front := Prune(times[..|times| - 1], early);
      assert (front + [times[|times| - 1]])[..|front|] == front;
    }
  }

  lemma PruneAppend(times: seq<real>, t: real, cutoff: real)
    ensures Prune(times + [t], cutoff) == Prune(times, cutoff) + if t > cutoff then [t] else []
  {
    assert (times + [t])[..|times|] == times;
  }

  lemma TimesOfAppend(history: seq<Call>, c: Call, key: string)
    ensures TimesOf(history + [c], key) == TimesOf(history, key) + if c.key == key then [c.time] else []
  {
    assert (history + [c])[..|history|] == history;
  }

  /** int(x) */
  function Truncate(x: real): int {
    if x >= 0.0 then x.Floor else -((-x).Floor)
  }

  /** Two lists that no cutoff from `since` on can tell apart. */
  predicate Agree(log: seq<real>, times: seq<real>, since: real) {
    Prune(log, since) == Prune(times, since)
  }

  lemma {:induction false} AgreeFromThenOn(log: seq<real>, times: seq<real>, since: real, cutoff: real)
    requires Agree(log, times, since) && since <= cutoff
    ensures Agree(log, times, cutoff)
  {
    PruneTwice(log, since, cutoff);
    PruneTwice(times, since, cutoff);
  }

  lemma {:induction false} AgreeAfterCall(log: seq<real>, times: seq<real>, since: real, start: real, now: real)
    requires Agree(log, times, since) && since <= start < now
    ensures Prune(log, start) + [now] == Prune(times + [now], start)
    ensures Agree(Prune(log, start) + [now], times + [now], start)
  {
    AgreeFromThenOn(log, times, since, start);
    PruneAppend(times, now, start);
    PruneAppend(Prune(log, start), now, start);
    PruneTwice(log, start, start);
  }

  function LogOf(requests: map<string, seq<real>>, key: string): seq<real> {
    if key in requests then requests[key] else []
  }

  predicate KeyAgrees(requests: map<string, seq<real>>, history: seq<Call>, since: real, key: string) {
    Agree(LogOf(requests, key), TimesOf(history, key), since)
  }

  ghost predicate LogsAgree(requests: map<string, seq<real>>, history: seq<Call>, since: real) {
    forall key :: KeyAgrees(requests, history, since, key)
  }

  /** What the log still knows suffices for every cutoff a later call can use. */
  ghost predicate ValidLog(requests: map<string, seq<real>>, history: seq<Call>, w: real) {
    && w > 0.0
    && Chronological(history)
    && (if history == [] then requests == map[]
        else LogsAgree(requests, history, history[|history| - 1].time - w))
  }

  lemma LastCount(history: seq<Call>, c: Call, w: real)
    ensures CountAt(history + [c], |history|, w) == |Prune(TimesOf(history + [c], c.key), c.time - w)|
  {
    assert (history + [c])[..|history| + 1] == history + [c];
  }

  // The latest cutoff used so far, or the one about to be used by the first call.
  function Since(history: seq<Call>, w: real, now: real): real {
    if history == [] then now - w else history[|history| - 1].time - w
  }

  lemma {:induction false} ValidLogAgrees(requests: map<string, seq<real>>, history: seq<Call>, w: real, now: real)
    requires ValidLog(requests, history, w)
    ensures LogsAgree(requests, history, Since(history, w, now))
  {
  }

  lemma {:induction false} ChronologicalAppend(history: seq<Call>, c: Call)
    requires Chronological(history) && (history != [] ==> c.time >= history[|history| - 1].time)
    ensures Chronological(history + [c])
  {
  }

  /** The log of the called key after the call. */
  function Logged(requests: map<string, seq<real>>, c: Call, w: real): seq<real> {
    Prune(LogOf(requests, c.key), c.time - w) + [c.time]
  }

  lemma SinceIsEarlier(history: seq<Call>, w: real, c: Call)
    requires w > 0.0 && (history != [] ==> c.time >= history[|history| - 1].time)
    ensures Since(history, w, c.time) <= c.time - w < c.time
  {
  }

  // The log of the called key, before and after the call, against its full history.
  lemma {:induction false} LoggedAgrees(requests: map<string, seq<real>>, history: seq<Call>, w: real, c: Call)
    requires ValidLog(requests, history, w)
    requires history != [] ==> c.time >= history[|history| - 1].time
    ensures Logged(requests, c, w) == Prune(TimesOf(history + [c], c.key), c.time - w)
    ensures Agree(Logged(requests, c, w), TimesOf(history + [c], c.key), c.time - w)
  {
    var since := Since(history, w, c.time);
    ValidLogAgrees(requests, history, w, c.time);
    SinceIsEarlier(history, w, c);
    assert KeyAgrees(requests, history, since, c.key);
    AgreeAfterCall(LogOf(requests, c.key), TimesOf(history, c.key), since, c.time - w, c.time);
    TimesOfAppend(history, c, c.key);
  }

  lemma {:induction false} OthersAgree(requests: map<string, seq<real>>, history: seq<Call>, w: real, c: Call, key: string)
    requires ValidLog(requests, history, w) && key != c.key
    requires history != [] ==> c.time >= history[|history| - 1].time
    ensures Agree(LogOf(requests, key), TimesOf(history + [c], key), c.time - w)
  {
    var since := Since(history, w, c.time);
    ValidLogAgrees(requests, history, w, c.time);
    SinceIsEarlier(history, w, c);
    assert KeyAgrees(requests, history, since, key);
    AgreeFromThenOn(LogOf(requests, key), TimesOf(history, key), since, c.time - w);
    TimesOfAppend(history, c, key);
  }

  lemma {:induction false} KeyAgreesNext(requests: map<string, seq<real>>, history: seq<Call>, w: real, c: Call, key: string)
    requires ValidLog(requests, history, w)
    requires history != [] ==> c.time >= history[|history| - 1].time
    ensures KeyAgrees(requests[c.key := Logged(requests, c, w)], history + [c], c.time - w, key)
  {
    var log := Logged(requests, c, w);
    assert LogOf(requests[c.key := log], key) == if key == c.key then log else LogOf(requests, key);
    if key == c.key {
      LoggedAgrees(requests, history, w, c);
    } else {
      OthersAgree(requests, history, w, c, key);
    }
  }

  lemma {:induction false} LogsAgreeNext(requests: map<string, seq<real>>, history: seq<Call>, w: real, c: Call)
    requires ValidLog(requests, history, w)
    requires history != [] ==> c.time >= history[|history| - 1].time
    ensures LogsAgree(requests[c.key := Logged(requests, c, w)], history + [c], c.time - w)
  {
    var requests', history', start := requests[c.key := Logged(requests, c, w)], history + [c], c.time - w;
    forall key
      ensures KeyAgrees(requests', history', start, key)
    {
      KeyAgreesNext(requests, history, w, c, key);
    }
  }

  lemma {:induction false} ValidLogFrom(requests: map<string, seq<real>>, history: seq<Call>, w: real, c: Call)
    requires w > 0.0 && Chronological(history + [c]) && LogsAgree(requests, history + [c], c.time - w)
    ensures ValidLog(requests, history + [c], w)
  {
    assert (history + [c])[|history + [c]| - 1] == c;
  }

  lemma {:induction false} CallKeepsValidLog(requests: map<string, seq<real>>, history: seq<Call>, w: real, c: Call)
    requires ValidLog(requests, history, w)
    requires history != [] ==> c.time >= history[|history| - 1].time
    ensures ValidLog(requests[c.key := Logged(requests, c, w)], history + [c], w)
  {
    LogsAgreeNext(requests, history, w, c);
    ChronologicalAppend(history, c);
    ValidLogFrom(requests[c.key := Logged(requests, c, w)], history, w, c);
  }

  lemma OtherLogsStay(requests: map<string, seq<real>>, key: string, log: seq<real>)
    ensures LogOf(requests[key := log], key) == log
    ensures forall k | k != key :: LogOf(requests[key := log], k) == LogOf(requests, k)
  {
  }

  /** What one call makes of the log: the called key's log is its full history in the window, and no other changes. */
  ghost predicate Recorded(before: map<string, seq<real>>, history: seq<Call>, after: map<string, seq<real>>, c: Call, w: real) {
    && ValidLog(after, history + [c], w)
    && LogOf(after, c.key) == Prune(TimesOf(history + [c], c.key), c.time - w)
    && |LogOf(after, c.key)| == CountAt(history + [c], |history|, w)
    && (forall k | k != c.key :: LogOf(after, k) == LogOf(before, k))
  }

  lemma {:induction false} CallIsRecorded(requests: map<string, seq<real>>, history: seq<Call>, w: real, c: Call)
    requires ValidLog(requests, history, w)
    requires history != [] ==> c.time >= history[|history| - 1].time
    ensures Recorded(requests, history, requests[c.key := Logged(requests, c, w)], c, w)
  {
    CallKeepsValidLog(requests, history, w, c);
    LoggedAgrees(requests, history, w, c);
    LastCount(history, c, w);
    OtherLogsStay(requests, c.key, Logged(requests, c, w));
  }

  datatype Headers = Headers(limit: int, remaining: int, reset: int, retryAfter: Option<int>)

  class InMemoryRateLimiter {
    const windowSeconds: int
    var requests: map<string, seq<real>>
    ghost var history: seq<Call>

    ghost predicate Valid()
      reads this
    {
      ValidLog(requests, history, windowSeconds as real)
    }

    constructor (windowSeconds: int)
      requires windowSeconds > 0
      ensures Valid() && history == [] && this.windowSeconds == windowSeconds
    {
      this.windowSeconds := windowSeconds;
      requests := map[];
      history := [];
    }

    /** The log of the key is the full history restricted to the window, and the decision is about that. */
    method IsRateLimited(key: string, limit: int, now: real) returns (limited: bool, headers: Headers)
      requires Valid()
      requires history != [] ==> now >= history[|history| - 1].time
      modifies this
      ensures Valid() && history == old(history) + [Call(key, now, limit)]
      ensures LogOf(requests, key) == Prune(TimesOf(history, key), now - windowSeconds as real)
      ensures forall k | k != key :: LogOf(requests, k) == LogOf(old(requests), k)
      ensures limited <==> !Admitted(history, |old(history)|, windowSeconds as real)
      ensures headers.limit == limit && headers.reset == Truncate(now + windowSeconds as real)
      ensures headers.remaining == RemainingAt(history, |old(history)|, windowSeconds as real)
      ensures headers.retryAfter == if limited then Some(windowSeconds) else None
    {
      var count := LogCall(key, limit, now, windowSeconds as real);
      var remaining := if limit - count > 0 then limit - count else 0;
      headers := Headers(limit, remaining, Truncate(now + windowSeconds as real), None);
      if count > limit {
        headers := headers.(retryAfter := Some(windowSeconds));
        return true, headers;
      }
      return false, headers;
    }

    /** The pruning and appending half of is_rate_limited, for a window of `w` seconds. */
    method LogCall(key: string, limit: int, now: real, w: real) returns (count: nat)
      requires ValidLog(requests, history, w)
      requires history != [] ==> now >= history[|history| - 1].time
      modifies this`requests, this`history
      ensures history == old(history) + [Call(key, now, limit)]
      ensures Recorded(old(requests), old(history), requests, Call(key, now, limit), w)
      ensures count == |LogOf(requests, key)|
    {
      ghost var c := Call(key, now, limit);
      CallIsRecorded(requests, history, w, c);
      PruneAndAppend(key, now - w, now);
      history := history + [c];
      count := |requests[key]|;
    }

    method PruneAndAppend(key: string, windowStart: real, now: real)
      modifies this`requests
      ensures requests == old(requests)[key := Prune(LogOf(old(requests), key), windowStart) + [now]]
    {
      var pruned := KeepAfter(LogOf(requests, key), windowStart);
      requests := requests[key := pruned];
      requests := requests[key := requests[key] + [now]];
    }
  }

  method KeepAfter(times: seq<real>, cutoff: real) returns (kept: seq<real>)
    ensures kept == Prune(times, cutoff)
  {
    kept := [];
    for i := 0 to |times|
      invariant kept == Prune(times[..i], cutoff)
    {
      assert times[..i + 1][..i] == times[..i];
      if times[i] > cutoff {
        kept := kept + [times[i]];
      }
    }
    assert times[..|times|] == times;
  }

  // ---------------------------------------------------------------------------------------
  // What follows for whole histories
  // ---------------------------------------------------------------------------------------

  /** The calls on `key` among the first `n` that come after `cutoff`. */
  ghost function Window(history: seq<Call>, key: string, n: nat, cutoff: real): set<nat>
    requires n <= |history|
  {
    set i: nat | i < n && history[i].key == key && history[i].time > cutoff
  }

  /** How many times call `i`'s key had been called in its window, that call included. */
  function CountAt(history: seq<Call>, i: nat, w: real): nat
    requires i < |history|
  {
    |Prune(TimesOf(history[..i + 1], history[i].key), history[i].time - w)|
  }

  /** Call `i` was let through: IsRateLimited answered false. */
  predicate Admitted(history: seq<Call>, i: nat, w: real)
    requires i < |history|
  {
    CountAt(history, i, w) <= history[i].limit
  }

  lemma {:induction false} WindowIsCounted(history: seq<Call>, key: string, n: nat, cutoff: real)
    requires n <= |history|
    ensures |Prune(TimesOf(history[..n], key), cutoff)| == |Window(history, key, n, cutoff)|
  {
    if n == 0 {
      assert Window(history, key, 0, cutoff) == {};
    } else {
      WindowIsCounted(history, key, n - 1, cutoff);
      var c := history[n - 1];
      assert history[..n] == history[..n - 1] + [c];
      TimesOfAppend(history[..n - 1], c, key);
      PruneAppend(TimesOf(history[..n - 1], key), c.time, cutoff);
      WindowGrows(history, key, n - 1, cutoff);
    }
  }

  lemma WindowGrows(history: seq<Call>, key: string, n: nat, cutoff: real)
    requires n < |history|
    ensures |Window(history, key, n + 1, cutoff)|
         == |Window(history, key, n, cutoff)| + if history[n].key == key && history[n].time > cutoff then 1 else 0
  {
    var before, after := Window(history, key, n, cutoff), Window(history, key, n + 1, cutoff);
    assert n !in before && forall i | i in after && i != n :: i in before;
    if history[n].key == key && history[n].time > cutoff {
      assert after == before + {n};
    } else {
      assert after == before;
    }
  }

  /** The calls on `key` with a limit of at most `bound` that were admitted in the window (t - w, t]. */
  ghost function AdmittedIn(history: seq<Call>, key: string, bound: nat, t: real, w: real): set<nat> {
    set i: nat | i < |history| && history[i].key == key && history[i].limit <= bound
              && t - w < history[i].time <= t && Admitted(history, i, w)
  }

  lemma {:induction false} UnionCardinality(c: set<nat>, a: set<nat>, b: set<nat>)
    requires c <= a + b
    ensures |c| <= |a| + |b|
  {
    SubsetCardinality(c, a + b);
    assert |a + b| == |a| + |b - a| by { assert a + b == a + (b - a); }
    SubsetCardinality(b - a, b);
  }

  lemma {:induction false} LargestOf(s: set<nat>, n: nat) returns (m: nat)
    requires s != {} && forall i | i in s :: i < n
    ensures m in s && forall i | i in s :: i <= m
  {
    if n - 1 in s {
      m := n - 1;
    } else {
      m := LargestOf(s, n - 1);
    }
  }

  /**
   The admission bound. A key is shared by paths with different limits; in any window at most
   `bound` of its admitted calls had a limit of their own of at most `bound`.
   */
  lemma {:induction false} AdmissionIsBounded(history: seq<Call>, key: string, bound: nat, t: real, w: real)
    requires Chronological(history)
    ensures |AdmittedIn(history, key, bound, t, w)| <= bound
  {
    var admitted := AdmittedIn(history, key, bound, t, w);
    if admitted != {} {
      var m := LargestOf(admitted, |history|);
      var cutoff := history[m].time - w;
      WindowIsCounted(history, key, m + 1, cutoff);
      SubsetCardinality(admitted, Window(history, key, m + 1, cutoff));
    }
  }

  /** X-RateLimit-Remaining as reported by call `i`. */
  function RemainingAt(history: seq<Call>, i: nat, w: real): nat
    requires i < |history|
  {
    if history[i].limit > CountAt(history, i, w) then history[i].limit - CountAt(history, i, w) else 0
  }

  /** The calls after `i` up to `j` on the same key. */
  ghost function CallsBetween(history: seq<Call>, i: nat, j: nat): set<nat>
    requires i < |history| && j < |history|
  {
    set n: nat | i < n <= j && history[n].key == history[i].key
  }

  lemma {:induction false} LaterWindow(history: seq<Call>, i: nat, j: nat, w: real)
    requires Chronological(history) && i < j < |history| && history[j].key == history[i].key
    ensures |Window(history, history[j].key, j + 1, history[j].time - w)|
         <= |Window(history, history[i].key, i + 1, history[i].time - w)| + |CallsBetween(history, i, j)|
  {
    var before := Window(history, history[i].key, i + 1, history[i].time - w);
    var after := Window(history, history[j].key, j + 1, history[j].time - w);
    forall n | n in after ensures n in before + CallsBetween(history, i, j) {
      assert history[n].time > history[j].time - w;
    }
    UnionCardinality(after, before, CallsBetween(history, i, j));
  }

  lemma {:induction false} CountGrowsByCalls(history: seq<Call>, i: nat, j: nat, w: real)
    requires Chronological(history) && i < j < |history| && history[j].key == history[i].key
    ensures CountAt(history, j, w) <= CountAt(history, i, w) + |CallsBetween(history, i, j)|
  {
    CountIsWindow(history, i, w);
    CountIsWindow(history, j, w);
    LaterWindow(history, i, j, w);
  }

  lemma {:induction false} CountIsWindow(history: seq<Call>, i: nat, w: real)
    requires i < |history|
    ensures CountAt(history, i, w) == |Window(history, history[i].key, i + 1, history[i].time - w)|
  {
    WindowIsCounted(history, history[i].key, i + 1, history[i].time - w);
  }

  /**
   Remaining is a promise: after a call that reported `r` remaining, the next `r` calls on that key
   with the same or a higher limit are admitted, whenever they come.
   */
  lemma {:induction false} RemainingIsAPromise(history: seq<Call>, i: nat, j: nat, w: real)
    requires Chronological(history) && i < j < |history| && history[j].key == history[i].key
    requires history[j].limit >= history[i].limit
    requires |CallsBetween(history, i, j)| <= RemainingAt(history, i, w)
    ensures Admitted(history, j, w)
  {
    CountGrowsByCalls(history, i, j, w);
    assert j in CallsBetween(history, i, j);
    SubsetCardinality({j}, CallsBetween(history, i, j));
  }

  // ---------------------------------------------------------------------------------------
  // The limits in force
  // ---------------------------------------------------------------------------------------

  const RATE_LIMITS: seq<(string, int)> := [
    ("/api/v1/payments", 30),
    ("/api/v1/refunds", 10),
    ("/api/v1/admin/reconciliation", 5),
    ("/api/v1/webhooks", 300),
    ("/health", 60),
    ("/info", 60)]

  /** The limit of the first prefix the path starts with. */
  function LimitForPath(path: string, table: seq<(string, int)> := RATE_LIMITS): int {
    if table == [] then 120
    else if table[0].0 <= path then table[0].1
    else LimitForPath(path, table[1..])
  }

  /** Which limit a path has; no two of the prefixes overlap. */
  lemma {:induction false} LimitsInForce(path: string)
    ensures "/api/v1/payments" <= path ==> LimitForPath(path) == 30
    ensures "/api/v1/refunds" <= path ==> LimitForPath(path) == 10
    ensures "/api/v1/admin/reconciliation" <= path ==> LimitForPath(path) == 5
    ensures "/api/v1/webhooks" <= path ==> LimitForPath(path) == 300
    ensures "/health" <= path || "/info" <= path ==> LimitForPath(path) == 60
    ensures (!("/api/v1/payments" <= path) && !("/api/v1/refunds" <= path) && !("/api/v1/admin/reconciliation" <= path)
             && !("/api/v1/webhooks" <= path) && !("/health" <= path) && !("/info" <= path)) ==>
      LimitForPath(path) == 120
  {
    var t := RATE_LIMITS;
    assert LimitForPath(path, []) == 120;
    LimitUnfolds(path, t);
    LimitUnfolds(path, t[1..]);
    LimitUnfolds(path, t[1..][1..]);
    LimitUnfolds(path, t[1..][1..][1..]);
    LimitUnfolds(path, t[1..][1..][1..][1..]);
    LimitUnfolds(path, t[1..][1..][1..][1..][1..]);
    assert "/api/v1/payments"[8] == 'p' && "/api/v1/refunds"[8] == 'r' && "/api/v1/admin/reconciliation"[8] == 'a' && "/api/v1/webhooks"[8] == 'w';
    assert "/api/v1/payments"[1] == "/api/v1/refunds"[1] == "/api/v1/admin/reconciliation"[1] == "/api/v1/webhooks"[1] == 'a';
    assert "/health"[1] == 'h' && "/info"[1] == 'i';
  }

  lemma LimitUnfolds(path: string, table: seq<(string, int)>)
    requires table != []
    ensures LimitForPath(path, table) == if table[0].0 <= path then table[0].1 else LimitForPath(path, table[1..])
  {
  }

  /**
   The decision, on the calls themselves: call `n` is limited if and only if more calls of its key than
   its limit, itself and the rejected ones included, were made in the window of `w` that ends with it;
   what it reports as remaining is the difference.
   */
  lemma {:induction false} DecisionIsExact(history: seq<Call>, n: nat, w: real)
    requires n < |history|
    ensures
      var inWindow := set i: nat | i <= n && history[i].key == history[n].key && history[i].time > history[n].time - w;
      && (Admitted(history, n, w) <==> |inWindow| <= history[n].limit)
      && RemainingAt(history, n, w) == if history[n].limit > |inWindow| then history[n].limit - |inWindow| else 0
  {
    CountIsWindow(history, n, w);
    var inWindow := set i: nat | i <= n && history[i].key == history[n].key && history[i].time > history[n].time - w;
    assert inWindow == Window(history, history[n].key, n + 1, history[n].time - w);
  }

  /** X-RateLimit-Reset is the end of the window in whole seconds, truncated towards zero. */
  lemma TruncateDropsTheFraction(x: real)
    ensures x >= 0.0 ==> Truncate(x) as real <= x < (Truncate(x) + 1) as real
    ensures x < 0.0 ==> (Truncate(x) - 1) as real < x <= Truncate(x) as real
  {
  }

  /** Whatever paths a key calls, a 60 second window admits at most 300 of its calls. */
  lemma {:induction false} KeyAdmitsAtMost300(history: seq<Call>, paths: seq<string>, key: string, t: real)
    requires Chronological(history) && |paths| == |history|
    requires forall i | 0 <= i < |history| :: history[i].limit == LimitForPath(paths[i])
    ensures |set i: nat | i < |history| && history[i].key == key && t - 60.0 < history[i].time <= t
                       && Admitted(history, i, 60.0)| <= 300
  {
    var all := set i: nat | i < |history| && history[i].key == key && t - 60.0 < history[i].time <= t
                         && Admitted(history, i, 60.0);
    forall i | i in all ensures i in AdmittedIn(history, key, 300, t, 60.0) {
      LimitsAreAtMost300(paths[i], RATE_LIMITS);
    }
    AdmissionIsBounded(history, key, 300, t, 60.0);
    SubsetCardinality(all, AdmittedIn(history, key, 300, t, 60.0));
  }

  lemma {:induction false} LimitsAreAtMost300(path: string, table: seq<(string, int)>)
    requires forall row | row in table :: row.1 <= 300
    ensures LimitForPath(path, table) <= 300
  {
    if table != [] {
      LimitsAreAtMost300(path, table[1..]);
    }
  }
}
