/**
 Reconciling a range in pieces. The pieces report what the whole reports if and only if no id has
 its internal and its provider time on opposite sides of the cut.
 */
module RangeSplitting {
  import opened Prelude
  import opened Reconciliation

  /** No external id is stored twice, as OneChargePerKey shows of the ledger. */
  ghost predicate ProperRows(rows: seq<Row>) {
    forall i, j | 0 <= i < j < |rows| && rows[i].externalId.Some? :: rows[i].externalId != rows[j].externalId
  }

  function InternalMap(rows: seq<Row>, start: Time, end: Time): map<string, Row> {
    Internal(rows, start, end).at
  }

  function ProviderMap(intents: seq<Intent>, start: Time, end: Time): map<string, Intent> {
    ById(Matching(intents, start, end)).at
  }

  /** What run_reconciliation stores for a range. */
  function Discrepancies(rows: seq<Row>, intents: seq<Intent>, start: Time, end: Time): seq<Discrepancy> {
    InternalIsWellFormed(rows, start, end);
    Diff(Internal(rows, start, end), ById(Matching(intents, start, end)))
  }

  /** No id recorded on both sides in [a, c) was created before `b` on one side and not on the other. */
  ghost predicate NoStraddle(rows: seq<Row>, intents: seq<Intent>, a: Time, b: Time, c: Time) {
    forall r, pi | r in rows && pi in intents && InternalIn(r, a, c) && ProviderIn(pi, a, c) && r.externalId == Some(pi.id) ::
      r.createdAt < b <==> pi.created < Seconds(b)
  }

  lemma SecondsAreMonotone(s: Time, t: Time)
    requires s <= t
    ensures Seconds(s) <= Seconds(t)
  {
  }

  /** When the cut is the whole second `k`, the provider's side of it is about the true times too. */
  lemma WholeSecondCut(pi: Intent, k: int)
    ensures pi.created < Seconds(k * 1000000) <==> pi.created * 1000000 < k * 1000000
  {
  }

  // ---------------------------------------------------------------------------------------
  // The maps of the pieces
  // ---------------------------------------------------------------------------------------

  // `whole` is the disjoint union of `left` and `right`.
  ghost predicate Splits<T>(whole: map<string, T>, left: map<string, T>, right: map<string, T>) {
    left.Keys !! right.Keys && whole == left + right
  }

  lemma {:induction false} InternalEntry(rows: seq<Row>, start: Time, end: Time, r: Row)
    requires ProperRows(rows) && r in rows && r.externalId.Some?
    ensures InternalIn(r, start, end) <==> r.externalId.value in InternalMap(rows, start, end)
    ensures InternalIn(r, start, end) ==> InternalMap(rows, start, end)[r.externalId.value] == r
  {
    InternalHolds(rows, start, end, r.externalId.value);
  }

  lemma {:induction false} ProviderEntry(intents: seq<Intent>, start: Time, end: Time, pi: Intent)
    requires ProperList(intents) && pi in intents
    ensures ProviderIn(pi, start, end) <==> pi.id in ProviderMap(intents, start, end)
    ensures ProviderIn(pi, start, end) ==> ProviderMap(intents, start, end)[pi.id] == pi
  {
    ByIdHolds(Matching(intents, start, end), pi.id);
    MatchingHolds(intents, start, end, pi);
    if pi.id in ProviderMap(intents, start, end) {
      MatchingHolds(intents, start, end, ProviderMap(intents, start, end)[pi.id]);
    }
  }

  lemma {:induction false} InternalSplits(rows: seq<Row>, a: Time, b: Time, c: Time)
    requires ProperRows(rows) && a <= b <= c
    ensures Splits(InternalMap(rows, a, c), InternalMap(rows, a, b), InternalMap(rows, b, c))
  {
    var whole, left, right := InternalMap(rows, a, c), InternalMap(rows, a, b), InternalMap(rows, b, c);
    forall k
      ensures k in whole ==> (k in left && left[k] == whole[k] && k !in right) || (k in right && right[k] == whole[k] && k !in left)
      ensures k in left || k in right ==> k in whole
    {
      InternalHolds(rows, a, c, k);
      InternalHolds(rows, a, b, k);
      InternalHolds(rows, b, c, k);
      if k in whole {
        InternalEntry(rows, a, b, whole[k]);
        InternalEntry(rows, b, c, whole[k]);
      }
    }
  }

  lemma {:induction false} ProviderSplits(intents: seq<Intent>, a: Time, b: Time, c: Time)
    requires ProperList(intents) && a <= b <= c
    ensures Splits(ProviderMap(intents, a, c), ProviderMap(intents, a, b), ProviderMap(intents, b, c))
  {
    var whole, left, right := ProviderMap(intents, a, c), ProviderMap(intents, a, b), ProviderMap(intents, b, c);
    SecondsAreMonotone(a, b);
    SecondsAreMonotone(b, c);
    forall k
      ensures k in whole ==> (k in left && left[k] == whole[k] && k !in right) || (k in right && right[k] == whole[k] && k !in left)
      ensures k in left || k in right ==> k in whole
    {
      if k in whole { ProviderPieces(intents, a, b, c, k, a, c); }
      if k in left { ProviderPieces(intents, a, b, c, k, a, b); }
      if k in right { ProviderPieces(intents, a, b, c, k, b, c); }
    }
  }

  // The intent a map holds under `k` is held under `k` by exactly the maps whose range it lies in.
  lemma {:induction false} ProviderPieces(intents: seq<Intent>, a: Time, b: Time, c: Time, k: string, start: Time, end: Time)
    requires ProperList(intents) && k in ProviderMap(intents, start, end)
    ensures
      var pi := ProviderMap(intents, start, end)[k];
      && pi.id == k && ProviderIn(pi, start, end)
      && (ProviderIn(pi, a, c) <==> k in ProviderMap(intents, a, c))
      && (ProviderIn(pi, a, b) <==> k in ProviderMap(intents, a, b))
      && (ProviderIn(pi, b, c) <==> k in ProviderMap(intents, b, c))
      && (ProviderIn(pi, a, c) ==> ProviderMap(intents, a, c)[k] == pi)
      && (ProviderIn(pi, a, b) ==> ProviderMap(intents, a, b)[k] == pi)
      && (ProviderIn(pi, b, c) ==> ProviderMap(intents, b, c)[k] == pi)
  {
    var pi := ProviderMap(intents, start, end)[k];
    ByIdHolds(Matching(intents, start, end), k);
    MatchingHolds(intents, start, end, pi);
    ProviderEntry(intents, a, c, pi);
    ProviderEntry(intents, a, b, pi);
    ProviderEntry(intents, b, c, pi);
  }

  // ---------------------------------------------------------------------------------------
  // Discrepancies of the pieces
  // ---------------------------------------------------------------------------------------

  ghost predicate SameSide(i: map<string, Row>, i1: map<string, Row>, p: map<string, Intent>, p1: map<string, Intent>) {
    forall k | k in i && k in p :: k in i1 <==> k in p1
  }

  /** How often `d` is listed for a pair of maps: never or once. */
  function Times(i: map<string, Row>, p: map<string, Intent>, d: Discrepancy): nat {
    if IsDiscrepancy(i, p, d) then 1 else 0
  }

  lemma {:induction false} PiecesListTheSame(i: map<string, Row>, i1: map<string, Row>, i2: map<string, Row>,
                                             p: map<string, Intent>, p1: map<string, Intent>, p2: map<string, Intent>)
    requires Splits(i, i1, i2) && Splits(p, p1, p2)
    ensures (forall d :: Times(i, p, d) == Times(i1, p1, d) + Times(i2, p2, d)) <==> SameSide(i, i1, p, p1)
  {
    if SameSide(i, i1, p, p1) {
      forall d ensures Times(i, p, d) == Times(i1, p1, d) + Times(i2, p2, d) {
        var k := d.providerId;
        assert k in i && k in p ==> (k in i1 <==> k in p1);
      }
    } else {
      var k :| k in i && k in p && !(k in i1 <==> k in p1);
      var d := MissingInternal(k);
      assert Times(i, p, d) == 0 && Times(i1, p1, d) + Times(i2, p2, d) == 1;
    }
  }

  lemma {:induction false} CountInDistinct<T(!new)>(s: seq<T>, x: T)
    requires Distinct(s)
    ensures multiset(s)[x] == if x in s then 1 else 0
  {
    if s != [] {
      var front := s[..|s| - 1];
      assert s == front + [s[|s| - 1]];
      CountInDistinct(front, x);
    }
  }

  lemma {:induction false} CountInDiff(rows: seq<Row>, intents: seq<Intent>, start: Time, end: Time)
    ensures forall d :: multiset(Discrepancies(rows, intents, start, end))[d]
                     == Times(InternalMap(rows, start, end), ProviderMap(intents, start, end), d)
  {
    InternalIsWellFormed(rows, start, end);
    ByIdIsWellFormed(Matching(intents, start, end));
    DiffIsExact(Internal(rows, start, end), ById(Matching(intents, start, end)));
    forall d
      ensures multiset(Discrepancies(rows, intents, start, end))[d]
           == Times(InternalMap(rows, start, end), ProviderMap(intents, start, end), d)
    {
      CountInDistinct(Discrepancies(rows, intents, start, end), d);
    }
  }

  lemma {:induction false} SumsAreCounted(x: multiset<Discrepancy>, y: multiset<Discrepancy>, z: multiset<Discrepancy>,
                                          f: Discrepancy -> nat, g: Discrepancy -> nat, h: Discrepancy -> nat)
    requires forall d :: x[d] == f(d)
    requires forall d :: y[d] == g(d)
    requires forall d :: z[d] == h(d)
    ensures x == y + z <==> forall d :: f(d) == g(d) + h(d)
  {
    if x == y + z {
      forall d ensures f(d) == g(d) + h(d) {
        assert x[d] == (y + z)[d];
      }
    }
    if forall d :: f(d) == g(d) + h(d) {
      forall d ensures x[d] == (y + z)[d] {
        assert f(d) == g(d) + h(d);
      }
    }
  }

  lemma {:induction false} SidesAreStraddles(rows: seq<Row>, intents: seq<Intent>, a: Time, b: Time, c: Time)
    requires ProperRows(rows) && ProperList(intents) && a <= b <= c
    ensures SameSide(InternalMap(rows, a, c), InternalMap(rows, a, b), ProviderMap(intents, a, c), ProviderMap(intents, a, b))
       <==> NoStraddle(rows, intents, a, b, c)
  {
    var i, i1, p, p1 := InternalMap(rows, a, c), InternalMap(rows, a, b), ProviderMap(intents, a, c), ProviderMap(intents, a, b);
    if NoStraddle(rows, intents, a, b, c) {
      forall k | k in i && k in p ensures k in i1 <==> k in p1 {
        InternalHolds(rows, a, c, k);
        InternalEntry(rows, a, b, i[k]);
        ProviderPieces(intents, a, b, c, k, a, c);
        MatchingHolds(intents, a, c, p[k]);
        ByIdHolds(Matching(intents, a, c), k);
      }
    }
    if SameSide(i, i1, p, p1) {
      forall r, pi | r in rows && pi in intents && InternalIn(r, a, c) && ProviderIn(pi, a, c) && r.externalId == Some(pi.id)
        ensures r.createdAt < b <==> pi.created < Seconds(b)
      {
        InternalEntry(rows, a, c, r);
        InternalEntry(rows, a, b, r);
        ProviderEntry(intents, a, c, pi);
        ProviderEntry(intents, a, b, pi);
      }
    }
  }

  /** Range splitting: the pieces report the discrepancies of the whole exactly when no id straddles the cut. */
  lemma {:induction false} RangesAddUp(rows: seq<Row>, intents: seq<Intent>, a: Time, b: Time, c: Time)
    requires ProperRows(rows) && ProperList(intents) && a <= b <= c
    ensures multiset(Discrepancies(rows, intents, a, c))
         == multiset(Discrepancies(rows, intents, a, b)) + multiset(Discrepancies(rows, intents, b, c))
       <==> NoStraddle(rows, intents, a, b, c)
  {
    InternalSplits(rows, a, b, c);
    ProviderSplits(intents, a, b, c);
    SidesAreStraddles(rows, intents, a, b, c);
    var i, i1, i2 := InternalMap(rows, a, c), InternalMap(rows, a, b), InternalMap(rows, b, c);
    var p, p1, p2 := ProviderMap(intents, a, c), ProviderMap(intents, a, b), ProviderMap(intents, b, c);
    PiecesListTheSame(i, i1, i2, p, p1, p2);
    CountInDiff(rows, intents, a, c);
    CountInDiff(rows, intents, a, b);
    CountInDiff(rows, intents, b, c);
    SumsAreCounted(multiset(Discrepancies(rows, intents, a, c)), multiset(Discrepancies(rows, intents, a, b)),
                   multiset(Discrepancies(rows, intents, b, c)),
                   d => Times(i, p, d), d => Times(i1, p1, d), d => Times(i2, p2, d));
  }

  lemma {:induction false} PiecesAddUp(rows: seq<Row>, intents: seq<Intent>, a: Time, b: Time, c: Time)
    requires ProperRows(rows) && ProperList(intents) && a <= b <= c && NoStraddle(rows, intents, a, b, c)
    ensures multiset(Discrepancies(rows, intents, a, c))
         == multiset(Discrepancies(rows, intents, a, b)) + multiset(Discrepancies(rows, intents, b, c))
  {
    RangesAddUp(rows, intents, a, b, c);
  }

  // What is reported of one row and one intent that agree, by whether they lie in the range.
  lemma {:induction false} OnePairIsReported(r: Row, pi: Intent, start: Time, end: Time)
    requires r.externalId == Some(pi.id) && pi.id != "" && r.amount == pi.amount && r.currency == pi.currency
    ensures
      var d := Discrepancies([r], [pi], start, end);
      && (InternalIn(r, start, end) && ProviderIn(pi, start, end) ==> d == [])
      && (!InternalIn(r, start, end) && ProviderIn(pi, start, end) ==> MissingInternal(pi.id) in d)
      && (InternalIn(r, start, end) && !ProviderIn(pi, start, end) ==> MissingProvider(r.id, pi.id) in d)
  {
    var i, p, d := InternalMap([r], start, end), ProviderMap([pi], start, end), Discrepancies([r], [pi], start, end);
    InternalIsWellFormed([r], start, end);
    ByIdIsWellFormed(Matching([pi], start, end));
    DiffIsExact(Internal([r], start, end), ById(Matching([pi], start, end)));
    InternalEntry([r], start, end, r);
    ProviderEntry([pi], start, end, pi);
    if d != [] {
      assert d[0] in d && IsDiscrepancy(i, p, d[0]);
      InternalHolds([r], start, end, d[0].providerId);
      ByIdHolds(Matching([pi], start, end), d[0].providerId);
      if d[0].providerId in p {
        MatchingHolds([pi], start, end, p[d[0].providerId]);
      }
    }
  }

  /**
   An intent created in the last second before the cut and stored just after it: the whole reports
   nothing, and the pieces report it missing on both sides.
   */
  lemma {:induction false} PiecesCanReportMore() returns (rows: seq<Row>, intents: seq<Intent>)
    ensures ProperRows(rows) && ProperList(intents)
    ensures Discrepancies(rows, intents, 0, 2000000) == []
    ensures MissingInternal("pi") in Discrepancies(rows, intents, 0, 1000000)
    ensures MissingProvider(0, "pi") in Discrepancies(rows, intents, 1000000, 2000000)
  {
    var r, pi := Row(0, Some("pi"), 100, "EUR", 1000001), Intent("pi", 100, "EUR", 0);
    rows, intents := [r], [pi];
    OnePairIsReported(r, pi, 0, 2000000);
    OnePairIsReported(r, pi, 0, 1000000);
    OnePairIsReported(r, pi, 1000000, 2000000);
  }

  /** The two totals always add up. */
  lemma {:induction false} TotalsAddUp(rows: seq<Row>, intents: seq<Intent>, a: Time, b: Time, c: Time)
    requires ProperRows(rows) && ProperList(intents) && a <= b <= c
    ensures |InternalMap(rows, a, c)| == |InternalMap(rows, a, b)| + |InternalMap(rows, b, c)|
    ensures |ProviderMap(intents, a, c)| == |ProviderMap(intents, a, b)| + |ProviderMap(intents, b, c)|
  {
    InternalSplits(rows, a, b, c);
    ProviderSplits(intents, a, b, c);
    assert InternalMap(rows, a, c).Keys == InternalMap(rows, a, b).Keys + InternalMap(rows, b, c).Keys;
    assert ProviderMap(intents, a, c).Keys == ProviderMap(intents, a, b).Keys + ProviderMap(intents, b, c).Keys;
  }

  // ---------------------------------------------------------------------------------------
  // The daily job
  // ---------------------------------------------------------------------------------------

  // Days in microseconds.
  function Midnight(start: Time, n: nat): Time {
    start + n * 86400000000
  }

  /** What `report` says of `days` consecutive daily windows, taken together. */
  ghost function Daily(report: (Time, Time) -> multiset<Discrepancy>, start: Time, days: nat): multiset<Discrepancy> {
    if days == 0 then multiset{}
    else Daily(report, start, days - 1) + report(Midnight(start, days - 1), Midnight(start, days))
  }

  lemma {:induction false} DaysAddUp(report: (Time, Time) -> multiset<Discrepancy>, start: Time, days: nat)
    requires report(start, start) == multiset{}
    requires forall n: nat | n < days ::
      report(start, Midnight(start, n + 1)) == report(start, Midnight(start, n)) + report(Midnight(start, n), Midnight(start, n + 1))
    ensures report(start, Midnight(start, days)) == Daily(report, start, days)
  {
    if days > 0 {
      DaysAddUp(report, start, days - 1);
      assert Midnight(start, days - 1 + 1) == Midnight(start, days);
    }
  }

  /** What run_reconciliation reports of a range, without its order. */
  function ReportOf(rows: seq<Row>, intents: seq<Intent>): (Time, Time) -> multiset<Discrepancy> {
    (a, b) => multiset(Discrepancies(rows, intents, a, b))
  }

  lemma {:induction false} EmptyRange(rows: seq<Row>, intents: seq<Intent>, t: Time)
    ensures Discrepancies(rows, intents, t, t) == []
  {
    var i, p := Internal(rows, t, t), ById(Matching(intents, t, t));
    InternalIsWellFormed(rows, t, t);
    ByIdIsWellFormed(Matching(intents, t, t));
    DiffIsExact(i, p);
    if Discrepancies(rows, intents, t, t) != [] {
      var d := Discrepancies(rows, intents, t, t)[0];
      assert IsDiscrepancy(i.at, p.at, d);
      InternalHolds(rows, t, t, d.providerId);
      ByIdHolds(Matching(intents, t, t), d.providerId);
      if d.providerId in p.at {
        MatchingHolds(intents, t, t, p.at[d.providerId]);
      }
    }
  }

  lemma NarrowerRange(rows: seq<Row>, intents: seq<Intent>, a: Time, b: Time, c: Time, d: Time)
    requires c <= d && NoStraddle(rows, intents, a, b, d)
    ensures NoStraddle(rows, intents, a, b, c)
  {
    SecondsAreMonotone(c, d);
  }

  lemma {:induction false} OneMoreDay(rows: seq<Row>, intents: seq<Intent>, start: Time, n: nat, days: nat)
    requires ProperRows(rows) && ProperList(intents) && n < days
    requires NoStraddle(rows, intents, start, Midnight(start, n), Midnight(start, days))
    ensures
      var report := ReportOf(rows, intents);
      report(start, Midnight(start, n + 1))
        == report(start, Midnight(start, n)) + report(Midnight(start, n), Midnight(start, n + 1))
  {
    NarrowerRange(rows, intents, start, Midnight(start, n), Midnight(start, n + 1), Midnight(start, days));
    PiecesAddUp(rows, intents, start, Midnight(start, n), Midnight(start, n + 1));
  }

  // How often `k` is reported as missing internally.
  ghost function Missing(rows: seq<Row>, intents: seq<Intent>, a: Time, b: Time, k: string): nat {
    ReportOf(rows, intents)(a, b)[MissingInternal(k)]
  }

  lemma {:induction false} MissingOnMaps(i: map<string, Row>, i1: map<string, Row>, i2: map<string, Row>,
                                         p: map<string, Intent>, p1: map<string, Intent>, p2: map<string, Intent>, k: string)
    requires Splits(i, i1, i2) && Splits(p, p1, p2)
    ensures
      var whole, pieces := Times(i, p, MissingInternal(k)), Times(i1, p1, MissingInternal(k)) + Times(i2, p2, MissingInternal(k));
      whole <= pieces && (whole == pieces <==> (k in i && k in p ==> (k in i1 <==> k in p1)))
  {
  }

  /** The pieces report `k` as missing no less often than the whole, and as often only if it does not straddle the cut. */
  lemma {:induction false} PiecesMissNoLess(rows: seq<Row>, intents: seq<Intent>, a: Time, b: Time, c: Time, k: string)
    requires ProperRows(rows) && ProperList(intents) && a <= b <= c
    ensures Missing(rows, intents, a, c, k) <= Missing(rows, intents, a, b, k) + Missing(rows, intents, b, c, k)
    ensures Missing(rows, intents, a, c, k) == Missing(rows, intents, a, b, k) + Missing(rows, intents, b, c, k) <==>
      (k in InternalMap(rows, a, c) && k in ProviderMap(intents, a, c) ==>
        (k in InternalMap(rows, a, b) <==> k in ProviderMap(intents, a, b)))
  {
    InternalSplits(rows, a, b, c);
    ProviderSplits(intents, a, b, c);
    MissingOnMaps(InternalMap(rows, a, c), InternalMap(rows, a, b), InternalMap(rows, b, c),
                  ProviderMap(intents, a, c), ProviderMap(intents, a, b), ProviderMap(intents, b, c), k);
    CountInDiff(rows, intents, a, c);
    CountInDiff(rows, intents, a, b);
    CountInDiff(rows, intents, b, c);
  }

  lemma {:induction false} MissingTellsStraddles(rows: seq<Row>, intents: seq<Intent>, a: Time, b: Time, c: Time)
    requires ProperRows(rows) && ProperList(intents) && a <= b <= c
    requires forall k :: Missing(rows, intents, a, c, k) >= Missing(rows, intents, a, b, k) + Missing(rows, intents, b, c, k)
    ensures NoStraddle(rows, intents, a, b, c)
  {
    forall k | k in InternalMap(rows, a, c) && k in ProviderMap(intents, a, c)
      ensures k in InternalMap(rows, a, b) <==> k in ProviderMap(intents, a, b)
    {
      PiecesMissNoLess(rows, intents, a, b, c, k);
      assert Missing(rows, intents, a, c, k) >= Missing(rows, intents, a, b, k) + Missing(rows, intents, b, c, k);
    }
    SidesAreStraddles(rows, intents, a, b, c);
  }

  // How often a report lists `d`, by range.
  function CountIn(report: (Time, Time) -> multiset<Discrepancy>, d: Discrepancy): (Time, Time) -> nat {
    (a, b) => report(a, b)[d]
  }

  ghost function DailyCount(count: (Time, Time) -> nat, start: Time, days: nat): nat {
    if days == 0 then 0
    else DailyCount(count, start, days - 1) + count(Midnight(start, days - 1), Midnight(start, days))
  }

  lemma {:induction false} DailyIsCounted(report: (Time, Time) -> multiset<Discrepancy>, d: Discrepancy, start: Time, days: nat)
    ensures Daily(report, start, days)[d] == DailyCount(CountIn(report, d), start, days)
  {
    if days > 0 {
      DailyIsCounted(report, d, start, days - 1);
    }
  }

  // `count` at a whole is no more than at its two pieces, when the first of them ends at midnight `n`.
  ghost predicate NoLessAt(count: (Time, Time) -> nat, start: Time, n: nat) {
    count(start, Midnight(start, n + 1)) <= count(start, Midnight(start, n)) + count(Midnight(start, n), Midnight(start, n + 1))
  }

  lemma {:induction false} DaysCountNoLess(count: (Time, Time) -> nat, start: Time, days: nat)
    requires count(start, start) == 0 && forall n: nat | n < days :: NoLessAt(count, start, n)
    ensures count(start, Midnight(start, days)) <= DailyCount(count, start, days)
  {
    if days > 0 {
      DaysCountNoLess(count, start, days - 1);
      assert NoLessAt(count, start, days - 1);
    }
  }

  // If the days together count no more than the whole, no cut adds anything.
  lemma {:induction false} TightDays(count: (Time, Time) -> nat, start: Time, days: nat, n: nat)
    requires count(start, start) == 0 && forall m: nat | m < days :: NoLessAt(count, start, m)
    requires count(start, Midnight(start, days)) >= DailyCount(count, start, days) && n < days
    ensures count(start, Midnight(start, n + 1)) == count(start, Midnight(start, n)) + count(Midnight(start, n), Midnight(start, n + 1))
  {
    DaysCountNoLess(count, start, days - 1);
    assert NoLessAt(count, start, days - 1);
    if n < days - 1 {
      TightDays(count, start, days - 1, n);
    }
  }

  // A cut inside the left piece of a range cuts the whole range if the pieces do not straddle.
  lemma {:induction false} WiderRange(rows: seq<Row>, intents: seq<Intent>, a: Time, b: Time, c: Time, d: Time)
    requires a <= b <= c <= d && NoStraddle(rows, intents, a, b, c) && NoStraddle(rows, intents, a, c, d)
    ensures NoStraddle(rows, intents, a, b, d)
  {
    SecondsAreMonotone(b, c);
    forall r, pi | r in rows && pi in intents && InternalIn(r, a, d) && ProviderIn(pi, a, d) && r.externalId == Some(pi.id)
      ensures r.createdAt < b <==> pi.created < Seconds(b)
    {
      assert r.createdAt < c <==> pi.created < Seconds(c);
      if r.createdAt < c {
        assert InternalIn(r, a, c) && ProviderIn(pi, a, c);
      }
    }
  }

  lemma {:induction false} TiledMissesAddUp(rows: seq<Row>, intents: seq<Intent>, start: Time, days: nat, n: nat, k: string)
    requires ProperRows(rows) && ProperList(intents) && n < days
    requires ReportOf(rows, intents)(start, Midnight(start, days)) == Daily(ReportOf(rows, intents), start, days)
    ensures Missing(rows, intents, start, Midnight(start, n + 1), k)
         == Missing(rows, intents, start, Midnight(start, n), k) + Missing(rows, intents, Midnight(start, n), Midnight(start, n + 1), k)
  {
    var count := CountIn(ReportOf(rows, intents), MissingInternal(k));
    EmptyRange(rows, intents, start);
    forall m: nat | m < days ensures NoLessAt(count, start, m) {
      PiecesMissNoLess(rows, intents, start, Midnight(start, m), Midnight(start, m + 1), k);
    }
    DailyIsCounted(ReportOf(rows, intents), MissingInternal(k), start, days);
    TightDays(count, start, days, n);
  }

  lemma {:induction false} TiledMeansNoStraddle(rows: seq<Row>, intents: seq<Intent>, start: Time, days: nat, n: nat)
    requires ProperRows(rows) && ProperList(intents) && n < days
    requires ReportOf(rows, intents)(start, Midnight(start, days)) == Daily(ReportOf(rows, intents), start, days)
    ensures NoStraddle(rows, intents, start, Midnight(start, n), Midnight(start, n + 1))
  {
    forall k
      ensures Missing(rows, intents, start, Midnight(start, n + 1), k)
           >= Missing(rows, intents, start, Midnight(start, n), k) + Missing(rows, intents, Midnight(start, n), Midnight(start, n + 1), k)
    {
      TiledMissesAddUp(rows, intents, start, days, n, k);
    }
    MissingTellsStraddles(rows, intents, start, Midnight(start, n), Midnight(start, n + 1));
  }

  lemma {:induction false} DayByDay(rows: seq<Row>, intents: seq<Intent>, start: Time, days: nat, n: nat)
    requires n <= days
    requires forall m: nat | m < days :: NoStraddle(rows, intents, start, Midnight(start, m), Midnight(start, m + 1))
    ensures NoStraddle(rows, intents, start, Midnight(start, n), Midnight(start, days))
  {
    if n < days {
      DayByDay(rows, intents, start, days - 1, n);
      assert NoStraddle(rows, intents, start, Midnight(start, days - 1), Midnight(start, days - 1 + 1));
      WiderRange(rows, intents, start, Midnight(start, n), Midnight(start, days - 1), Midnight(start, days));
    }
  }

  // No id of the days has its two times on opposite sides of a midnight.
  ghost predicate NoStraddledMidnight(rows: seq<Row>, intents: seq<Intent>, start: Time, days: nat) {
    forall n: nat | n <= days :: NoStraddle(rows, intents, start, Midnight(start, n), Midnight(start, days))
  }

  lemma {:induction false} DaysTile(rows: seq<Row>, intents: seq<Intent>, start: Time, days: nat)
    requires ProperRows(rows) && ProperList(intents) && NoStraddledMidnight(rows, intents, start, days)
    ensures ReportOf(rows, intents)(start, Midnight(start, days)) == Daily(ReportOf(rows, intents), start, days)
  {
    EmptyRange(rows, intents, start);
    forall n: nat | n < days {
      OneMoreDay(rows, intents, start, n, days);
    }
    DaysAddUp(ReportOf(rows, intents), start, days);
  }

  /**
   Consecutive daily runs tile time: together they report what one run over all the days would if and
   only if no id has its internal and its provider time on opposite sides of a midnight.
   */
  lemma {:induction false} DailyRunsTileTime(rows: seq<Row>, intents: seq<Intent>, start: Time, days: nat)
    requires ProperRows(rows) && ProperList(intents)
    ensures ReportOf(rows, intents)(start, Midnight(start, days)) == Daily(ReportOf(rows, intents), start, days)
       <==> NoStraddledMidnight(rows, intents, start, days)
  {
    if NoStraddledMidnight(rows, intents, start, days) {
      DaysTile(rows, intents, start, days);
    }
    if ReportOf(rows, intents)(start, Midnight(start, days)) == Daily(ReportOf(rows, intents), start, days) {
      forall n: nat | n < days {
        TiledMeansNoStraddle(rows, intents, start, days, n);
      }
      forall n: nat | n <= days ensures NoStraddle(rows, intents, start, Midnight(start, n), Midnight(start, days)) {
        DayByDay(rows, intents, start, days, n);
      }
    }
  }
}
