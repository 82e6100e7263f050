/**
 Reconciliation: the internal payments of a time range against the provider's, fetched page by
 page, compared key by key, and counted.
 */
module Reconciliation {
  import opened Prelude

  datatype Row = Row(id: nat, externalId: Option<string>, amount: int, currency: string, createdAt: Time)
  // The provider keeps whole seconds.
  datatype Intent = Intent(id: string, amount: int, currency: string, created: int)

  datatype Discrepancy =
    | MissingProvider(internalId: nat, providerId: string)
    | AmountMismatch(internalId: nat, providerId: string, internalAmount: int, providerAmount: int)
    | CurrencyMismatch(internalId: nat, providerId: string, internalCurrency: string, providerCurrency: string)
    | MissingInternal(providerId: string)

  // ---------------------------------------------------------------------------------------
  // Insertion-ordered dictionaries
  // ---------------------------------------------------------------------------------------

  datatype Dict<T> = Dict(order: seq<string>, at: map<string, T>)

  ghost predicate WellFormed<T>(d: Dict<T>) {
    Distinct(d.order) && forall k :: k in d.order <==> k in d.at
  }

  function Put<T>(d: Dict<T>, k: string, v: T): Dict<T> {
    Dict(if k in d.at then d.order else d.order + [k], d.at[k := v])
  }

  lemma PutKeepsWellFormed<T>(d: Dict<T>, k: string, v: T)
    requires WellFormed(d)
    ensures WellFormed(Put(d, k, v))
  {
  }

  // ---------------------------------------------------------------------------------------
  // The two dictionaries of a range
  // ---------------------------------------------------------------------------------------

  /** int(timestamp): seconds, truncated towards zero. */
  function Seconds(t: Time): int {
    if t >= 0 then t / 1000000 else -((-t) / 1000000)
  }

  /** The fraction is dropped, also of times before the epoch. */
  lemma SecondsDropTheFraction(t: Time)
    ensures t >= 0 ==> Seconds(t) * 1000000 <= t < (Seconds(t) + 1) * 1000000
    ensures t < 0 ==> (Seconds(t) - 1) * 1000000 < t <= Seconds(t) * 1000000
  {
  }

  predicate InternalIn(r: Row, start: Time, end: Time) {
    start <= r.createdAt < end && r.externalId.Some? && r.externalId.value != ""
  }

  predicate ProviderIn(pi: Intent, start: Time, end: Time) {
    Seconds(start) <= pi.created < Seconds(end)
  }

  function Internal(rows: seq<Row>, start: Time, end: Time): Dict<Row> {
    if rows == [] then Dict([], map[])
    else
      var front, r := rows[..|rows| - 1], rows[|rows| - 1];
      var d := Internal(front, start, end);
      if InternalIn(r, start, end) then Put(d, r.externalId.value, r) else d
  }

  /** The provider's list restricted to the range, in the provider's order. */
  function Matching(intents: seq<Intent>, start: Time, end: Time): (m: seq<Intent>) {
    if intents == [] then []
    else
      var rest := Matching(intents[..|intents| - 1], start, end);
      var last := intents[|intents| - 1];
      if ProviderIn(last, start, end) then rest + [last] else rest
  }

  function ById(intents: seq<Intent>): Dict<Intent> {
    if intents == [] then Dict([], map[])
    else
      var front, pi := intents[..|intents| - 1], intents[|intents| - 1];
      Put(ById(front), pi.id, pi)
  }

  lemma {:induction false} InternalIsWellFormed(rows: seq<Row>, start: Time, end: Time)
    ensures WellFormed(Internal(rows, start, end))
  {
    if rows != [] {
      var front, r := rows[..|rows| - 1], rows[|rows| - 1];
      InternalIsWellFormed(front, start, end);
      if InternalIn(r, start, end) {
        PutKeepsWellFormed(Internal(front, start, end), r.externalId.value, r);
      }
    }
  }

  lemma {:induction false} ByIdIsWellFormed(intents: seq<Intent>)
    ensures WellFormed(ById(intents))
  {
    if intents != [] {
      var front, pi := intents[..|intents| - 1], intents[|intents| - 1];
      ByIdIsWellFormed(front);
      PutKeepsWellFormed(ById(front), pi.id, pi);
    }
  }

  lemma {:induction false} InternalHolds(rows: seq<Row>, start: Time, end: Time, k: string)
    ensures
      var d := Internal(rows, start, end);
      k in d.at ==> d.at[k] in rows && InternalIn(d.at[k], start, end) && d.at[k].externalId == Some(k)
    ensures
      (exists r :: r in rows && InternalIn(r, start, end) && r.externalId == Some(k)) ==> k in Internal(rows, start, end).at
  {
    if rows != [] {
      var front, r := rows[..|rows| - 1], rows[|rows| - 1];
      assert rows == front + [r];
      InternalHolds(front, start, end, k);
    }
  }

  lemma {:induction false} MatchingHolds(intents: seq<Intent>, start: Time, end: Time, pi: Intent)
    ensures pi in Matching(intents, start, end) <==> pi in intents && ProviderIn(pi, start, end)
  {
    if intents != [] {
      var front, last := intents[..|intents| - 1], intents[|intents| - 1];
      assert intents == front + [last];
      MatchingHolds(front, start, end, pi);
    }
  }

  lemma {:induction false} ByIdHolds(intents: seq<Intent>, k: string)
    ensures k in ById(intents).at ==> ById(intents).at[k] in intents && ById(intents).at[k].id == k
    ensures (exists pi :: pi in intents && pi.id == k) ==> k in ById(intents).at
  {
    if intents != [] {
      var front, last := intents[..|intents| - 1], intents[|intents| - 1];
      assert intents == front + [last];
      ByIdHolds(front, k);
    }
  }

  /** The keys compared on the gateway's side: the non-empty references of rows created in [start, end). */
  lemma {:induction false} InternalKeys(rows: seq<Row>, start: Time, end: Time, k: string)
    ensures k in Internal(rows, start, end).at <==>
      k != "" && exists r :: r in rows && start <= r.createdAt && r.createdAt < end && r.externalId == Some(k)
  {
    InternalHolds(rows, start, end, k);
  }

  /** And on the provider's: the ids of the intents created in the whole seconds from start to before end. */
  lemma {:induction false} ProviderKeys(intents: seq<Intent>, start: Time, end: Time, k: string)
    ensures k in ById(Matching(intents, start, end)).at <==>
      exists pi :: pi in intents && Seconds(start) <= pi.created && pi.created < Seconds(end) && pi.id == k
  {
    var m := Matching(intents, start, end);
    ByIdHolds(m, k);
    if k in ById(m).at {
      MatchingHolds(intents, start, end, ById(m).at[k]);
    }
    forall pi | pi in intents && Seconds(start) <= pi.created && pi.created < Seconds(end) && pi.id == k
      ensures k in ById(m).at
    {
      MatchingHolds(intents, start, end, pi);
    }
  }

  /** Of several rows with one reference the last one in the range is compared. */
  lemma {:induction false} LastRowIsCompared(rows: seq<Row>, start: Time, end: Time, n: nat)
    requires n < |rows| && InternalIn(rows[n], start, end)
    requires forall i | n < i < |rows| && InternalIn(rows[i], start, end) :: rows[i].externalId != rows[n].externalId
    ensures
      var k := rows[n].externalId.value;
      k in Internal(rows, start, end).at && Internal(rows, start, end).at[k] == rows[n]
  {
    var front := rows[..|rows| - 1];
    if n < |front| {
      LastRowIsCompared(front, start, end, n);
    }
  }

  /** And of several intents with one id the last one listed. */
  lemma {:induction false} LastIntentIsCompared(intents: seq<Intent>, n: nat)
    requires n < |intents| && forall i | n < i < |intents| :: intents[i].id != intents[n].id
    ensures intents[n].id in ById(intents).at && ById(intents).at[intents[n].id] == intents[n]
  {
    var front := intents[..|intents| - 1];
    if n < |front| {
      LastIntentIsCompared(front, n);
    }
  }

  // ---------------------------------------------------------------------------------------
  // Paging
  // ---------------------------------------------------------------------------------------

  /** Distinct, non-empty ids: an empty id could not serve as a cursor. */
  ghost predicate ProperList(intents: seq<Intent>) {
    && (forall i, j | 0 <= i < j < |intents| :: intents[i].id != intents[j].id)
    && (forall i | 0 <= i < |intents| :: intents[i].id != "")
  }

  /** Where the page after `cursor` begins; no cursor, or an empty one, means the beginning. */
  function PageStart(list: seq<Intent>, cursor: Option<string>): (p: nat)
    ensures p <= |list|
  {
    if cursor.None? || cursor.value == "" || list == [] then 0
    else if list[|list| - 1].id == cursor.value then |list|
    else PageStart(list[..|list| - 1], cursor)
  }

  /** list_payment_intents: one page of the matching intents and the cursor of the next page. */
  function Page(list: seq<Intent>, limit: nat, cursor: Option<string>): (seq<Intent>, Option<string>) {
    var from := PageStart(list, cursor);
    var hasMore := from + limit < |list|;
    var data := if hasMore then list[from..from + limit] else list[from..];
    (data, if hasMore && data != [] then Some(data[|data| - 1].id) else None)
  }

  lemma {:induction false} PageStartIsAfter(list: seq<Intent>, i: nat)
    requires ProperList(list) && i < |list|
    ensures PageStart(list, Some(list[i].id)) == i + 1
  {
    if i < |list| - 1 {
      PageStartIsAfter(list[..|list| - 1], i);
    }
  }

  lemma {:induction false} MatchingIsProper(intents: seq<Intent>, start: Time, end: Time)
    requires ProperList(intents)
    ensures ProperList(Matching(intents, start, end))
  {
    if intents != [] {
      var front := intents[..|intents| - 1];
      MatchingIsProper(front, start, end);
      forall pi | pi in Matching(front, start, end) ensures pi.id != intents[|intents| - 1].id && pi.id != "" {
        MatchingHolds(front, start, end, pi);
        var i :| 0 <= i < |front| && front[i] == pi;
        assert intents[i] == pi;
      }
    }
  }

  /** An empty cursor asks for the first page again, so a list with an empty id need not end. */
  lemma EmptyCursorRestarts(list: seq<Intent>, limit: nat)
    ensures Page(list, limit, Some("")) == Page(list, limit, None)
  {
  }

  lemma ByIdAppend(before: seq<Intent>, pi: Intent)
    ensures ById(before + [pi]) == Put(ById(before), pi.id, pi)
  {
    assert (before + [pi])[..|before|] == before;
  }

  function PutAll(d: Dict<Intent>, page: seq<Intent>): Dict<Intent>
    decreases |page|
  {
    if page == [] then d else PutAll(Put(d, page[0].id, page[0]), page[1..])
  }

  lemma {:induction false} ByIdConcat(before: seq<Intent>, page: seq<Intent>)
    ensures ById(before + page) == PutAll(ById(before), page)
    decreases |page|
  {
    if page == [] {
      assert before + page == before;
    } else {
      ByIdAppend(before, page[0]);
      ByIdConcat(before + [page[0]], page[1..]);
      assert before + page == before + [page[0]] + page[1..];
    }
  }

  method AddPage(providerMap: Dict<Intent>, page: seq<Intent>) returns (r: Dict<Intent>)
    ensures r == PutAll(providerMap, page)
  {
    r := providerMap;
    for i := 0 to |page|
      invariant PutAll(r, page[i..]) == PutAll(providerMap, page)
    {
      assert page[i..][1..] == page[i + 1..];
      r := Put(r, page[i].id, page[i]);
    }
  }

  // A page continues where the first `done` intents end, and the next cursor stands after it.
  ghost predicate Continues(list: seq<Intent>, limit: nat, done: nat, page: seq<Intent>, next: Option<string>) {
    && done + |page| <= |list| && list[..done] + page == list[..done + |page|]
    && (next.None? ==> done + |page| == |list| && |page| <= limit)
    && (next.Some? ==> |page| == limit && done + limit < |list| && PageStart(list, next) == done + |page|)
  }

  lemma {:induction false} PageAdvances(list: seq<Intent>, limit: nat, cursor: Option<string>)
    requires ProperList(list) && limit >= 1
    ensures
      var (page, next) := Page(list, limit, cursor);
      Continues(list, limit, PageStart(list, cursor), page, next)
  {
    var done := PageStart(list, cursor);
    var (page, next) := Page(list, limit, cursor);
    assert list[..done] + page == list[..done + |page|];
    if next.Some? {
      PageStartIsAfter(list, done + |page| - 1);
    }
  }

  // The loop has put the first `done` intents in the map and the cursor stands after them.
  ghost predicate Fetched(list: seq<Intent>, cursor: Option<string>, providerMap: Dict<Intent>, done: nat) {
    ProperList(list) && done <= |list| && PageStart(list, cursor) == done && providerMap == ById(list[..done])
  }

  /** How many calls it takes to fetch `n` intents; the last page is asked for even if it is empty. */
  function Calls(n: nat, limit: nat): (calls: nat)
    requires limit >= 1
    ensures calls >= 1
  {
    if n <= limit then 1 else 1 + Calls(n - limit, limit)
  }

  /** That many pages cover the list, and one page less does not. */
  lemma {:induction false} CallsCover(n: nat, limit: nat)
    requires limit >= 1
    ensures n <= Calls(n, limit) * limit
    ensures Calls(n, limit) > 1 ==> (Calls(n, limit) - 1) * limit < n
  {
    if n > limit {
      CallsCover(n - limit, limit);
      var c := Calls(n - limit, limit);
      assert (c + 1) * limit == c * limit + limit;
      if c > 1 {
        assert c * limit == (c - 1) * limit + limit;
      }
    }
  }

  // One turn of the loop: it is over and the map is complete, or it has moved on by a full page.
  ghost predicate Turned(list: seq<Intent>, limit: nat, done: nat, next: Option<string>, r: Dict<Intent>, done': nat) {
    && done <= done' <= |list|
    && (next.None? ==> r == ById(list) && |list| - done <= limit)
    && (next.Some? ==> done < done' == done + limit < |list| && Fetched(list, next, r, done'))
  }

  lemma {:induction false} PageIsPut(list: seq<Intent>, limit: nat, d: Dict<Intent>, done: nat, page: seq<Intent>, next: Option<string>)
    requires limit >= 1 && ProperList(list) && done <= |list| && d == ById(list[..done]) && Continues(list, limit, done, page, next)
    ensures Turned(list, limit, done, next, PutAll(d, page), done + |page|)
  {
    ByIdConcat(list[..done], page);
    assert list[..|list|] == list;
  }

  lemma {:induction false} FetchedAdvances(list: seq<Intent>, limit: nat, cursor: Option<string>, d: Dict<Intent>, done: nat)
    requires limit >= 1 && Fetched(list, cursor, d, done)
    ensures
      var (page, next) := Page(list, limit, cursor);
      Turned(list, limit, done, next, PutAll(d, page), done + |page|)
  {
    var (page, next) := Page(list, limit, cursor);
    PageAdvances(list, limit, cursor);
    PageIsPut(list, limit, d, done, page, next);
  }

  /** One turn of the paging loop. */
  method FetchPage(list: seq<Intent>, limit: nat, cursor: Option<string>, providerMap: Dict<Intent>, ghost done: nat)
    returns (next: Option<string>, r: Dict<Intent>, ghost done': nat)
    requires limit >= 1 && Fetched(list, cursor, providerMap, done)
    ensures Turned(list, limit, done, next, r, done')
  {
    var (page, nextCursor) := Page(list, limit, cursor);
    r := AddPage(providerMap, page);
    next, done' := nextCursor, done + |page|;
    FetchedAdvances(list, limit, cursor, providerMap, done);
    assert Turned(list, limit, done, nextCursor, r, done');
  }

  /**
   The paging loop ends and collects the whole range, whatever the page size. `failure` is the
   number of the first provider call that raises, if any would: the run fails if and only if that
   call is made.
   */
  method FetchIntents(intents: seq<Intent>, start: Time, end: Time, limit: nat, failure: Option<nat>)
    returns (r: Result<Dict<Intent>, ()>)
    requires limit >= 1 && ProperList(intents)
    ensures r.Success? ==> r.value == ById(Matching(intents, start, end))
    ensures r.Failure? <==> failure.Some? && failure.value < Calls(|Matching(intents, start, end)|, limit)
  {
    var list := Matching(intents, start, end);
    MatchingIsProper(intents, start, end);
    var providerMap: Dict<Intent> := Dict([], map[]);
    var cursor: Option<string> := None;
    ghost var done: nat := 0;
    var calls: nat := 0;
    while true
      invariant Fetched(list, cursor, providerMap, done)
      invariant calls + Calls(|list| - done, limit) == Calls(|list|, limit)
      invariant failure.Some? ==> calls <= failure.value
      decreases |list| - done
    {
      if failure == Some(calls) {
        return Failure(());
      }
      calls := calls + 1;
      var nextCursor;
      nextCursor, providerMap, done := FetchPage(list, limit, cursor, providerMap, done);
      if nextCursor.None? {
        return Success(providerMap);
      }
      cursor := nextCursor;
    }
  }

  // ---------------------------------------------------------------------------------------
  // The comparison
  // ---------------------------------------------------------------------------------------

  function Compare(k: string, internal: Row, provider: map<string, Intent>): seq<Discrepancy> {
    if k !in provider then [MissingProvider(internal.id, k)]
    else
      var pi := provider[k];
      (if internal.amount != pi.amount then [AmountMismatch(internal.id, k, internal.amount, pi.amount)] else [])
      + (if internal.currency != pi.currency then [CurrencyMismatch(internal.id, k, internal.currency, pi.currency)] else [])
  }

  function CompareAll(keys: seq<string>, internal: map<string, Row>, provider: map<string, Intent>): seq<Discrepancy>
    requires forall k | k in keys :: k in internal
  {
    if keys == [] then []
    else
      var front, k := keys[..|keys| - 1], keys[|keys| - 1];
      assert keys == front + [k];
      CompareAll(front, internal, provider) + Compare(k, internal[k], provider)
  }

  function Unknown(keys: seq<string>, internal: map<string, Row>): seq<Discrepancy> {
    if keys == [] then []
    else
      var front, k := keys[..|keys| - 1], keys[|keys| - 1];
      Unknown(front, internal) + if k !in internal then [MissingInternal(k)] else []
  }

  /** The discrepancy list, in the order it is built. */
  function Diff(internal: Dict<Row>, provider: Dict<Intent>): seq<Discrepancy>
    requires WellFormed(internal)
  {
    CompareAll(internal.order, internal.at, provider.at) + Unknown(provider.order, internal.at)
  }

  // What it means to be a discrepancy of two maps, with no order and no list.
  predicate IsDiscrepancy(internal: map<string, Row>, provider: map<string, Intent>, d: Discrepancy) {
    var k := d.providerId;
    match d
    case MissingProvider(id, _) => k in internal && k !in provider && id == internal[k].id
    case AmountMismatch(id, _, a, b) =>
      k in internal && k in provider && id == internal[k].id && a == internal[k].amount && b == provider[k].amount && a != b
    case CurrencyMismatch(id, _, a, b) =>
      k in internal && k in provider && id == internal[k].id && a == internal[k].currency && b == provider[k].currency && a != b
    case MissingInternal(_) => k !in internal && k in provider
  }

  function AmountMismatches(internal: map<string, Row>, provider: map<string, Intent>): set<string> {
    set k | k in internal && k in provider && internal[k].amount != provider[k].amount
  }

  function CurrencyMismatches(internal: map<string, Row>, provider: map<string, Intent>): set<string> {
    set k | k in internal && k in provider && internal[k].currency != provider[k].currency
  }

  lemma CompareIsExact(k: string, internal: map<string, Row>, provider: map<string, Intent>)
    requires k in internal
    ensures Distinct(Compare(k, internal[k], provider))
    ensures forall d :: d in Compare(k, internal[k], provider) <==>
      IsDiscrepancy(internal, provider, d) && !d.MissingInternal? && d.providerId == k
  {
  }

  lemma {:induction false} CompareAllIsExact(keys: seq<string>, internal: map<string, Row>, provider: map<string, Intent>)
    requires Distinct(keys) && forall k | k in keys :: k in internal
    ensures Distinct(CompareAll(keys, internal, provider))
    ensures forall d :: d in CompareAll(keys, internal, provider) <==>
      IsDiscrepancy(internal, provider, d) && !d.MissingInternal? && d.providerId in keys
  {
    if keys != [] {
      var front, k := keys[..|keys| - 1], keys[|keys| - 1];
      assert keys == front + [k];
      CompareAllIsExact(front, internal, provider);
      var a, b := CompareAll(front, internal, provider), Compare(k, internal[k], provider);
      forall d | d in a ensures d.providerId != k {
        var i :| 0 <= i < |front| && front[i] == d.providerId;
      }
      CompareIsExact(k, internal, provider);
    }
  }

  lemma {:induction false} UnknownIsExact(keys: seq<string>, internal: map<string, Row>, provider: map<string, Intent>)
    requires Distinct(keys) && forall k | k in keys :: k in provider
    ensures Distinct(Unknown(keys, internal))
    ensures forall d :: d in Unknown(keys, internal) <==>
      IsDiscrepancy(internal, provider, d) && d.MissingInternal? && d.providerId in keys
  {
    if keys != [] {
      var front, k := keys[..|keys| - 1], keys[|keys| - 1];
      assert keys == front + [k];
      UnknownIsExact(front, internal, provider);
    }
  }

  /** Soundness and completeness: every discrepancy of the two maps is listed, nothing else is, and nothing twice. */
  lemma {:induction false} DiffIsExact(internal: Dict<Row>, provider: Dict<Intent>)
    requires WellFormed(internal) && WellFormed(provider)
    ensures Distinct(Diff(internal, provider))
    ensures forall d :: d in Diff(internal, provider) <==> IsDiscrepancy(internal.at, provider.at, d)
  {
    CompareAllIsExact(internal.order, internal.at, provider.at);
    UnknownIsExact(provider.order, internal.at, provider.at);
  }

  ghost function KeySet(keys: seq<string>): set<string> {
    set k | k in keys
  }

  lemma {:induction false} KeySetOfPush(front: seq<string>, k: string)
    requires Distinct(front + [k])
    ensures KeySet(front + [k]) == KeySet(front) + {k} && k !in KeySet(front)
  {
    var keys := front + [k];
    assert keys[|front|] == k;
    forall x | x in KeySet(front) ensures x in KeySet(keys) && x != k {
      var i :| 0 <= i < |front| && front[i] == x;
      assert keys[i] == x;
    }
  }

  lemma {:induction false} CountOneMore(before: set<string>, k: string, s: set<string>)
    requires k !in before
    ensures |(before + {k}) * s| == |before * s| + if k in s then 1 else 0
    ensures |(before + {k}) - s| == |before - s| + if k in s then 0 else 1
  {
    if k in s {
      assert (before + {k}) * s == before * s + {k} && (before + {k}) - s == before - s;
    } else {
      assert (before + {k}) * s == before * s && (before + {k}) - s == (before - s) + {k};
    }
  }

  lemma {:induction false} CompareAllLength(keys: seq<string>, internal: map<string, Row>, provider: map<string, Intent>)
    requires Distinct(keys) && forall k | k in keys :: k in internal
    ensures |CompareAll(keys, internal, provider)|
         == |KeySet(keys) - provider.Keys| + |KeySet(keys) * AmountMismatches(internal, provider)|
            + |KeySet(keys) * CurrencyMismatches(internal, provider)|
  {
    if keys != [] {
      var front, k := keys[..|keys| - 1], keys[|keys| - 1];
      assert keys == front + [k];
      CompareAllLength(front, internal, provider);
      KeySetOfPush(front, k);
      CountOneMore(KeySet(front), k, provider.Keys);
      CountOneMore(KeySet(front), k, AmountMismatches(internal, provider));
      CountOneMore(KeySet(front), k, CurrencyMismatches(internal, provider));
      CompareLength(k, internal, provider);
    }
  }

  lemma {:induction false} CompareLength(k: string, internal: map<string, Row>, provider: map<string, Intent>)
    requires k in internal
    ensures |Compare(k, internal[k], provider)|
         == (if k in provider.Keys then 0 else 1) + (if k in AmountMismatches(internal, provider) then 1 else 0)
            + (if k in CurrencyMismatches(internal, provider) then 1 else 0)
  {
  }

  lemma {:induction false} UnknownLength(keys: seq<string>, internal: map<string, Row>)
    requires Distinct(keys)
    ensures |Unknown(keys, internal)| == |KeySet(keys) - internal.Keys|
  {
    if keys != [] {
      var front, k := keys[..|keys| - 1], keys[|keys| - 1];
      assert keys == front + [k];
      UnknownLength(front, internal);
      KeySetOfPush(front, k);
      CountOneMore(KeySet(front), k, internal.Keys);
    }
  }

  lemma {:induction false} NoDiscrepancies(i: map<string, Row>, p: map<string, Intent>)
    ensures (forall d :: !IsDiscrepancy(i, p, d)) <==>
      (i.Keys == p.Keys && forall k | k in i :: i[k].amount == p[k].amount && i[k].currency == p[k].currency)
  {
    if forall d :: !IsDiscrepancy(i, p, d) {
      forall k ensures k in i <==> k in p {
        if k in i { assert !IsDiscrepancy(i, p, MissingProvider(i[k].id, k)); }
        if k in p { assert !IsDiscrepancy(i, p, MissingInternal(k)); }
      }
      forall k | k in i ensures i[k].amount == p[k].amount && i[k].currency == p[k].currency {
        assert !IsDiscrepancy(i, p, AmountMismatch(i[k].id, k, i[k].amount, p[k].amount));
        assert !IsDiscrepancy(i, p, CurrencyMismatch(i[k].id, k, i[k].currency, p[k].currency));
      }
    }
  }

  /** One entry per key of I\P, of P\I, of A and of C. */
  lemma {:induction false} DiffLength(internal: Dict<Row>, provider: Dict<Intent>)
    requires WellFormed(internal) && WellFormed(provider)
    ensures
      var i, p := internal.at, provider.at;
      |Diff(internal, provider)| == |i.Keys - p.Keys| + |p.Keys - i.Keys|
                                    + |AmountMismatches(i, p)| + |CurrencyMismatches(i, p)|
  {
    var i, p := internal.at, provider.at;
    CompareAllLength(internal.order, i, p);
    UnknownLength(provider.order, i);
    OrderHoldsTheKeys(internal);
    OrderHoldsTheKeys(provider);
    InsideIsItself(i.Keys, AmountMismatches(i, p));
    InsideIsItself(i.Keys, CurrencyMismatches(i, p));
  }

  lemma OrderHoldsTheKeys<T>(d: Dict<T>)
    requires WellFormed(d)
    ensures KeySet(d.order) == d.at.Keys
  {
  }

  lemma InsideIsItself(a: set<string>, b: set<string>)
    requires b <= a
    ensures a * b == b
  {
  }

  /** The list is empty exactly when the maps have the same keys, amounts and currencies. */
  lemma {:induction false} EmptyDiffMeansAgreement(internal: Dict<Row>, provider: Dict<Intent>)
    requires WellFormed(internal) && WellFormed(provider)
    ensures Diff(internal, provider) == [] <==>
      (internal.at.Keys == provider.at.Keys
       && forall k | k in internal.at :: internal.at[k].amount == provider.at[k].amount
                                      && internal.at[k].currency == provider.at[k].currency)
  {
    DiffIsExact(internal, provider);
    NoDiscrepancies(internal.at, provider.at);
    if Diff(internal, provider) != [] {
      assert IsDiscrepancy(internal.at, provider.at, Diff(internal, provider)[0]);
    }
  }

  // ---------------------------------------------------------------------------------------
  // The counters
  // ---------------------------------------------------------------------------------------

  function Min(a: int, b: int): int { if a <= b then a else b }
  function Max(a: int, b: int): int { if a <= b then b else a }

  function MatchedCount(internal: Dict<Row>, provider: Dict<Intent>): int
    requires WellFormed(internal)
  {
    Max(0, Min(|internal.at|, |provider.at|) - |Diff(internal, provider)|)
  }

  /** How many keys are on both sides and agree in amount and currency. */
  function TrulyMatched(internal: map<string, Row>, provider: map<string, Intent>): int {
    |internal.Keys * provider.Keys| - |AmountMismatches(internal, provider) + CurrencyMismatches(internal, provider)|
  }

  // By how much the report undercounts before the floor at zero.
  function Undercount(internal: map<string, Row>, provider: map<string, Intent>): nat {
    Max(|internal.Keys - provider.Keys|, |provider.Keys - internal.Keys|)
    + |AmountMismatches(internal, provider) * CurrencyMismatches(internal, provider)|
  }

  // The reported value in terms of the two key sets and the two kinds of mismatch.
  lemma {:induction false} MatchedCountInNumbers(internal: Dict<Row>, provider: Dict<Intent>)
    requires WellFormed(internal) && WellFormed(provider)
    ensures
      var i, p := internal.at, provider.at;
      MatchedCount(internal, provider)
        == Max(0, Min(|i.Keys|, |p.Keys|) - (|i.Keys - p.Keys| + |p.Keys - i.Keys| + |AmountMismatches(i, p)| + |CurrencyMismatches(i, p)|))
  {
    DiffLength(internal, provider);
    assert |internal.at| == |internal.at.Keys| && |provider.at| == |provider.at.Keys|;
  }

  /** What the reported matched_count is worth: never too much, and right in exactly these cases. */
  lemma {:induction false} MatchedCountIsLow(internal: Dict<Row>, provider: Dict<Intent>)
    requires WellFormed(internal) && WellFormed(provider)
    ensures
      var i, p := internal.at, provider.at;
      && MatchedCount(internal, provider) == Max(0, TrulyMatched(i, p) - Undercount(i, p))
      && 0 <= MatchedCount(internal, provider) <= TrulyMatched(i, p)
      && (MatchedCount(internal, provider) == TrulyMatched(i, p) <==>
            TrulyMatched(i, p) == 0
            || (i.Keys == p.Keys && AmountMismatches(i, p) !! CurrencyMismatches(i, p)))
  {
    var i, p := internal.at, provider.at;
    var a, c := AmountMismatches(i, p), CurrencyMismatches(i, p);
    MatchedCountInNumbers(internal, provider);
    CountingSets(i.Keys, p.Keys, a, c);
  }

  // The counters on the sets they count.
  lemma {:induction false} CountingSets(i: set<string>, p: set<string>, a: set<string>, c: set<string>)
    requires a + c <= i * p
    ensures
      var matched := |i * p| - |a + c|;
      var reported := Max(0, Min(|i|, |p|) - (|i - p| + |p - i| + |a| + |c|));
      && reported == Max(0, matched - (Max(|i - p|, |p - i|) + |a * c|))
      && 0 <= reported <= matched
      && (reported == matched <==> matched == 0 || (i == p && a !! c))
  {
    CountParts(i, p, a, c);
    Counting(|i * p|, |i - p|, |p - i|, |a|, |c|, |a * c|);
  }

  // The arithmetic of the counters: `both`, `left` and `right` count keys, the others mismatches.
  lemma Counting(both: nat, left: nat, right: nat, a: nat, c: nat, ac: nat)
    requires ac <= a && ac <= c && a + c - ac <= both
    ensures
      var matched := both - (a + c - ac);
      var reported := Max(0, Min(both + left, both + right) - (left + right + a + c));
      && reported == Max(0, matched - (Max(left, right) + ac))
      && 0 <= reported <= matched
      && (reported == matched <==> matched == 0 || (left == 0 && right == 0 && ac == 0))
  {
  }

  lemma {:induction false} CountParts(i: set<string>, p: set<string>, a: set<string>, c: set<string>)
    requires a + c <= i * p
    ensures |i| == |i * p| + |i - p| && |p| == |i * p| + |p - i|
    ensures |a + c| == |a| + |c| - |a * c| && |a * c| <= |a| && |a * c| <= |c|
    ensures |a + c| <= |i * p|
    ensures i == p <==> |i - p| == 0 && |p - i| == 0
    ensures a !! c <==> |a * c| == 0
  {
    assert i == i * p + (i - p) && p == i * p + (p - i);
    assert i * p == (a + c) + (i * p - (a + c));
    assert a == a * c + (a - c) && c == a * c + (c - a);
    if |i - p| == 0 && |p - i| == 0 {
      assert i - p == {} && p - i == {};
      forall k ensures k in i <==> k in p {
        assert k !in i - p && k !in p - i;
      }
    }
  }

  // Of two payments the provider knows one, and agrees on it.
  lemma {:induction false} OneKnownOfTwo(internal: Dict<Row>, provider: Dict<Intent>, a: string, b: string)
    requires WellFormed(internal) && WellFormed(provider)
    requires a != b && internal.at.Keys == {a, b} && provider.at.Keys == {a}
    requires internal.at[a].amount == provider.at[a].amount && internal.at[a].currency == provider.at[a].currency
    ensures TrulyMatched(internal.at, provider.at) == 1 && MatchedCount(internal, provider) == 0
  {
    var i, p := internal.at, provider.at;
    assert i.Keys * p.Keys == {a} && i.Keys - p.Keys == {b};
    assert AmountMismatches(i, p) == {} && CurrencyMismatches(i, p) == {};
    MatchedCountIsLow(internal, provider);
  }

  lemma {:induction false} TwoRows(a: Row, b: Row, start: Time, end: Time)
    requires InternalIn(a, start, end) && InternalIn(b, start, end) && a.externalId != b.externalId
    ensures Internal([a, b], start, end).at == map[a.externalId.value := a, b.externalId.value := b]
  {
    assert [a, b][..1] == [a] && [a][..0] == [];
    assert Internal([a], start, end).at == map[a.externalId.value := a];
  }

  lemma {:induction false} OneIntent(pi: Intent, start: Time, end: Time)
    requires ProviderIn(pi, start, end)
    ensures ById(Matching([pi], start, end)).at == map[pi.id := pi]
  {
    assert [pi][..0] == [] && [] + [pi] == [pi];
  }

  /** One payment agrees and one is unknown to the provider: nothing is reported as matched. */
  lemma {:induction false} MatchedCountMisses() returns (rows: seq<Row>, intents: seq<Intent>)
    ensures
      var internal, provider := Internal(rows, 0, 1000000), ById(Matching(intents, 0, 1000000));
      && WellFormed(internal) && WellFormed(provider)
      && TrulyMatched(internal.at, provider.at) == 1 && MatchedCount(internal, provider) == 0
  {
    var a, b, pi := Row(0, Some("a"), 100, "EUR", 0), Row(1, Some("b"), 100, "EUR", 0), Intent("a", 100, "EUR", 0);
    rows, intents := [a, b], [pi];
    InternalIsWellFormed(rows, 0, 1000000);
    ByIdIsWellFormed(Matching(intents, 0, 1000000));
    TwoRows(a, b, 0, 1000000);
    OneIntent(pi, 0, 1000000);
    OneKnownOfTwo(Internal(rows, 0, 1000000), ById(Matching(intents, 0, 1000000)), "a", "b");
  }

  // ---------------------------------------------------------------------------------------
  // The run
  // ---------------------------------------------------------------------------------------

  method CollectInternal(rows: seq<Row>, start: Time, end: Time) returns (internalMap: Dict<Row>)
    ensures internalMap == Internal(rows, start, end)
  {
    internalMap := Dict([], map[]);
    for n := 0 to |rows|
      invariant internalMap == Internal(rows[..n], start, end)
    {
      assert rows[..n + 1][..n] == rows[..n];
      if InternalIn(rows[n], start, end) {
        internalMap := Put(internalMap, rows[n].externalId.value, rows[n]);
      }
    }
    assert rows[..|rows|] == rows;
  }

  method CompareKeys(keys: seq<string>, internal: map<string, Row>, provider: map<string, Intent>)
    returns (found: seq<Discrepancy>)
    requires forall k | k in keys :: k in internal
    ensures found == CompareAll(keys, internal, provider)
  {
    found := [];
    for n := 0 to |keys|
      invariant found == CompareAll(keys[..n], internal, provider)
    {
      ghost var before := found;
      assert keys[..n + 1][..n] == keys[..n];
      var extId := keys[n];
      var payment := internal[extId];
      if extId !in provider {
        found := found + [MissingProvider(payment.id, extId)];
      } else {
        var pi := provider[extId];
        if payment.amount != pi.amount {
          found := found + [AmountMismatch(payment.id, extId, payment.amount, pi.amount)];
        }
        if payment.currency != pi.currency {
          found := found + [CurrencyMismatch(payment.id, extId, payment.currency, pi.currency)];
        }
      }
      assert found == before + Compare(extId, payment, provider);
    }
    assert keys[..|keys|] == keys;
  }

  method FindUnknown(keys: seq<string>, internal: map<string, Row>) returns (found: seq<Discrepancy>)
    ensures found == Unknown(keys, internal)
  {
    found := [];
    for n := 0 to |keys|
      invariant found == Unknown(keys[..n], internal)
    {
      assert keys[..n + 1][..n] == keys[..n];
      if keys[n] !in internal {
        found := found + [MissingInternal(keys[n])];
      }
    }
    assert keys[..|keys|] == keys;
  }

  /** The provider call that raises is one the paging loop makes. */
  predicate FailsAt(failure: Option<nat>, intents: seq<Intent>, start: Time, end: Time, limit: nat)
    requires limit >= 1
  {
    failure.Some? && failure.value < Calls(|Matching(intents, start, end)|, limit)
  }

  datatype ReportStatus = InProgress | Completed | FailedRun

  // A row of reconciliation_reports.
  datatype Report = Report(
    dateRangeStart: Time,
    dateRangeEnd: Time,
    totalInternal: int,
    totalProvider: int,
    matchedCount: int,
    discrepancyCount: int,
    discrepancies: seq<Discrepancy>,
    status: ReportStatus,
    completedAt: Option<Time>)

  class ReconciliationReport {
    const dateRangeStart: Time
    const dateRangeEnd: Time
    var totalInternal: int
    var totalProvider: int
    var matchedCount: int
    var discrepancyCount: int
    var discrepancies: seq<Discrepancy>
    var status: ReportStatus
    var completedAt: Option<Time>

    constructor (start: Time, end: Time)
      ensures dateRangeStart == start && dateRangeEnd == end && status == InProgress
      ensures totalInternal == totalProvider == matchedCount == discrepancyCount == 0
      ensures discrepancies == [] && completedAt == None
    {
      dateRangeStart, dateRangeEnd := start, end;
      totalInternal, totalProvider, matchedCount, discrepancyCount := 0, 0, 0, 0;
      discrepancies, status, completedAt := [], InProgress, None;
    }

    function Value(): Report
      reads this
    {
      Report(dateRangeStart, dateRangeEnd, totalInternal, totalProvider, matchedCount, discrepancyCount,
             discrepancies, status, completedAt)
    }

    // The report of a completed comparison of the two maps.
    ghost predicate Reports(internal: Dict<Row>, provider: Dict<Intent>)
      requires WellFormed(internal)
      reads this
    {
      && status == Completed
      && totalInternal == |internal.at| && totalProvider == |provider.at|
      && discrepancies == Diff(internal, provider) && discrepancyCount == |Diff(internal, provider)|
      && matchedCount == MatchedCount(internal, provider)
    }

    /** The comparing half of run_reconciliation. */
    method Complete(internalMap: Dict<Row>, providerMap: Dict<Intent>, now: Time)
      requires WellFormed(internalMap)
      modifies this
      ensures Reports(internalMap, providerMap) && completedAt == Some(now)
    {
      var compared := CompareKeys(internalMap.order, internalMap.at, providerMap.at);
      var unknown := FindUnknown(providerMap.order, internalMap.at);
      var found := compared + unknown;
      totalInternal := |internalMap.at|;
      totalProvider := |providerMap.at|;
      // A first formula is assigned and overwritten.
      var i, p := internalMap.at.Keys, providerMap.at.Keys;
      matchedCount := |i| + |p| - |found| - |(i - p) + (p - i)|;
      matchedCount := Max(0, Min(|internalMap.at|, |providerMap.at|) - |found|);
      discrepancyCount := |found|;
      discrepancies := found;
      status := Completed;
      completedAt := Some(now);
    }

    /** run_reconciliation over the given tables. */
    method Run(rows: seq<Row>, intents: seq<Intent>, limit: nat, failure: Option<nat>, now: Time) returns (ok: bool)
      requires limit >= 1 && ProperList(intents)
      modifies this
      ensures ok <==> !FailsAt(failure, intents, dateRangeStart, dateRangeEnd, limit)
      ensures completedAt == Some(now)
      ensures WellFormed(Internal(rows, dateRangeStart, dateRangeEnd))
      ensures ok ==>
        Reports(Internal(rows, dateRangeStart, dateRangeEnd), ById(Matching(intents, dateRangeStart, dateRangeEnd)))
      ensures !ok ==> (status == FailedRun
        && totalInternal == old(totalInternal) && totalProvider == old(totalProvider)
        && matchedCount == old(matchedCount) && discrepancyCount == old(discrepancyCount))
    {
      var internalMap := CollectInternal(rows, dateRangeStart, dateRangeEnd);
      InternalIsWellFormed(rows, dateRangeStart, dateRangeEnd);
      var fetched := FetchIntents(intents, dateRangeStart, dateRangeEnd, limit, failure);
      if fetched.Failure? {
        status, completedAt := FailedRun, Some(now);
        return false;
      }
      Complete(internalMap, fetched.value, now);
      return true;
    }
  }

  /** The row a completed run leaves. */
  function ReportOn(rows: seq<Row>, intents: seq<Intent>, start: Time, end: Time, now: Time): Report {
    InternalIsWellFormed(rows, start, end);
    var internal, provider := Internal(rows, start, end), ById(Matching(intents, start, end));
    var found := Diff(internal, provider);
    Report(start, end, |internal.at|, |provider.at|, MatchedCount(internal, provider), |found|, found, Completed, Some(now))
  }

  // The references of the rows in the range, and the ids of the intents.
  function References(rows: seq<Row>, start: Time, end: Time): set<string> {
    set r | r in rows && start <= r.createdAt < end && r.externalId.Some? && r.externalId.value != "" :: r.externalId.value
  }

  function Ids(intents: seq<Intent>, start: Time, end: Time): set<string> {
    set pi | pi in intents && Seconds(start) <= pi.created < Seconds(end) :: pi.id
  }

  /** The totals count references and ids in the range; without a discrepancy all are matched. */
  lemma {:induction false} ReportCounts(rows: seq<Row>, intents: seq<Intent>, start: Time, end: Time, now: Time)
    ensures
      var report := ReportOn(rows, intents, start, end, now);
      && report.dateRangeStart == start && report.dateRangeEnd == end && report.completedAt == Some(now)
      && report.totalInternal == |References(rows, start, end)| && report.totalProvider == |Ids(intents, start, end)|
      && report.discrepancyCount == |report.discrepancies|
      && (report.discrepancyCount == 0 ==> report.matchedCount == report.totalInternal == report.totalProvider)
  {
    var internal, provider := Internal(rows, start, end), ById(Matching(intents, start, end));
    InternalIsWellFormed(rows, start, end);
    ByIdIsWellFormed(Matching(intents, start, end));
    forall k ensures k in internal.at.Keys <==> k in References(rows, start, end) {
      InternalKeys(rows, start, end, k);
    }
    forall k ensures k in provider.at.Keys <==> k in Ids(intents, start, end) {
      ProviderKeys(intents, start, end, k);
    }
    assert internal.at.Keys == References(rows, start, end) && provider.at.Keys == Ids(intents, start, end);
    EmptyDiffMeansAgreement(internal, provider);
  }

  /** reconciliation_reports as every other session sees it. */
  class ReportTable {
    var reports: seq<Report>

    ghost predicate Valid()
      reads this
    {
      forall r | r in reports :: r.status == Completed && r.completedAt.Some? && r.discrepancyCount == |r.discrepancies|
    }

    constructor ()
      ensures Valid() && reports == []
    {
      reports := [];
    }

    /**
     One reconciliation in its session, by the route or by the daily job. A run that fails raises, so
     nothing is committed: the row it marked as failed is never seen.
     */
    method Reconcile(start: Time, end: Time, rows: seq<Row>, intents: seq<Intent>, limit: nat, failure: Option<nat>, now: Time)
      returns (ok: bool)
      requires Valid() && limit >= 1 && ProperList(intents)
      modifies this
      ensures Valid()
      ensures ok <==> !FailsAt(failure, intents, start, end, limit)
      ensures reports == old(reports) + if ok then [ReportOn(rows, intents, start, end, now)] else []
    {
      var report := new ReconciliationReport(start, end);
      ok := report.Run(rows, intents, limit, failure, now);
      var working := reports + [report.Value()];
      if ok {
        reports := working;
      }
    }
  }
}
