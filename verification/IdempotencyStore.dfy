/**
 The TTL store of idempotency records: expired records go lazily, when their key is checked, or
 eagerly, when the cleanup job runs. Which of the two happens cannot be observed.
 */
module IdempotencyStore {
  import opened Prelude

  // requestHash stands for _hash_body, taken to be injective.
  datatype Record = Record(path: string, httpMethod: string, requestHash: string, status: int, response: string, expiresAt: Time)

  type Table = map<string, Record>

  datatype Checked = NoRecord | Cached(record: Record) | Conflict

  const HOUR: Time := 3600 * 1000000

  function Remove(table: Table, key: string): Table {
    map k | k in table && k != key :: table[k]
  }

  /** check_idempotency: its answer and the table after it. */
  function Check(table: Table, key: string, hash: string, now: Time): (Checked, Table) {
    if key !in table then (NoRecord, table)
    else if table[key].expiresAt < now then (NoRecord, Remove(table, key))
    else if table[key].requestHash != hash then (Conflict, table)
    else (Cached(table[key]), table)
  }

  /** store_idempotency; None is the violation of the UNIQUE key. */
  function Store(table: Table, key: string, record: Record): Option<Table> {
    if key in table then None else Some(table[key := record])
  }

  function Clean(table: Table, now: Time): Table {
    map k | k in table && table[k].expiresAt >= now :: table[k]
  }

  class IdempotencyService {
    var records: Table

    constructor ()
      ensures records == map[]
    {
      records := map[];
    }

    method CheckIdempotency(key: string, hash: string, now: Time) returns (r: Checked)
      modifies this
      ensures (r, records) == Check(old(records), key, hash, now)
    {
      if key !in records {
        return NoRecord;
      }
      var record := records[key];
      if record.expiresAt < now {
        records := map k | k in records && k != key :: records[k];
        return NoRecord;
      }
      if record.requestHash != hash {
        return Conflict;
      }
      return Cached(record);
    }

    method StoreIdempotency(key: string, path: string, httpMethod: string, hash: string, status: int, response: string,
                            now: Time, ttlHours: int := 24) returns (ok: bool)
      modifies this
      ensures
        var stored := Store(old(records), key, Record(path, httpMethod, hash, status, response, now + ttlHours * HOUR));
        ok == stored.Some? && records == if ok then stored.value else old(records)
    {
      var record := Record(path, httpMethod, hash, status, response, now + ttlHours * HOUR);
      if key in records {
        return false;
      }
      records := records[key := record];
      return true;
    }

    method CleanupExpired(now: Time) returns (count: nat)
      modifies this
      ensures records == Clean(old(records), now)
      ensures count == |set k | k in old(records) && old(records)[k].expiresAt < now|
      ensures |records| == |old(records)| - count
      ensures forall k :: k in records <==> k in old(records) && old(records)[k].expiresAt >= now
      ensures forall k | k in records :: records[k] == old(records)[k]
    {
      var expired := set k | k in records && records[k].expiresAt < now;
      count := |expired|;
      ghost var before := records.Keys;
      records := map k | k in records && records[k].expiresAt >= now :: records[k];
      assert before == records.Keys + expired;
    }
  }

  // ---------------------------------------------------------------------------------------
  // Traces
  // ---------------------------------------------------------------------------------------

  datatype Op =
    | DoCheck(key: string, hash: string, at: Time)
    | DoStore(key: string, record: Record, at: Time)
    | DoClean(at: Time)

  datatype Out = Answer(checked: Checked) | Stored | UniqueViolation

  function Step(table: Table, op: Op): (seq<Out>, Table) {
    match op
    case DoCheck(key, hash, at) => var (r, after) := Check(table, key, hash, at); ([Answer(r)], after)
    case DoStore(key, record, at) =>
      (match Store(table, key, record)
       case None => ([UniqueViolation], table)
       case Some(after) => ([Stored], after))
    case DoClean(at) => ([], Clean(table, at))
  }

  /** What the callers see along a trace. */
  function Outputs(table: Table, ops: seq<Op>): seq<Out>
    decreases |ops|
  {
    if ops == [] then []
    else var (out, after) := Step(table, ops[0]); out + Outputs(after, ops[1..])
  }

  function WithoutCleanups(ops: seq<Op>): seq<Op>
    decreases |ops|
  {
    if ops == [] then []
    else if ops[0].DoClean? then WithoutCleanups(ops[1..])
    else [ops[0]] + WithoutCleanups(ops[1..])
  }

  predicate InOrder(ops: seq<Op>, clock: Time)
    decreases |ops|
  {
    ops != [] ==> ops[0].at >= clock && InOrder(ops[1..], ops[0].at)
  }

  // The keys whose last check found nothing and which were not stored since.
  function Open(table: Table, open: set<string>, op: Op): set<string> {
    match op
    case DoCheck(key, hash, at) => if Check(table, key, hash, at).0.NoRecord? then open + {key} else open - {key}
    case DoStore(key, _, _) => open - {key}
    case DoClean(_) => open
  }

  /** Every store follows a check of its key that found nothing. */
  predicate Disciplined(table: Table, open: set<string>, ops: seq<Op>)
    decreases |ops|
  {
    ops != [] ==>
      && (ops[0].DoStore? ==> ops[0].key in open)
      && Disciplined(Step(table, ops[0]).1, Open(table, open, ops[0]), ops[1..])
  }

  // `swept` is what is left of `full` when cleanups ran: only expired records are gone.
  ghost predicate Swept(full: Table, swept: Table, open: set<string>, clock: Time) {
    && (forall k | k in swept :: k in full && full[k] == swept[k])
    && (forall k | k in full && k !in swept :: full[k].expiresAt < clock)
    && (forall k | k in open :: k !in full)
  }

  lemma {:induction false} SweptStep(full: Table, swept: Table, open: set<string>, clock: Time, op: Op)
    requires Swept(full, swept, open, clock) && op.at >= clock && !op.DoClean?
    requires op.DoStore? ==> op.key in open
    ensures Step(full, op).0 == Step(swept, op).0 && UniqueViolation !in Step(full, op).0
    ensures Swept(Step(full, op).1, Step(swept, op).1, Open(full, open, op), op.at)
  {
  }

  lemma {:induction false} CleanupIsUnobservableFrom(full: Table, swept: Table, open: set<string>, clock: Time, ops: seq<Op>)
    requires Swept(full, swept, open, clock) && InOrder(ops, clock)
    requires Disciplined(full, open, WithoutCleanups(ops))
    ensures Outputs(swept, ops) == Outputs(full, WithoutCleanups(ops))
    ensures UniqueViolation !in Outputs(swept, ops)
    decreases |ops|
  {
    if ops != [] {
      var op := ops[0];
      if op.DoClean? {
        CleanupIsUnobservableFrom(full, Clean(swept, op.at), open, op.at, ops[1..]);
      } else {
        var rest := WithoutCleanups(ops)[1..];
        assert rest == WithoutCleanups(ops[1..]);
        SweptStep(full, swept, open, clock, op);
        CleanupIsUnobservableFrom(Step(full, op).1, Step(swept, op).1, Open(full, open, op), op.at, ops[1..]);
      }
    }
  }

  /**
   Cleanup is unobservable: with a clock that does not go back and every store preceded by a check
   that found nothing, cleanups anywhere in a trace change no answer, and no store is refused.
   */
  lemma {:induction false} CleanupIsUnobservable(ops: seq<Op>, clock: Time)
    requires InOrder(ops, clock) && Disciplined(map[], {}, WithoutCleanups(ops))
    ensures Outputs(map[], ops) == Outputs(map[], WithoutCleanups(ops))
    ensures UniqueViolation !in Outputs(map[], ops)
  {
    CleanupIsUnobservableFrom(map[], map[], {}, clock, ops);
  }

  /** A cleanup deletes exactly the records a check at that moment would not find, and leaves the others alone. */
  lemma CleanDeletesTheExpired(table: Table, key: string, hash: string, now: Time)
    ensures key in Clean(table, now) <==> !Check(table, key, hash, now).0.NoRecord?
    ensures key in Clean(table, now) ==> Clean(table, now)[key] == table[key]
  {
  }

  /** A check that finds nothing leaves the key free, one that finds a record leaves everything; no check touches another key. */
  lemma CheckFreesTheKey(table: Table, key: string, hash: string, now: Time, other: string)
    ensures
      var (r, after) := Check(table, key, hash, now);
      && (r.NoRecord? <==> key !in after)
      && (!r.NoRecord? ==> after == table)
      && (other != key ==> (other in after <==> other in table) && (other in table ==> after[other] == table[other]))
  {
  }

  /**
   The life of a stored response: from the store on, for as many hours as it was given and not a
   microsecond longer, the same body gets it and any other conflicts.
   */
  lemma {:induction false} StoredForItsHours(table: Table, key: string, record: Record, at: Time, ttlHours: int,
                                             ops: seq<Op>, hash: string, now: Time)
    requires key !in table && record.expiresAt == at + ttlHours * HOUR
    requires forall i | 0 <= i < |ops| :: ops[i].at <= record.expiresAt
    ensures Store(table, key, record).Some?
    ensures
      var r := Check(Final(Store(table, key, record).value, ops), key, hash, now).0;
      var alive := now <= at + ttlHours * 3600000000;
      r == if !alive then NoRecord else if hash == record.requestHash then Cached(record) else Conflict
  {
    ServedUntilExpiry(Store(table, key, record).value, ops, key, hash, now);
  }

  function Final(table: Table, ops: seq<Op>): Table
    decreases |ops|
  {
    if ops == [] then table else Final(Step(table, ops[0]).1, ops[1..])
  }

  lemma {:induction false} RecordSurvives(table: Table, ops: seq<Op>, key: string)
    requires key in table && forall i | 0 <= i < |ops| :: ops[i].at <= table[key].expiresAt
    ensures key in Final(table, ops) && Final(table, ops)[key] == table[key]
    decreases |ops|
  {
    if ops != [] {
      var after := Step(table, ops[0]).1;
      assert key in after && after[key] == table[key];
      RecordSurvives(after, ops[1..], key);
    }
  }

  /**
   A stored response is what every check of its key gets for the same body until it expires, and a
   conflict is what any other body gets, whatever happens to the table in between; after that it
   is gone.
   */
  lemma {:induction false} ServedUntilExpiry(table: Table, ops: seq<Op>, key: string, hash: string, now: Time)
    requires key in table && forall i | 0 <= i < |ops| :: ops[i].at <= table[key].expiresAt
    ensures
      var r := Check(Final(table, ops), key, hash, now).0;
      && (r == Cached(table[key]) <==> now <= table[key].expiresAt && hash == table[key].requestHash)
      && (r == Conflict <==> now <= table[key].expiresAt && hash != table[key].requestHash)
      && (r == NoRecord <==> now > table[key].expiresAt)
  {
    RecordSurvives(table, ops, key);
  }
}
