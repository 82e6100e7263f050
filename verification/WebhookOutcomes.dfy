/**
 What every kind of signed event does, from its type string to the whole tables, in terms of the
 stored statuses alone.
 */
module WebhookOutcomes {
  import opened Prelude
  import opened Ledger
  import opened Webhooks
  import opened Requests
  import opened RefundReports

  /** The reference is that of payment `pid` and of no other. */
  ghost predicate Names(payments: seq<Payment>, reference: Option<string>, pid: nat) {
    && pid < |payments| && reference == Some(payments[pid].externalId) && payments[pid].externalId != ""
    && forall i | 0 <= i < |payments| && payments[i].externalId == payments[pid].externalId :: i == pid
  }

  lemma NamedIsFound(payments: seq<Payment>, reference: Option<string>, pid: nat)
    requires Names(payments, reference, pid)
    ensures FindReference(PaymentIds(payments), reference) == One(pid)
  {
    var ids := PaymentIds(payments);
    assert ids[pid] == payments[pid].externalId;
  }

  /** The outcome of a new event: it is acknowledged and recorded, payment `pid` becomes `p`, and so on. */
  predicate Becomes(db: Db, raw: RawEvent, kind: EventKind, now: Time, pid: nat, p: Payment, refunds: seq<Refund>, log: seq<AuditEntry>)
    requires pid < |db.payments|
  {
    ServeWebhook(db, Verified(raw), now)
    == (Success(None), Db(db.payments[pid := p], refunds, db.events[raw.id := EventRow(kind, true, Some(now), None, now)], db.audit + log))
  }

  // A handler's effect, committed with the event's row.
  lemma {:induction false} EffectBecomes(db: Db, raw: RawEvent, kind: EventKind, now: Time, pid: nat, p: Payment, refunds: seq<Refund>,
                                         log: seq<AuditEntry>)
    requires raw.id !in db.events && pid < |db.payments| && KindOf(raw.eventType) == kind && !kind.Unhandled?
    requires FindReference(PaymentIds(db.payments), Verified(raw).paymentRef) == One(pid)
    requires HandleFor(db, Verified(raw), pid, now).Success?
    requires var effect := HandleFor(db, Verified(raw), pid, now).value;
             if effect.Effect?
             then effect.pid == pid && Amend(db.payments[pid], effect.change) == p && Settle(db.refunds, effect.settled) == refunds && effect.log == log
             else p == db.payments[pid] && refunds == db.refunds && log == []
    ensures Becomes(db, raw, kind, now, pid, p, refunds, log)
  {
    assert db.payments[pid := db.payments[pid]] == db.payments && db.audit + [] == db.audit;
  }

  /** payment_intent.succeeded */
  lemma {:induction false} SucceededIsReported(db: Db, raw: RawEvent, now: Time, pid: nat)
    requires raw.eventType == "payment_intent.succeeded"
    requires raw.id !in db.events && Names(db.payments, raw.objectId, pid)
    ensures
      var p := db.payments[pid];
      var moves := p.status in {Pending, Processing, RequiresAction};
      Becomes(db, raw, PaymentSucceeded, now, pid,
              if moves then p.(status := Succeeded, confirmedAt := Some(now)) else p, db.refunds,
              if moves then [AuditEntry(now, LogConfirmedViaWebhook, pid)] else [])
  {
    var p := db.payments[pid];
    var moves := p.status in {Pending, Processing, RequiresAction};
    NamedIsFound(db.payments, raw.objectId, pid);
    VerifiedReferences(raw);
    EffectBecomes(db, raw, PaymentSucceeded, now, pid,
                  if moves then p.(status := Succeeded, confirmedAt := Some(now)) else p, db.refunds,
                  if moves then [AuditEntry(now, LogConfirmedViaWebhook, pid)] else []);
  }

  /** payment_intent.payment_failed */
  lemma {:induction false} FailedIsReported(db: Db, raw: RawEvent, now: Time, pid: nat)
    requires raw.eventType == "payment_intent.payment_failed"
    requires raw.id !in db.events && Names(db.payments, raw.objectId, pid)
    ensures
      var p := db.payments[pid];
      var moves := p.status in {Pending, Processing, RequiresAction};
      Becomes(db, raw, PaymentFailed, now, pid,
              if moves then p.(status := Failed, failureCode := raw.errorCode, failureMessage := raw.errorMessage) else p, db.refunds,
              if moves then [AuditEntry(now, LogFailedViaWebhook(raw.errorCode), pid)] else [])
  {
    var p := db.payments[pid];
    var moves := p.status in {Pending, Processing, RequiresAction};
    NamedIsFound(db.payments, raw.objectId, pid);
    VerifiedReferences(raw);
    EffectBecomes(db, raw, PaymentFailed, now, pid,
                  if moves then p.(status := Failed, failureCode := raw.errorCode, failureMessage := raw.errorMessage) else p, db.refunds,
                  if moves then [AuditEntry(now, LogFailedViaWebhook(raw.errorCode), pid)] else []);
  }

  // A column after a commit: the new value if it differs from the one read, else the committed one.
  function Overwritten<T(==)>(seen: T, wanted: T, committed: T): T {
    if wanted != seen then wanted else committed
  }

  /** The same read earlier and committed to tables that moved on: it overwrites exactly the columns it found different. */
  lemma {:induction false} FailedAmongOthers(read: Db, now_: Db, raw: RawEvent, at: Time, pid: nat)
    requires raw.eventType == "payment_intent.payment_failed"
    requires raw.id !in read.events && Names(read.payments, raw.objectId, pid) && pid < |now_.payments|
    requires read.payments[pid].status in {Pending, Processing, RequiresAction}
    ensures
      var begun := BeginWebhook(read, Verified(raw), at);
      && begun.Proceed? && begun.txn.Ready? && Commit(now_, begun.txn.plan).Some? == (raw.id !in now_.events)
      && (raw.id !in now_.events ==>
            var p, q := read.payments[pid], now_.payments[pid];
            Commit(now_, begun.txn.plan).value.payments
            == now_.payments[pid := q.(status := Failed,
                                       failureCode := Overwritten(p.failureCode, raw.errorCode, q.failureCode),
                                       failureMessage := Overwritten(p.failureMessage, raw.errorMessage, q.failureMessage))])
  {
    NamedIsFound(read.payments, raw.objectId, pid);
    VerifiedReferences(raw);
  }

  /** payment_intent.canceled */
  lemma {:induction false} CanceledIsReported(db: Db, raw: RawEvent, now: Time, pid: nat)
    requires raw.eventType == "payment_intent.canceled"
    requires raw.id !in db.events && Names(db.payments, raw.objectId, pid)
    ensures
      var p := db.payments[pid];
      var moves := p.status in {Pending, RequiresAction};
      Becomes(db, raw, PaymentCanceled, now, pid,
              if moves then p.(status := Canceled, canceledAt := Some(now)) else p, db.refunds,
              if moves then [AuditEntry(now, LogCanceledViaWebhook, pid)] else [])
  {
    var p := db.payments[pid];
    var moves := p.status in {Pending, RequiresAction};
    NamedIsFound(db.payments, raw.objectId, pid);
    VerifiedReferences(raw);
    EffectBecomes(db, raw, PaymentCanceled, now, pid,
                  if moves then p.(status := Canceled, canceledAt := Some(now)) else p, db.refunds,
                  if moves then [AuditEntry(now, LogCanceledViaWebhook, pid)] else []);
  }

  /** payment_intent.processing and payment_intent.requires_action: only a pending payment moves. */
  lemma {:induction false} WaitingIsReported(db: Db, raw: RawEvent, now: Time, pid: nat)
    requires raw.eventType == "payment_intent.processing" || raw.eventType == "payment_intent.requires_action"
    requires raw.id !in db.events && Names(db.payments, raw.objectId, pid)
    ensures
      var p := db.payments[pid];
      && (raw.eventType == "payment_intent.processing" ==>
            Becomes(db, raw, PaymentProcessing, now, pid, if p.status == Pending then p.(status := Processing) else p, db.refunds, []))
      && (raw.eventType == "payment_intent.requires_action" ==>
            Becomes(db, raw, PaymentRequiresAction, now, pid, if p.status == Pending then p.(status := RequiresAction) else p, db.refunds, []))
  {
    var p := db.payments[pid];
    NamedIsFound(db.payments, raw.objectId, pid);
    VerifiedReferences(raw);
    if raw.eventType == "payment_intent.processing" {
      EffectBecomes(db, raw, PaymentProcessing, now, pid, if p.status == Pending then p.(status := Processing) else p, db.refunds, []);
    } else {
      EffectBecomes(db, raw, PaymentRequiresAction, now, pid, if p.status == Pending then p.(status := RequiresAction) else p, db.refunds, []);
    }
  }

  /** charge.dispute.created */
  lemma {:induction false} DisputeIsReported(db: Db, raw: RawEvent, now: Time, pid: nat)
    requires raw.eventType == "charge.dispute.created"
    requires raw.id !in db.events && Names(db.payments, raw.paymentIntent, pid)
    ensures
      var p := db.payments[pid];
      Becomes(db, raw, DisputeCreated, now, pid,
              if p.status in {Succeeded, PartiallyRefunded} then p.(status := Disputed) else p, db.refunds,
              [AuditEntry(now, LogDisputed, pid)])
  {
    var p := db.payments[pid];
    NamedIsFound(db.payments, raw.paymentIntent, pid);
    VerifiedReferences(raw);
    EffectBecomes(db, raw, DisputeCreated, now, pid,
                  if p.status in {Succeeded, PartiallyRefunded} then p.(status := Disputed) else p, db.refunds,
                  [AuditEntry(now, LogDisputed, pid)]);
  }

  /** The reference is that of one refund and no other, or of none. */
  ghost predicate NamesRefund(refunds: seq<Refund>, reference: Option<string>, row: Option<nat>) {
    match row
    case None => reference.None? || reference.value == "" || forall i | 0 <= i < |refunds| :: refunds[i].externalId != reference.value
    case Some(r) =>
      && r < |refunds| && reference == Some(refunds[r].externalId) && refunds[r].externalId != ""
      && forall i | 0 <= i < |refunds| && refunds[i].externalId == refunds[r].externalId :: i == r
  }

  lemma NamedRefundIsFound(refunds: seq<Refund>, reference: Option<string>, row: Option<nat>)
    requires NamesRefund(refunds, reference, row)
    ensures FindReference(RefundIds(refunds), reference) == if row.Some? then One(row.value) else Missing
  {
    var ids := RefundIds(refunds);
    if row.Some? {
      assert ids[row.value] == refunds[row.value].externalId;
    }
  }

  /** The refunds after the named one, if any, is marked succeeded. */
  function WithSettled(refunds: seq<Refund>, row: Option<nat>): seq<Refund>
    requires row.Some? ==> row.value < |refunds|
  {
    if row.Some? then refunds[row.value := refunds[row.value].(status := RefundSucceeded)] else refunds
  }

  // The handler of charge.refunded on what it finds.
  lemma {:induction false} RefundHandled(db: Db, event: Event, now: Time, pid: nat, row: Option<nat>)
    requires event.kind == ChargeRefunded && pid < |db.payments| && NamesRefund(db.refunds, event.refundRef, row)
    ensures
      var p, refunds := db.payments[pid], WithSettled(db.refunds, row);
      var total := RefundedAmount(refunds, pid);
      var effect := RefundEffect(db, pid, row, now);
      && HandleFor(db, event, pid, now) == Success(effect)
      && effect.pid == pid && Settle(db.refunds, effect.settled) == refunds
      && effect.log == [AuditEntry(now, LogRefundCompletedViaWebhook(total), pid)]
      && Amend(p, effect.change) == Refundedness(p, total)
  {
    NamedRefundIsFound(db.refunds, event.refundRef, row);
  }

  /** What a report makes of a payment with `total` refunded: only succeeded and partially refunded ones move. */
  function Refundedness(p: Payment, total: int): Payment {
    if total >= p.amount && p.status in {Succeeded, PartiallyRefunded} then p.(status := Refunded)
    else if total < p.amount && p.status == Succeeded then p.(status := PartiallyRefunded)
    else p
  }

  /** charge.refunded: the sum that decides is the one with the named refund settled. */
  lemma {:induction false} RefundIsReported(db: Db, raw: RawEvent, now: Time, pid: nat, row: Option<nat>)
    requires raw.eventType == "charge.refunded"
    requires raw.id !in db.events && Names(db.payments, raw.paymentIntent, pid) && NamesRefund(db.refunds, raw.objectId, row)
    ensures
      var refunds := WithSettled(db.refunds, row);
      var total := RefundedAmount(refunds, pid);
      Becomes(db, raw, ChargeRefunded, now, pid, Refundedness(db.payments[pid], total), refunds,
              [AuditEntry(now, LogRefundCompletedViaWebhook(total), pid)])
  {
    var refunds := WithSettled(db.refunds, row);
    var total := RefundedAmount(refunds, pid);
    NamedIsFound(db.payments, raw.paymentIntent, pid);
    VerifiedReferences(raw);
    RefundHandled(db, Verified(raw), now, pid, row);
    EffectBecomes(db, raw, ChargeRefunded, now, pid, Refundedness(db.payments[pid], total), refunds,
                  [AuditEntry(now, LogRefundCompletedViaWebhook(total), pid)]);
  }

  /** Any other type is recorded and nothing else. */
  lemma {:induction false} OtherTypesAreRecorded(db: Db, raw: RawEvent, now: Time)
    requires raw.eventType !in {"payment_intent.succeeded", "payment_intent.payment_failed", "payment_intent.canceled",
                                "payment_intent.processing", "payment_intent.requires_action", "charge.refunded", "charge.dispute.created"}
    requires raw.id !in db.events
    ensures ServeWebhook(db, Verified(raw), now)
         == (Success(None), db.(events := db.events[raw.id := EventRow(Unhandled(raw.eventType), true, Some(now), None, now)]))
  {
  }

  /** So is an event about a payment the gateway does not have, or about none. */
  lemma {:induction false} OrphansAreRecorded(db: Db, raw: RawEvent, now: Time)
    requires raw.id !in db.events
    requires
      var reference := if "payment_intent" <= raw.eventType then raw.objectId else raw.paymentIntent;
      reference.None? || reference.value == "" || forall p | p in db.payments :: p.externalId != reference.value
    ensures ServeWebhook(db, Verified(raw), now)
         == (Success(None), db.(events := db.events[raw.id := EventRow(KindOf(raw.eventType), true, Some(now), None, now)]))
  {
    var ids := PaymentIds(db.payments);
    forall i | 0 <= i < |ids| ensures ids[i] == db.payments[i].externalId && db.payments[i] in db.payments {
    }
  }

  /** An event already processed is acknowledged and nothing changes, whatever it says this time. */
  lemma ProcessedIsDropped(db: Db, raw: RawEvent, now: Time)
    requires raw.id in db.events && db.events[raw.id].processed
    ensures ServeWebhook(db, Verified(raw), now) == (Success(None), db)
  {
  }

  // The tables without the row of one event.
  function Forget(db: Db, id: string): Db {
    db.(events := map k | k in db.events && k != id :: db.events[k])
  }

  /** A row that is known but not processed is handled as if it were new, and keeps its kind and creation time. */
  lemma {:induction false} UnprocessedIsRetried(db: Db, raw: RawEvent, now: Time)
    requires raw.id in db.events && !db.events[raw.id].processed
    ensures
      var (r, after) := ServeWebhook(db, Verified(raw), now);
      var (r', anew) := ServeWebhook(Forget(db, raw.id), Verified(raw), now);
      && r == r'
      && after == if r.Failure? then db
                  else anew.(events := db.events[raw.id := db.events[raw.id].(processed := true, processedAt := Some(now), processingError := None)])
  {
    HandleIgnoresEvents(db, Forget(db, raw.id).events, Verified(raw), now);
  }

  // Which reference a handled event looks its payment up by.
  lemma {:induction false} HandledReference(raw: RawEvent)
    requires !KindOf(raw.eventType).Unhandled?
    ensures Verified(raw).paymentRef == if "payment_intent" <= raw.eventType then raw.objectId else raw.paymentIntent
  {
    VerifiedReferences(raw);
  }

  lemma SharedIsMany(payments: seq<Payment>, i: nat, j: nat)
    requires i < j < |payments| && payments[i].externalId == payments[j].externalId != ""
    ensures FindReference(PaymentIds(payments), Some(payments[i].externalId)) == Many
  {
    var ids := PaymentIds(payments);
    assert ids[i] == ids[j] == payments[i].externalId;
  }

  /** A reference that two payments share makes the handler raise, and nothing changes. */
  lemma {:induction false} AmbiguousIsRefused(db: Db, raw: RawEvent, now: Time, i: nat, j: nat)
    requires raw.id !in db.events && !KindOf(raw.eventType).Unhandled?
    requires i < j < |db.payments| && db.payments[i].externalId == db.payments[j].externalId != ""
    requires (if "payment_intent" <= raw.eventType then raw.objectId else raw.paymentIntent) == Some(db.payments[i].externalId)
    ensures ServeWebhook(db, Verified(raw), now) == (Failure(MultipleResults), db)
  {
    HandledReference(raw);
    SharedIsMany(db.payments, i, j);
  }

  /** So does a charge.refunded whose refund reference two refunds share. */
  lemma {:induction false} AmbiguousRefundIsRefused(db: Db, raw: RawEvent, now: Time, pid: nat, i: nat, j: nat)
    requires raw.eventType == "charge.refunded" && raw.id !in db.events && Names(db.payments, raw.paymentIntent, pid)
    requires i < j < |db.refunds| && db.refunds[i].externalId == db.refunds[j].externalId != ""
    requires raw.objectId == Some(db.refunds[i].externalId)
    ensures ServeWebhook(db, Verified(raw), now) == (Failure(MultipleResults), db)
  {
    var ids := RefundIds(db.refunds);
    assert ids[i] == ids[j] == db.refunds[i].externalId;
    NamedIsFound(db.payments, raw.paymentIntent, pid);
    VerifiedReferences(raw);
  }

  /** What the cleanup keeps: every unprocessed row and every row of the last 90 days, as it was. */
  lemma CleanupKeeps(db: Db, now: Time, id: string)
    ensures
      var after := Cleanup(db, now);
      && after == db.(events := after.events)
      && (id in after.events <==>
            id in db.events && (!db.events[id].processed || db.events[id].createdAt >= now - 90 * 24 * 60 * 60 * 1000000))
      && (id in after.events ==> after.events[id] == db.events[id])
  {
  }
}
