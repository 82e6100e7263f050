/**
 What the provider's reports say about refunds: which references a verified event carries, and what
 becomes of a refund that is asked for and then reported.
 */
module RefundReports {
  import opened Prelude
  import opened Ledger
  import opened Webhooks
  import opened Requests
  import opened Interleaving
  import opened Safety

  // ---------------------------------------------------------------------------------------
  // From the provider's event to the gateway's
  // ---------------------------------------------------------------------------------------

  // The parts of a signed event that are read: its data object's id, payment_intent and last error.
  datatype RawEvent = RawEvent(
    id: string,
    eventType: string,
    objectId: Option<string>,
    paymentIntent: Option<string>,
    errorCode: Option<string>,
    errorMessage: Option<string>)

  function KindOf(eventType: string): EventKind {
    if eventType == "payment_intent.succeeded" then PaymentSucceeded
    else if eventType == "payment_intent.payment_failed" then PaymentFailed
    else if eventType == "payment_intent.canceled" then PaymentCanceled
    else if eventType == "payment_intent.processing" then PaymentProcessing
    else if eventType == "payment_intent.requires_action" then PaymentRequiresAction
    else if eventType == "charge.refunded" then ChargeRefunded
    else if eventType == "charge.dispute.created" then DisputeCreated
    else Unhandled(eventType)
  }

  // verify_webhook's choice of payment and refund reference, by prefixes of the event type.
  function References(raw: RawEvent): (Option<string>, Option<string>) {
    if "payment_intent" <= raw.eventType then (raw.objectId, None)
    else if "charge.refund" <= raw.eventType then (raw.paymentIntent, raw.objectId)
    else if "charge" <= raw.eventType then (raw.paymentIntent, None)
    else (None, None)
  }

  function Verified(raw: RawEvent): Event {
    var (paymentRef, refundRef) := References(raw);
    Event(raw.id, KindOf(raw.eventType), paymentRef, refundRef, raw.errorCode, raw.errorMessage)
  }

  /**
   A handled event names a refund only if it is charge.refunded, whose object is a charge: what it
   names is the charge. The events whose object is a refund are not handled.
   */
  lemma VerifiedReferences(raw: RawEvent)
    ensures
      var event := Verified(raw);
      && (event.kind == ChargeRefunded ==> event.refundRef == raw.objectId && event.paymentRef == raw.paymentIntent)
      && (event.kind != ChargeRefunded && !event.kind.Unhandled? ==> event.refundRef == None)
      && (event.kind == DisputeCreated ==> event.paymentRef == raw.paymentIntent)
      && (event.kind in {PaymentSucceeded, PaymentFailed, PaymentCanceled, PaymentProcessing, PaymentRequiresAction} ==>
            event.paymentRef == raw.objectId)
      && (raw.eventType in {"charge.refund.updated", "refund.updated"} ==> event.kind.Unhandled?)
  {
    var t := raw.eventType;
    if "payment_intent" <= t {
      assert t[0] == "payment_intent"[0] == 'p';
    } else if t == "charge.refunded" {
      assert t[..|"charge.refund"|] == "charge.refund";
    } else if "charge.refund" <= t {
      assert t[7] == "charge.refund"[7] == 'r';
    } else if t == "charge.dispute.created" {
      assert t[..|"charge"|] == "charge";
    }
    KindIsNamed(t);
  }

  lemma KindIsNamed(t: string)
    ensures KindOf(t) == ChargeRefunded ==> t == "charge.refunded"
    ensures KindOf(t) == DisputeCreated ==> t == "charge.dispute.created"
    ensures KindOf(t) in {PaymentSucceeded, PaymentFailed, PaymentCanceled, PaymentProcessing, PaymentRequiresAction} ==>
              "payment_intent." <= t
  {
  }

  // ---------------------------------------------------------------------------------------
  // A refund no event names
  // ---------------------------------------------------------------------------------------

  ghost predicate Settles(txn: Txn, row: nat) {
    txn.Ready? && txn.plan.RecordEvent? && txn.plan.effect.Effect? && txn.plan.effect.settled == Some(row)
  }

  lemma {:induction false} HandlersSettleWhatIsNamed(db: Db, event: Event, now: Time, row: nat)
    requires row < |db.refunds| && event.refundRef != Some(db.refunds[row].externalId)
    requires Begin(db, DeliverWebhook(event), now).Proceed?
    ensures !Settles(Begin(db, DeliverWebhook(event), now).txn, row)
  {
  }

  lemma {:induction false} StepLeavesRefund(s: Sys, step: Step, row: nat)
    requires Enabled(s, step) && row < |s.db.refunds|
    requires forall t | t in s.txns :: !Settles(s.txns[t], row)
    requires step.Start? && step.request.DeliverWebhook? ==> step.request.event.refundRef != Some(s.db.refunds[row].externalId)
    ensures row < |Next(s, step).db.refunds| && Next(s, step).db.refunds[row] == s.db.refunds[row]
    ensures forall t | t in Next(s, step).txns :: !Settles(Next(s, step).txns[t], row)
  {
    if step.Start? && step.request.DeliverWebhook? && Begin(s.db, step.request, step.now).Proceed? {
      HandlersSettleWhatIsNamed(s.db, step.request.event, step.now, row);
    }
  }

  /** A refund row no delivered event names by its identifier keeps the status the provider first answered, along any run. */
  lemma {:induction false} UnnamedRefundStays(s: Sys, steps: seq<Step>, row: nat)
    requires Legal(s, steps) && row < |s.db.refunds|
    requires forall t | t in s.txns :: !Settles(s.txns[t], row)
    requires forall i | 0 <= i < |steps| && steps[i].Start? && steps[i].request.DeliverWebhook? ::
      steps[i].request.event.refundRef != Some(s.db.refunds[row].externalId)
    ensures row < |Run(s, steps).db.refunds| && Run(s, steps).db.refunds[row] == s.db.refunds[row]
    decreases |steps|
  {
    if steps != [] {
      StepLeavesRefund(s, steps[0], row);
      UnnamedRefundStays(Next(s, steps[0]), steps[1..], row);
    }
  }

  // ---------------------------------------------------------------------------------------
  // A full refund, end to end
  // ---------------------------------------------------------------------------------------

  lemma {:induction false} OneIsFound(column: seq<string>, i: nat)
    requires Distinct(column) && i < |column|
    ensures Find(column, column[i]) == One(i)
  {
  }

  /** Settling a row adds its amount to what is refunded of its own payment, unless it counted already. */
  lemma {:induction false} SettlingAdds(refunds: seq<Refund>, row: nat, pid: nat)
    requires row < |refunds|
    ensures RefundedAmount(Settle(refunds, Some(row)), pid) == RefundedAmount(refunds, pid)
      + if refunds[row].paymentId == pid && refunds[row].status != RefundSucceeded then refunds[row].amount else 0
  {
    var before, after := SettledRowsOf(refunds, pid), SettledRowsOf(Settle(refunds, Some(row)), pid);
    SumDependsOnRows(refunds, after, Settle(refunds, Some(row)), after);
    if refunds[row].paymentId == pid && refunds[row].status != RefundSucceeded {
      assert after == before + {row};
      SumSplits(refunds, before, {row});
      SumOfOne(refunds, row);
    } else {
      assert after == before;
    }
  }

  // What asking for everything left inserts.
  function RestOf(db: Db, pid: nat, reason: Option<string>, key: string, answer: Answer): Refund
    requires pid < |db.payments| && answer.RefundAnswer?
  {
    Refund(pid, answer.id, db.payments[pid].amount - RefundedAmount(db.refunds, pid), reason, answer.refundStatus, key)
  }

  lemma {:induction false} FullRefundInsertsTheRest(db: Db, pid: nat, reason: Option<string>, key: string, answer: Answer, now: Time)
    requires Serve(db, CreateRefund(pid, None, reason, key), Answered(answer), now).0.Success?
    ensures pid < |db.payments| && db.payments[pid].status in REFUNDABLE_STATUSES && answer.RefundAnswer?
    ensures key !in RefundKeys(db.refunds)
    ensures
      var after := Serve(db, CreateRefund(pid, None, reason, key), Answered(answer), now).1;
      && after.payments == db.payments && after.events == db.events
      && after.refunds == db.refunds + [RestOf(db, pid, reason, key, answer)]
  {
  }

  // What delivering a charge.refunded event does to its payment and to the refunds.
  lemma {:induction false} ReportDecides(db: Db, pid: nat, event: Event, now: Time)
    requires pid < |db.payments| && db.payments[pid].status in REFUNDABLE_STATUSES
    requires event.kind == ChargeRefunded && event.id !in db.events
    requires FindReference(PaymentIds(db.payments), event.paymentRef) == One(pid)
    requires !FindReference(RefundIds(db.refunds), event.refundRef).Many?
    ensures
      var found := FindReference(RefundIds(db.refunds), event.refundRef);
      var after := ServeWebhook(db, event, now).1;
      && |after.payments| == |db.payments|
      && after.refunds == Settle(db.refunds, if found.One? then Some(found.row) else None)
      && after.payments[pid].status
         == if RefundedAmount(after.refunds, pid) >= db.payments[pid].amount then Refunded else PartiallyRefunded
  {
  }

  // The provider's identifier for a refund whose key has no row is in no row.
  lemma {:induction false} AnswerIsNew(s: Sys, key: string, call: Call, answer: Answer)
    requires Inv(s) && call.CreateProviderRefund? && Accepts(s.memory, key, call, answer)
    requires key !in RefundKeys(s.db.refunds)
    ensures answer.id != "" && answer.id !in RefundIds(s.db.refunds) && call.amount > 0
  {
    var ids, keys := RefundIds(s.db.refunds), RefundKeys(s.db.refunds);
    forall i | 0 <= i < |ids| ensures ids[i] != answer.id {
      assert RefundRowOk(s.db, s.memory, s.db.refunds[i]);
      assert keys[i] in s.memory && keys[i] != key;
    }
  }

  lemma {:induction false} PaymentIsFound(s: Sys, pid: nat)
    requires Reachable(s) && pid < |s.db.payments|
    ensures FindReference(PaymentIds(s.db.payments), Some(s.db.payments[pid].externalId)) == One(pid)
  {
    ReachableIsSound(s);
    assert PaymentOk(s.db, s.memory, pid);
    var ids := PaymentIds(s.db.payments);
    forall i, j | 0 <= i < j < |ids| ensures ids[i] != ids[j] {
      OneChargePerKey(s, i, j);
    }
    OneIsFound(ids, pid);
  }

  // The new row is found under its own identifier, and every other reference finds what it found before.
  lemma {:induction false} FoundWithNewRow(refunds: seq<Refund>, refund: Refund, reference: Option<string>)
    requires refund.externalId != "" && refund.externalId !in RefundIds(refunds)
    ensures FindReference(RefundIds(refunds + [refund]), reference)
         == if reference == Some(refund.externalId) then One(|refunds|) else FindReference(RefundIds(refunds), reference)
  {
    var ids := RefundIds(refunds + [refund]);
    assert ids[..|refunds|] == RefundIds(refunds);
  }

  lemma {:induction false} NoReferenceIsAmbiguous(s: Sys, reference: Option<string>)
    requires Reachable(s)
    ensures !FindReference(RefundIds(s.db.refunds), reference).Many?
  {
    var ids := RefundIds(s.db.refunds);
    forall i, j | 0 <= i < j < |ids| ensures ids[i] != ids[j] {
      OneRefundPerKey(s, i, j);
    }
  }

  /** The tables after a refund request and the webhook that reports it. */
  function AskAndReport(db: Db, pid: nat, reason: Option<string>, key: string, answer: Answer, event: Event, now: Time): Db {
    ServeWebhook(Serve(db, CreateRefund(pid, None, reason, key), Answered(answer), now).1, event, now).1
  }

  /** The reference names an older refund of the payment that had not succeeded and alone makes up for `rest`. */
  predicate OlderRefundCovers(db: Db, pid: nat, reference: Option<string>, rest: int) {
    var found := FindReference(RefundIds(db.refunds), reference);
    found.One? && db.refunds[found.row].paymentId == pid && db.refunds[found.row].status != RefundSucceeded
    && db.refunds[found.row].amount >= rest
  }

  // The sum a report leaves, by what its reference finds.
  lemma {:induction false} ReportedSum(refunds: seq<Refund>, rest: Refund, reference: Option<string>)
    requires rest.externalId != "" && rest.externalId !in RefundIds(refunds)
    ensures
      var pid := rest.paymentId;
      var older := FindReference(RefundIds(refunds), reference);
      var found := FindReference(RefundIds(refunds + [rest]), reference);
      RefundedAmount(Settle(refunds + [rest], if found.One? then Some(found.row) else None), pid)
        == RefundedAmount(refunds, pid)
           + (if rest.status == RefundSucceeded || reference == Some(rest.externalId) then rest.amount else 0)
           + (if older.One? && refunds[older.row].paymentId == pid && refunds[older.row].status != RefundSucceeded
              then refunds[older.row].amount else 0)
  {
    var found := FindReference(RefundIds(refunds + [rest]), reference);
    RefundedSums(refunds, rest, rest.paymentId);
    FoundWithNewRow(refunds, rest, reference);
    if found.One? {
      SettlingAdds(refunds + [rest], found.row, rest.paymentId);
    }
  }

  lemma {:induction false} RefundsArePositive(s: Sys)
    requires Reachable(s)
    ensures forall i | 0 <= i < |s.db.refunds| :: s.db.refunds[i].amount > 0
  {
    ReachableIsSound(s);
    forall i | 0 <= i < |s.db.refunds| ensures s.db.refunds[i].amount > 0 {
      assert RefundRowOk(s.db, s.memory, s.db.refunds[i]);
    }
  }

  // The tables after both, before the sum is worked out.
  lemma {:induction false} AskedAndReported(s: Sys, pid: nat, reason: Option<string>, key: string,
                                            answer: Answer, event: Event, now: Time)
    requires Reachable(s) && Begin(s.db, CreateRefund(pid, None, reason, key), now).Proceed?
    requires Accepts(s.memory, key, Begin(s.db, CreateRefund(pid, None, reason, key), now).txn.call, answer)
    requires Serve(s.db, CreateRefund(pid, None, reason, key), Answered(answer), now).0.Success?
    requires event.kind == ChargeRefunded && event.id !in s.db.events
    requires event.paymentRef == Some(s.db.payments[pid].externalId)
    ensures answer.RefundAnswer? && answer.id != "" && answer.id !in RefundIds(s.db.refunds)
    ensures
      var rest := RestOf(s.db, pid, reason, key, answer);
      var found := FindReference(RefundIds(s.db.refunds + [rest]), event.refundRef);
      var after := AskAndReport(s.db, pid, reason, key, answer, event, now);
      && rest.amount > 0 && |after.payments| == |s.db.payments|
      && after.refunds == Settle(s.db.refunds + [rest], if found.One? then Some(found.row) else None)
      && after.payments[pid].status
         == if RefundedAmount(after.refunds, pid) >= s.db.payments[pid].amount then Refunded else PartiallyRefunded
  {
    FullRefundInsertsTheRest(s.db, pid, reason, key, answer, now);
    ReachableIsSound(s);
    AnswerIsNew(s, key, Begin(s.db, CreateRefund(pid, None, reason, key), now).txn.call, answer);
    PaymentIsFound(s, pid);
    NoReferenceIsAmbiguous(s, event.refundRef);
    FoundWithNewRow(s.db.refunds, RestOf(s.db, pid, reason, key, answer), event.refundRef);
    ReportDecides(Serve(s.db, CreateRefund(pid, None, reason, key), Answered(answer), now).1, pid, event, now);
  }

  /**
   A refund with no amount asks for everything left. Once charge.refunded arrives for the payment, it
   is `refunded` if and only if the provider answered `succeeded` at once, or the event names the
   refund, or it names an older one as large that had not succeeded; otherwise it is `partially_refunded`, and an
   event that names no refund leaves every refund as it was.
   */
  lemma {:induction false} FullRefundEndsRefunded(s: Sys, pid: nat, reason: Option<string>, key: string,
                                                   answer: Answer, event: Event, now: Time)
    requires Reachable(s) && Begin(s.db, CreateRefund(pid, None, reason, key), now).Proceed?
    requires Accepts(s.memory, key, Begin(s.db, CreateRefund(pid, None, reason, key), now).txn.call, answer)
    requires Serve(s.db, CreateRefund(pid, None, reason, key), Answered(answer), now).0.Success?
    requires event.kind == ChargeRefunded && event.id !in s.db.events
    requires event.paymentRef == Some(s.db.payments[pid].externalId)
    ensures
      var rest := RestOf(s.db, pid, reason, key, answer);
      var after := AskAndReport(s.db, pid, reason, key, answer, event, now);
      var settled := answer.refundStatus == RefundSucceeded || event.refundRef == Some(answer.id);
      && |after.payments| == |s.db.payments|
      && (after.payments[pid].status == Refunded <==> settled || OlderRefundCovers(s.db, pid, event.refundRef, rest.amount))
      && (after.payments[pid].status != Refunded ==> after.payments[pid].status == PartiallyRefunded)
      && (FindReference(RefundIds(s.db.refunds), event.refundRef).Missing? ==>
            RefundedAmount(after.refunds, pid) == s.db.payments[pid].amount - if settled then 0 else rest.amount)
      && (FindReference(RefundIds(s.db.refunds), event.refundRef).Missing? && event.refundRef != Some(answer.id) ==>
            after.refunds == s.db.refunds + [rest])
  {
    AskedAndReported(s, pid, reason, key, answer, event, now);
    RefundsArePositive(s);
    FoundWithNewRow(s.db.refunds, RestOf(s.db, pid, reason, key, answer), event.refundRef);
    ReportedSum(s.db.refunds, RestOf(s.db, pid, reason, key, answer), event.refundRef);
  }

  /**
   With the event the gateway is really given, whose reference is the charge's identifier: unless
   some refund carries that identifier, a full refund ends `refunded` if and only if the provider
   answered `succeeded` at once.
   */
  lemma {:induction false} FullRefundReportedByItsCharge(s: Sys, pid: nat, reason: Option<string>, key: string,
                                                         answer: Answer, raw: RawEvent, now: Time)
    requires Reachable(s) && Begin(s.db, CreateRefund(pid, None, reason, key), now).Proceed?
    requires Accepts(s.memory, key, Begin(s.db, CreateRefund(pid, None, reason, key), now).txn.call, answer)
    requires Serve(s.db, CreateRefund(pid, None, reason, key), Answered(answer), now).0.Success?
    requires raw.eventType == "charge.refunded" && raw.id !in s.db.events
    requires raw.paymentIntent == Some(s.db.payments[pid].externalId)
    requires raw.objectId.Some? ==> raw.objectId.value !in RefundIds(s.db.refunds) + [answer.id]
    ensures
      var after := AskAndReport(s.db, pid, reason, key, answer, Verified(raw), now);
      && |after.payments| == |s.db.payments|
      && after.payments[pid].status == (if answer.refundStatus == RefundSucceeded then Refunded else PartiallyRefunded)
      && after.refunds == s.db.refunds + [RestOf(s.db, pid, reason, key, answer)]
  {
    VerifiedReferences(raw);
    FullRefundEndsRefunded(s, pid, reason, key, answer, Verified(raw), now);
  }
}
