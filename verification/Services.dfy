/**
 The services in their own form: a database session whose tables are assigned step by step, and
 the commit-or-rollback rule of get_db around every request. Each request is proved to do to the
 committed tables exactly what `Requests.Serve` says.
 */
module Services {
  import opened Prelude
  import opened Ledger
  import opened Webhooks
  import opened Requests

  class Session {
    // The tables as this session sees them, flushed but uncommitted writes included.
    var payments: seq<Payment>
    var refunds: seq<Refund>
    var events: map<string, EventRow>
    var audit: seq<AuditEntry>
    // The tables every other session sees.
    var committed: Db

    ghost function Working(): Db
      reads this
    {
      Db(payments, refunds, events, audit)
    }

    constructor (db: Db)
      ensures committed == db && Working() == db
    {
      payments, refunds, events, audit := db.payments, db.refunds, db.events, db.audit;
      committed := db;
    }

    /** get_db: run one request, commit when it returns, roll back when it raises. */
    method Request(request: Request, reply: ProviderReply, now: Time) returns (r: Result<Option<nat>, Error>)
      requires Working() == committed
      modifies this
      ensures (r, committed) == Serve(old(committed), request, reply, now)
      ensures Working() == committed
    {
      match request {
      case CreatePayment(key, amount, currency) => r := CreatePayment(key, amount, currency, reply, now);
      case ConfirmPayment(pid, methodId, key) => r := ConfirmPayment(pid, methodId, key, reply, now);
      case CancelPayment(pid, reason, key) => r := CancelPayment(pid, reason, key, reply, now);
      case CreateRefund(pid, amount, reason, key) => r := CreateRefund(pid, amount, reason, key, reply, now);
      case DeliverWebhook(event) => r := ProcessWebhook(event, now);
      }
      if r.Success? {
        committed := Db(payments, refunds, events, audit);
      } else {
        payments, refunds, events, audit := committed.payments, committed.refunds, committed.events, committed.audit;
      }
    }

    method LogAction(action: Action, resourceId: nat, now: Time)
      modifies this`audit
      ensures audit == old(audit) + [AuditEntry(now, action, resourceId)]
    {
      audit := audit + [AuditEntry(now, action, resourceId)];
    }

    method ComputeRefundedAmount(pid: nat) returns (total: int)
      ensures total == RefundedAmount(refunds, pid)
    {
      total := 0;
      ghost var settled := SettledRowsOf(refunds, pid);
      for i := 0 to |refunds|
        invariant total == Sum(refunds[..i], settled)
      {
        assert refunds[..i + 1][..i] == refunds[..i];
        if refunds[i].paymentId == pid && refunds[i].status == RefundSucceeded {
          total := total + refunds[i].amount;
        }
      }
      assert refunds[..|refunds|] == refunds;
    }

    // -------------------------------------------------------------------------------------
    // payment_service and refund_service
    // -------------------------------------------------------------------------------------

    method CreatePayment(key: string, amount: int, currency: string, reply: ProviderReply, now: Time)
      returns (r: Result<Option<nat>, Error>)
      modifies this`payments, this`audit
      ensures r == Serve(old(Working()), Requests.CreatePayment(key, amount, currency), reply, now).0
      ensures r.Success? ==>
        Working() == Serve(old(Working()), Requests.CreatePayment(key, amount, currency), reply, now).1
    {
      var existing := Find(PaymentKeys(payments), key);
      if existing.One? {
        return Success(Some(existing.row));
      }
      if existing.Many? {
        return Failure(MultipleResults);
      }
      if reply.Unavailable? || !reply.answer.IntentAnswer? {
        return Failure(ProviderFailed);
      }
      var pi := reply.answer;
      var payment := Payment(pi.id, pi.status, pi.amount, pi.currency, key, None, None, None, None);
      var id := |payments|;
      payments := payments + [payment];
      LogAction(LogPaymentCreated(payment.amount, payment.currency), id, now);
      return Success(Some(id));
    }

    method ConfirmPayment(pid: nat, methodId: string, key: string, reply: ProviderReply, now: Time)
      returns (r: Result<Option<nat>, Error>)
      modifies this`payments, this`audit
      ensures r == Serve(old(Working()), Requests.ConfirmPayment(pid, methodId, key), reply, now).0
      ensures r.Success? ==>
        Working() == Serve(old(Working()), Requests.ConfirmPayment(pid, methodId, key), reply, now).1
    {
      if pid >= |payments| {
        return Failure(PaymentNotFound);
      }
      if reply.Unavailable? || !reply.answer.IntentAnswer? {
        return Failure(ProviderFailed);
      }
      var pi := reply.answer;
      payments := payments[pid := payments[pid].(status := pi.status)];
      if pi.status == Succeeded {
        payments := payments[pid := payments[pid].(confirmedAt := Some(now))];
      }
      payments := payments[pid := payments[pid].(failureCode := pi.failureCode, failureMessage := pi.failureMessage)];
      LogAction(LogPaymentConfirmed(payments[pid].status), pid, now);
      return Success(Some(pid));
    }

    method CancelPayment(pid: nat, reason: Option<string>, key: string, reply: ProviderReply, now: Time)
      returns (r: Result<Option<nat>, Error>)
      modifies this`payments, this`audit
      ensures r == Serve(old(Working()), Requests.CancelPayment(pid, reason, key), reply, now).0
      ensures r.Success? ==>
        Working() == Serve(old(Working()), Requests.CancelPayment(pid, reason, key), reply, now).1
    {
      if pid >= |payments| {
        return Failure(PaymentNotFound);
      }
      if payments[pid].status !in CANCELABLE_STATUSES {
        return Failure(PaymentNotCancelable);
      }
      if reply.Unavailable? || !reply.answer.IntentAnswer? {
        return Failure(ProviderFailed);
      }
      payments := payments[pid := payments[pid].(status := reply.answer.status)];
      payments := payments[pid := payments[pid].(canceledAt := Some(now))];
      LogAction(LogPaymentCanceled(reason), pid, now);
      return Success(Some(pid));
    }

    method CreateRefund(pid: nat, requested: Option<int>, reason: Option<string>, key: string,
                        reply: ProviderReply, now: Time)
      returns (r: Result<Option<nat>, Error>)
      modifies this`refunds, this`audit
      ensures r == Serve(old(Working()), Requests.CreateRefund(pid, requested, reason, key), reply, now).0
      ensures r.Success? ==>
        Working() == Serve(old(Working()), Requests.CreateRefund(pid, requested, reason, key), reply, now).1
    {
      if pid >= |payments| {
        return Failure(PaymentNotFound);
      }
      if payments[pid].status !in REFUNDABLE_STATUSES {
        return Failure(PaymentNotRefundable);
      }
      var alreadyRefunded := ComputeRefundedAmount(pid);
      var maxRefundable := payments[pid].amount - alreadyRefunded;
      var amount := maxRefundable;
      if requested.Some? {
        if requested.value > maxRefundable {
          return Failure(RefundExceedsAmount);
        }
        amount := requested.value;
      }
      if reply.Unavailable? || !reply.answer.RefundAnswer? {
        return Failure(ProviderFailed);
      }
      var refund := Refund(pid, reply.answer.id, amount, reason, reply.answer.refundStatus, key);
      // The flush raises on a UNIQUE key that is taken.
      if key in RefundKeys(refunds) {
        return Failure(UniqueViolation);
      }
      var id := |refunds|;
      refunds := refunds + [refund];
      LogAction(LogRefundCreated(pid, amount, reason), id, now);
      return Success(Some(id));
    }

    // -------------------------------------------------------------------------------------
    // webhook_service
    // -------------------------------------------------------------------------------------

    method ProcessWebhook(event: Event, now: Time) returns (r: Result<Option<nat>, Error>)
      modifies this`payments, this`refunds, this`events, this`audit
      ensures r == ServeWebhook(old(Working()), event, now).0
      ensures r.Success? ==> Working() == ServeWebhook(old(Working()), event, now).1
    {
      var known := event.id in events;
      if known && events[event.id].processed {
        return Success(None);
      }
      if !known {
        events := events[event.id := EventRow(event.kind, false, None, None, now)];
      }
      HandleIgnoresEvents(old(Working()), events, event, now);
      var outcome := DispatchEvent(event, now);
      if outcome.Failure? {
        events := events[event.id := events[event.id].(processingError := Some("error"))];
        return Failure(outcome.error);
      }
      events := events[event.id :=
        events[event.id].(processed := true, processedAt := Some(now), processingError := None)];
      return Success(None);
    }

    // What running the handler of `event` on `before` must have done.
    ghost predicate Handled(before: Db, event: Event, now: Time, r: Result<(), Error>)
      reads this
    {
      match Handle(before, event, now)
      case Failure(error) => r == Failure(error) && Working() == before
      case Success(e) => r == Success(()) && Working() == Apply(before, e)
    }

    method DispatchEvent(event: Event, now: Time) returns (r: Result<(), Error>)
      modifies this`payments, this`refunds, this`audit
      ensures Handled(old(Working()), event, now, r)
    {
      match event.kind
      case PaymentSucceeded => r := HandlePaymentSucceeded(event, now);
      case PaymentFailed => r := HandlePaymentFailed(event, now);
      case PaymentCanceled => r := HandlePaymentCanceled(event, now);
      case PaymentProcessing => r := HandleStatusOnly(event, Processing, now);
      case PaymentRequiresAction => r := HandleStatusOnly(event, RequiresAction, now);
      case ChargeRefunded => r := HandleChargeRefunded(event, now);
      case DisputeCreated => r := HandleDisputeCreated(event, now);
      case Unhandled(_) => r := Success(());
    }

    method HandlePaymentSucceeded(event: Event, now: Time) returns (r: Result<(), Error>)
      requires event.kind == PaymentSucceeded
      modifies this`payments, this`audit
      ensures Handled(old(Working()), event, now, r)
    {
      var found := FindReference(PaymentIds(payments), event.paymentRef);
      if found.Many? { return Failure(MultipleResults); }
      if found.Missing? { return Success(()); }
      var pid := found.row;
      if !CanTransition(payments[pid].status, Succeeded) { return Success(()); }
      payments := payments[pid := payments[pid].(status := Succeeded)];
      payments := payments[pid := payments[pid].(confirmedAt := Some(now))];
      LogAction(LogConfirmedViaWebhook, pid, now);
      return Success(());
    }

    method HandlePaymentFailed(event: Event, now: Time) returns (r: Result<(), Error>)
      requires event.kind == PaymentFailed
      modifies this`payments, this`audit
      ensures Handled(old(Working()), event, now, r)
    {
      var found := FindReference(PaymentIds(payments), event.paymentRef);
      if found.Many? { return Failure(MultipleResults); }
      if found.Missing? { return Success(()); }
      var pid := found.row;
      if !CanTransition(payments[pid].status, Failed) { return Success(()); }
      payments := payments[pid := payments[pid].(status := Failed)];
      payments := payments[pid := payments[pid].(failureCode := event.failureCode)];
      payments := payments[pid := payments[pid].(failureMessage := event.failureMessage)];
      LogAction(LogFailedViaWebhook(payments[pid].failureCode), pid, now);
      return Success(());
    }

    method HandlePaymentCanceled(event: Event, now: Time) returns (r: Result<(), Error>)
      requires event.kind == PaymentCanceled
      modifies this`payments, this`audit
      ensures Handled(old(Working()), event, now, r)
    {
      var found := FindReference(PaymentIds(payments), event.paymentRef);
      if found.Many? { return Failure(MultipleResults); }
      if found.Missing? { return Success(()); }
      var pid := found.row;
      if !CanTransition(payments[pid].status, Canceled) { return Success(()); }
      payments := payments[pid := payments[pid].(status := Canceled)];
      payments := payments[pid := payments[pid].(canceledAt := Some(now))];
      LogAction(LogCanceledViaWebhook, pid, now);
      return Success(());
    }

    /** The handlers of processing and requires_action, which differ in the target alone. */
    method HandleStatusOnly(event: Event, target: Status, now: Time) returns (r: Result<(), Error>)
      requires (event.kind == PaymentProcessing && target == Processing)
            || (event.kind == PaymentRequiresAction && target == RequiresAction)
      modifies this`payments
      ensures Handled(old(Working()), event, now, r)
    {
      var found := FindReference(PaymentIds(payments), event.paymentRef);
      if found.Many? { return Failure(MultipleResults); }
      if found.Missing? { return Success(()); }
      var pid := found.row;
      if CanTransition(payments[pid].status, target) {
        payments := payments[pid := payments[pid].(status := target)];
      }
      return Success(());
    }

    method HandleChargeRefunded(event: Event, now: Time) returns (r: Result<(), Error>)
      requires event.kind == ChargeRefunded
      modifies this`payments, this`refunds, this`audit
      ensures Handled(old(Working()), event, now, r)
    {
      var found := FindReference(PaymentIds(payments), event.paymentRef);
      if found.Many? { return Failure(MultipleResults); }
      if found.Missing? { return Success(()); }
      var pid := found.row;
      var refund := FindReference(RefundIds(refunds), event.refundRef);
      if refund.Many? { return Failure(MultipleResults); }
      if refund.One? {
        refunds := refunds[refund.row := refunds[refund.row].(status := RefundSucceeded)];
      }
      var totalRefunded := ComputeRefundedAmount(pid);
      var newStatus := PartiallyRefunded;
      if totalRefunded >= payments[pid].amount {
        newStatus := Refunded;
      }
      if CanTransition(payments[pid].status, newStatus) {
        payments := payments[pid := payments[pid].(status := newStatus)];
      }
      LogAction(LogRefundCompletedViaWebhook(totalRefunded), pid, now);
      return Success(());
    }

    method HandleDisputeCreated(event: Event, now: Time) returns (r: Result<(), Error>)
      requires event.kind == DisputeCreated
      modifies this`payments, this`audit
      ensures Handled(old(Working()), event, now, r)
    {
      var found := FindReference(PaymentIds(payments), event.paymentRef);
      if found.Many? { return Failure(MultipleResults); }
      if found.Missing? { return Success(()); }
      var pid := found.row;
      if CanTransition(payments[pid].status, Disputed) {
        payments := payments[pid := payments[pid].(status := Disputed)];
      }
      LogAction(LogDisputed, pid, now);
      return Success(());
    }

    // -------------------------------------------------------------------------------------
    // jobs/cleanup
    // -------------------------------------------------------------------------------------

    /** cleanup_old_webhook_events: delete the processed rows older than the retention, then commit. */
    method CleanupOldWebhookEvents(now: Time) returns (count: nat)
      requires Working() == committed
      modifies this`events, this`committed
      ensures committed == Cleanup(old(committed), now) && Working() == committed
      ensures count == |old(events)| - |events|
    {
      var cutoff := now - RETENTION;
      var before := events;
      events := map id | id in before && !(before[id].processed && before[id].createdAt < cutoff) :: before[id];
      assert events.Keys <= before.Keys;
      SubsetCardinality(events.Keys, before.Keys);
      count := |before| - |events|;
      committed := Db(payments, refunds, events, audit);
    }
  }
}
