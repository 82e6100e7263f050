/**
 Every request of the gateway, cut where another transaction can run in between: it reads the
 tables, it may call the provider, and it commits the columns it assigned. Nothing is locked;
 at commit only the UNIQUE keys are checked.
 */
module Requests {
  import opened Prelude
  import opened Ledger
  import opened Webhooks

  datatype Request =
    | CreatePayment(key: string, amount: int, currency: string)
    | ConfirmPayment(pid: nat, methodId: string, key: string)
    | CancelPayment(pid: nat, cancelReason: Option<string>, key: string)
    | CreateRefund(pid: nat, refundAmount: Option<int>, reason: Option<string>, key: string)
    | DeliverWebhook(event: Event)

  // What is sent to the provider beside the idempotency key.
  datatype Call =
    | CreateIntent(amount: int, currency: string)
    | ConfirmIntent(intentId: string, methodId: string)
    | CancelIntent(intentId: string, reason: Option<string>)
    | CreateProviderRefund(intentId: string, amount: int, reason: Option<string>)

  datatype Answer =
    | IntentAnswer(id: string, status: Status, amount: int, currency: string,
                   failureCode: Option<string>, failureMessage: Option<string>)
    | RefundAnswer(id: string, refundStatus: RefundStatus)

  // What a request does with the provider's answer; `counted` are the refund rows its guard subtracted.
  datatype Continuation =
    | AddPayment
    | Confirm(pid: nat, seen: Payment)
    | Cancel(pid: nat, seen: Payment, cancelReason: Option<string>)
    | AddRefund(pid: nat, amount: int, reason: Option<string>, counted: set<nat>)

  // What a request wants to commit.
  datatype Plan =
    | InsertPayment(row: Payment, at: Time)
    | UpdatePayment(pid: nat, change: Change, entry: AuditEntry)
    | InsertRefund(refund: Refund, counted: set<nat>, at: Time)
    | RecordEvent(eventId: string, eventRow: EventRow, reused: bool, effect: Effect)

  datatype Txn =
    | Calling(key: string, call: Call, next: Continuation)
    | Ready(plan: Plan)

  // The outcome of the reading part of a request.
  datatype Outcome =
    | Reply(row: Option<nat>)   // answered from the tables, nothing to write
    | Raise(error: Error)       // rolled back
    | Proceed(txn: Txn)

  const CANCELABLE_STATUSES: set<Status> := {Pending, RequiresAction, Processing}
  const REFUNDABLE_STATUSES: set<Status> := {Succeeded, PartiallyRefunded}

  function Begin(db: Db, request: Request, now: Time): Outcome {
    match request
    case CreatePayment(key, amount, currency) =>
      (match Find(PaymentKeys(db.payments), key)
       case One(pid) => Reply(Some(pid))
       case Many => Raise(MultipleResults)
       case Missing => Proceed(Calling(key, CreateIntent(amount, currency), AddPayment)))
    case ConfirmPayment(pid, methodId, key) =>
      if pid >= |db.payments| then Raise(PaymentNotFound)
      else
        var p := db.payments[pid];
        Proceed(Calling(key, ConfirmIntent(p.externalId, methodId), Confirm(pid, p)))
    case CancelPayment(pid, reason, key) =>
      if pid >= |db.payments| then Raise(PaymentNotFound)
      else
        var p := db.payments[pid];
        if p.status !in CANCELABLE_STATUSES then Raise(PaymentNotCancelable)
        else Proceed(Calling(key, CancelIntent(p.externalId, reason), Cancel(pid, p, reason)))
    case CreateRefund(pid, amount, reason, key) => BeginRefund(db, pid, amount, reason, key)
    case DeliverWebhook(event) => BeginWebhook(db, event, now)
  }

  function BeginRefund(db: Db, pid: nat, amount: Option<int>, reason: Option<string>, key: string): Outcome {
    if pid >= |db.payments| then Raise(PaymentNotFound)
    else
      var p := db.payments[pid];
      if p.status !in REFUNDABLE_STATUSES then Raise(PaymentNotRefundable)
      else
        var maxRefundable := p.amount - RefundedAmount(db.refunds, pid);
        if amount.Some? && amount.value > maxRefundable then Raise(RefundExceedsAmount)
        else
          var a := if amount.Some? then amount.value else maxRefundable;
          Proceed(Calling(key, CreateProviderRefund(p.externalId, a, reason),
                          AddRefund(pid, a, reason, SettledRowsOf(db.refunds, pid))))
  }

  function BeginWebhook(db: Db, event: Event, now: Time): Outcome {
    var known := event.id in db.events;
    if known && db.events[event.id].processed then Reply(None)
    else
      match Handle(db, event, now)
      case Failure(error) => Raise(error)
      case Success(effect) =>
        var row := if known then db.events[event.id] else EventRow(event.kind, false, None, None, now);
        Proceed(Ready(RecordEvent(event.id, row.(processed := true, processedAt := Some(now), processingError := None),
                                  known, effect)))
  }

  /** The provider has answered: what is left to commit. */
  function Continue(key: string, next: Continuation, answer: Answer, now: Time): Result<Plan, Error> {
    match next
    case AddPayment =>
      if !answer.IntentAnswer? then Failure(ProviderFailed)
      else Success(InsertPayment(Payment(answer.id, answer.status, answer.amount, answer.currency, key,
                                         None, None, None, None), now))
    case Confirm(pid, seen) =>
      if !answer.IntentAnswer? then Failure(ProviderFailed)
      else Success(UpdatePayment(pid, ConfirmChange(seen, answer, now),
                                 AuditEntry(now, LogPaymentConfirmed(answer.status), pid)))
    case Cancel(pid, seen, reason) =>
      if !answer.IntentAnswer? then Failure(ProviderFailed)
      else Success(UpdatePayment(pid, KEEP.(status := Dirty(seen.status, answer.status), canceledAt := Some(now)),
                                 AuditEntry(now, LogPaymentCanceled(reason), pid)))
    case AddRefund(pid, amount, reason, counted) =>
      if !answer.RefundAnswer? then Failure(ProviderFailed)
      else Success(InsertRefund(Refund(pid, answer.id, amount, reason, answer.refundStatus, key), counted, now))
  }

  function ConfirmChange(seen: Payment, answer: Answer, now: Time): Change
    requires answer.IntentAnswer?
  {
    Change(Dirty(seen.status, answer.status),
           if answer.status == Succeeded then Some(now) else None,
           None,
           Dirty(seen.failureCode, answer.failureCode),
           Dirty(seen.failureMessage, answer.failureMessage))
  }

  /** Commit against the tables as they are now; None is a constraint violation, which rolls back. */
  function Commit(db: Db, plan: Plan): Option<Db> {
    match plan
    case InsertPayment(row, at) =>
      if row.idempotencyKey in PaymentKeys(db.payments) then None
      else Some(db.(payments := db.payments + [row],
                    audit := db.audit + [AuditEntry(at, LogPaymentCreated(row.amount, row.currency), |db.payments|)]))
    case UpdatePayment(pid, change, entry) =>
      if pid >= |db.payments| then None
      else Some(Apply(db, Effect(pid, change, None, [entry])))
    case InsertRefund(row, _, at) =>
      if row.idempotencyKey in RefundKeys(db.refunds) || row.paymentId >= |db.payments| then None
      else Some(db.(refunds := db.refunds + [row],
                    audit := db.audit + [AuditEntry(at, LogRefundCreated(row.paymentId, row.amount, row.reason), |db.refunds|)]))
    case RecordEvent(eventId, row, reused, effect) =>
      if (eventId in db.events) != reused || (effect.Effect? && effect.pid >= |db.payments|) then None
      else Some(Apply(db, effect).(events := db.events[eventId := row]))
  }

  // The provider's side of one serial request: its answer, or any ProviderError.
  datatype ProviderReply = Answered(answer: Answer) | Unavailable

  /** A request run alone: its result for the caller and the tables after commit or rollback. */
  function Serve(db: Db, request: Request, reply: ProviderReply, now: Time): (r: (Result<Option<nat>, Error>, Db))
    ensures r.0.Failure? ==> r.1 == db
    ensures request.DeliverWebhook? ==> r == ServeWebhook(db, request.event, now)
  {
    match Begin(db, request, now)
    case Reply(row) => (Success(row), db)
    case Raise(error) => (Failure(error), db)
    case Proceed(Ready(plan)) => Finish(db, plan)
    case Proceed(Calling(key, call, next)) =>
      if reply.Unavailable? then (Failure(ProviderFailed), db)
      else
        match Continue(key, next, reply.answer, now)
        case Failure(error) => (Failure(error), db)
        case Success(plan) => Finish(db, plan)
  }

  function ServeWebhook(db: Db, event: Event, now: Time): (r: (Result<Option<nat>, Error>, Db)) {
    match BeginWebhook(db, event, now)
    case Reply(row) => (Success(row), db)
    case Raise(error) => (Failure(error), db)
    case Proceed(txn) => if txn.Ready? then Finish(db, txn.plan) else (Failure(ProviderFailed), db)
  }

  function Finish(db: Db, plan: Plan): (Result<Option<nat>, Error>, Db) {
    match Commit(db, plan)
    case None => (Failure(UniqueViolation), db)
    case Some(after) => (Success(Written(db, plan)), after)
  }

  /** The row a committed plan inserted or updated, which is what the service returns. */
  function Written(db: Db, plan: Plan): Option<nat> {
    match plan
    case InsertPayment(_, _) => Some(|db.payments|)
    case UpdatePayment(pid, _, _) => Some(pid)
    case InsertRefund(_, _, _) => Some(|db.refunds|)
    case RecordEvent(_, _, _, _) => None
  }

  /** cleanup_old_webhook_events */
  const RETENTION: Time := 90 * 86400 * 1000000

  function Cleanup(db: Db, now: Time): Db {
    db.(events := map id | id in db.events && !(db.events[id].processed && db.events[id].createdAt < now - RETENTION)
                    :: db.events[id])
  }
}
