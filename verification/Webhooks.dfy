/**
 The event state machine of webhook_service: the transition table and the seven handlers.
 A handler is a function from the tables it reads to the effect it has, so that the effect can
 be applied at once or, under concurrency, to tables that have moved on.
 */
module Webhooks {
  import opened Prelude
  import opened Ledger

  datatype Event = Event(
    id: string,
    kind: EventKind,
    paymentRef: Option<string>,
    refundRef: Option<string>,
    failureCode: Option<string>,
    failureMessage: Option<string>)

  // MultipleResults is what scalar_one_or_none raises on an ambiguous reference.
  datatype Error =
    | PaymentNotFound
    | PaymentNotCancelable
    | PaymentNotRefundable
    | RefundExceedsAmount
    | ProviderFailed
    | MultipleResults
    | UniqueViolation

  /** VALID_TRANSITIONS; a status without an entry allows nothing. */
  function Targets(current: Status): set<Status> {
    match current
    case Pending => {Processing, RequiresAction, Succeeded, Failed, Canceled}
    case Processing => {Succeeded, Failed}
    case RequiresAction => {Succeeded, Failed, Canceled}
    case Succeeded => {Refunded, PartiallyRefunded, Disputed}
    case PartiallyRefunded => {Refunded, Disputed}
    case _ => {}
  }

  predicate CanTransition(current: Status, target: Status) {
    target in Targets(current)
  }

  // The columns of one payment row that a request assigns; None leaves the column alone.
  datatype Change = Change(
    status: Option<Status>,
    confirmedAt: Option<Time>,
    canceledAt: Option<Time>,
    failureCode: Option<Option<string>>,
    failureMessage: Option<Option<string>>)

  const KEEP := Change(None, None, None, None, None)

  /** Assigning a column the value it already has writes nothing. */
  function Dirty<T(==)>(old_: T, new_: T): Option<T> {
    if old_ == new_ then None else Some(new_)
  }

  function Amend(p: Payment, c: Change): Payment {
    p.(status := if c.status.Some? then c.status.value else p.status,
       confirmedAt := if c.confirmedAt.Some? then c.confirmedAt else p.confirmedAt,
       canceledAt := if c.canceledAt.Some? then c.canceledAt else p.canceledAt,
       failureCode := if c.failureCode.Some? then c.failureCode.value else p.failureCode,
       failureMessage := if c.failureMessage.Some? then c.failureMessage.value else p.failureMessage)
  }

  // What a handler does: nothing, or columns of one payment, at most one settled refund, audit entries.
  datatype Effect =
    | NoEffect
    | Effect(pid: nat, change: Change, settled: Option<nat>, log: seq<AuditEntry>)

  /** _dispatch_event: the handler of the event's kind, run on the tables of `db`. */
  function Handle(db: Db, event: Event, now: Time): Result<Effect, Error> {
    if event.kind.Unhandled? then Success(NoEffect)
    else
      match FindReference(PaymentIds(db.payments), event.paymentRef)
      case Missing => Success(NoEffect)
      case Many => Failure(MultipleResults)
      case One(pid) => HandleFor(db, event, pid, now)
  }

  /** Handlers read payments and refunds only. */
  lemma HandleIgnoresEvents(db: Db, events: map<string, EventRow>, event: Event, now: Time)
    ensures Handle(db.(events := events), event, now) == Handle(db, event, now)
  {
  }

  function HandleFor(db: Db, event: Event, pid: nat, now: Time): Result<Effect, Error>
    requires pid < |db.payments|
  {
    var p := db.payments[pid];
    match event.kind
    case PaymentSucceeded =>
      if !CanTransition(p.status, Succeeded) then Success(NoEffect)
      else Success(Effect(pid, KEEP.(status := Some(Succeeded), confirmedAt := Some(now)), None,
                          [AuditEntry(now, LogConfirmedViaWebhook, pid)]))
    case PaymentFailed =>
      if !CanTransition(p.status, Failed) then Success(NoEffect)
      else Success(Effect(pid, KEEP.(status := Some(Failed),
                                     failureCode := Dirty(p.failureCode, event.failureCode),
                                     failureMessage := Dirty(p.failureMessage, event.failureMessage)), None,
                          [AuditEntry(now, LogFailedViaWebhook(event.failureCode), pid)]))
    case PaymentCanceled =>
      if !CanTransition(p.status, Canceled) then Success(NoEffect)
      else Success(Effect(pid, KEEP.(status := Some(Canceled), canceledAt := Some(now)), None,
                          [AuditEntry(now, LogCanceledViaWebhook, pid)]))
    case PaymentProcessing =>
      Success(Effect(pid, MoveTo(p, Processing), None, []))
    case PaymentRequiresAction =>
      Success(Effect(pid, MoveTo(p, RequiresAction), None, []))
    case ChargeRefunded =>
      (match FindReference(RefundIds(db.refunds), event.refundRef)
       case Many => Failure(MultipleResults)
       case Missing => Success(RefundEffect(db, pid, None, now))
       case One(row) => Success(RefundEffect(db, pid, Some(row), now)))
    case DisputeCreated =>
      Success(Effect(pid, MoveTo(p, Disputed), None, [AuditEntry(now, LogDisputed, pid)]))
    case Unhandled(_) => Success(NoEffect)
  }

  function MoveTo(p: Payment, target: Status): Change {
    if CanTransition(p.status, target) then KEEP.(status := Some(target)) else KEEP
  }

  /** The handler of charge.refunded once its payment and its refund row, if any, are found. */
  function RefundEffect(db: Db, pid: nat, row: Option<nat>, now: Time): Effect
    requires pid < |db.payments|
  {
    var p := db.payments[pid];
    var total := RefundedAmount(Settle(db.refunds, row), pid);
    var target := if total >= p.amount then Refunded else PartiallyRefunded;
    Effect(pid, MoveTo(p, target), row, [AuditEntry(now, LogRefundCompletedViaWebhook(total), pid)])
  }

  /** The payments, refunds and audit log after an effect; the events are untouched. */
  function Apply(db: Db, e: Effect): Db
    requires e.Effect? ==> e.pid < |db.payments|
  {
    match e
    case NoEffect => db
    case Effect(pid, change, settled, log) =>
      db.(payments := db.payments[pid := Amend(db.payments[pid], change)],
          refunds := Settle(db.refunds, settled),
          audit := db.audit + log)
  }

  /** One event handled at once; a handler that raises leaves no trace after the rollback. */
  function React(db: Db, event: Event, now: Time): Db {
    match Handle(db, event, now)
    case Failure(_) => db
    case Success(e) => Apply(db, e)
  }
}
