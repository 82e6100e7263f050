/**
 What every other request does, case by case: which error it raises, what it sends to the provider, and
 the whole tables it leaves, alone and among any other requests.
 */
module RequestOutcomes {
  import opened Prelude
  import opened Ledger
  import opened Webhooks
  import opened Requests
  import opened Interleaving
  import opened Safety
  import opened Transitions
  import opened WebhookOutcomes

  /** Nothing is written, and the caller gets this error. */
  predicate Refused(db: Db, request: Request, reply: ProviderReply, now: Time, error: Error) {
    Serve(db, request, reply, now) == (Failure(error), db)
  }

  /** The request asks the provider this, under its own key. */
  predicate Asks(db: Db, request: Request, now: Time, key: string, call: Call) {
    var begun := Begin(db, request, now);
    begun.Proceed? && begun.txn.Calling? && begun.txn.key == key && begun.txn.call == call
  }

  // ---------------------------------------------------------------------------------------
  // create_payment
  // ---------------------------------------------------------------------------------------

  /** A key that one payment carries is answered with that payment. */
  lemma KnownKeyIsAnswered(db: Db, pid: nat, amount: int, currency: string, reply: ProviderReply, now: Time)
    requires pid < |db.payments|
    requires forall i | 0 <= i < |db.payments| && db.payments[i].idempotencyKey == db.payments[pid].idempotencyKey :: i == pid
    ensures Serve(db, CreatePayment(db.payments[pid].idempotencyKey, amount, currency), reply, now) == (Success(Some(pid)), db)
  {
    var keys := PaymentKeys(db.payments);
    assert keys[pid] == db.payments[pid].idempotencyKey;
  }

  /** A key that two payments carry, which the UNIQUE key rules out, raises. */
  lemma SharedKeyIsRefused(db: Db, i: nat, j: nat, amount: int, currency: string, reply: ProviderReply, now: Time)
    requires i < j < |db.payments| && db.payments[i].idempotencyKey == db.payments[j].idempotencyKey
    ensures Refused(db, CreatePayment(db.payments[i].idempotencyKey, amount, currency), reply, now, MultipleResults)
  {
    var keys := PaymentKeys(db.payments);
    assert keys[i] == keys[j] == db.payments[i].idempotencyKey;
  }

  /** A new key stores what the provider answered, whatever its status, under that key. */
  lemma {:induction false} NewKeyIsStored(db: Db, key: string, amount: int, currency: string, reply: ProviderReply, now: Time)
    requires forall p | p in db.payments :: p.idempotencyKey != key
    ensures
      var request := CreatePayment(key, amount, currency);
      && Asks(db, request, now, key, CreateIntent(amount, currency))
      && (reply.Unavailable? || reply.answer.RefundAnswer? ==> Refused(db, request, reply, now, ProviderFailed))
      && (reply.Answered? && reply.answer.IntentAnswer? ==>
            var pi := reply.answer;
            Serve(db, request, reply, now)
            == (Success(Some(|db.payments|)),
                Db(db.payments + [Payment(pi.id, pi.status, pi.amount, pi.currency, key, None, None, None, None)], db.refunds, db.events,
                   db.audit + [AuditEntry(now, LogPaymentCreated(pi.amount, pi.currency), |db.payments|)])))
  {
    var keys := PaymentKeys(db.payments);
    forall i | 0 <= i < |keys| ensures keys[i] != key {
      assert db.payments[i] in db.payments;
    }
  }

  /**
   create_payment among any other requests: if its key has a row by the time of the commit nothing
   changes; otherwise the row it stores has the answer's identifier and status and the amount and
   currency that were asked for.
   */
  lemma {:induction false} CreatedAmongOthers(s: Sys, tid: nat, key: string, amount: int, currency: string, at: Time,
                                               before: seq<Step>, answer: Answer, later: Time, more: seq<Step>)
    requires Reachable(s) && tid !in s.txns && key !in PaymentKeys(s.db.payments)
    requires AboutToCommit(Next(s, Start(tid, CreatePayment(key, amount, currency), at)), tid, before, answer, later, more)
    ensures
      var now_ := AtCommit(Next(s, Start(tid, CreatePayment(key, amount, currency), at)), tid, before, answer, later, more);
      && Enabled(now_, End(tid)) && answer.IntentAnswer?
      && Next(now_, End(tid)).db
         == if key in PaymentKeys(now_.db.payments) then now_.db
            else now_.db.(payments := now_.db.payments + [Payment(answer.id, answer.status, amount, currency, key, None, None, None, None)],
                          audit := now_.db.audit + [AuditEntry(later, LogPaymentCreated(amount, currency), |now_.db.payments|)])
  {
    ReachableIsSound(s);
    var start := Start(tid, CreatePayment(key, amount, currency), at);
    StepKeepsInv(s, start);
    AnswerStays(Next(s, start), tid, before, answer, later, more);
  }

  // ---------------------------------------------------------------------------------------
  // confirm_payment
  // ---------------------------------------------------------------------------------------

  /** Any payment can be confirmed: status and failure columns are the answer's, the stamp is set only on `succeeded`. */
  lemma {:induction false} ConfirmStores(db: Db, pid: nat, methodId: string, key: string, reply: ProviderReply, now: Time)
    ensures
      var request := ConfirmPayment(pid, methodId, key);
      && (pid >= |db.payments| ==> Refused(db, request, reply, now, PaymentNotFound))
      && (pid < |db.payments| ==> Asks(db, request, now, key, ConfirmIntent(db.payments[pid].externalId, methodId)))
      && (pid < |db.payments| && (reply.Unavailable? || reply.answer.RefundAnswer?) ==> Refused(db, request, reply, now, ProviderFailed))
      && (pid < |db.payments| && reply.Answered? && reply.answer.IntentAnswer? ==>
            var p, pi := db.payments[pid], reply.answer;
            Serve(db, request, reply, now)
            == (Success(Some(pid)),
                Db(db.payments[pid := p.(status := pi.status, failureCode := pi.failureCode, failureMessage := pi.failureMessage,
                                         confirmedAt := if pi.status == Succeeded then Some(now) else p.confirmedAt)],
                   db.refunds, db.events, db.audit + [AuditEntry(now, LogPaymentConfirmed(pi.status), pid)])))
  {
  }

  /**
   confirm_payment among any other requests overwrites exactly the columns whose answer differs from
   what it read, whatever others have stored there since.
   */
  lemma {:induction false} ConfirmedAmongOthers(s: Sys, tid: nat, pid: nat, methodId: string, key: string, at: Time,
                                                 before: seq<Step>, answer: Answer, later: Time, more: seq<Step>)
    requires Reachable(s) && tid !in s.txns && pid < |s.db.payments|
    requires AboutToCommit(Next(s, Start(tid, ConfirmPayment(pid, methodId, key), at)), tid, before, answer, later, more)
    ensures
      var now_ := AtCommit(Next(s, Start(tid, ConfirmPayment(pid, methodId, key), at)), tid, before, answer, later, more);
      && Enabled(now_, End(tid)) && answer.IntentAnswer? && pid < |now_.db.payments|
      && var p, q := s.db.payments[pid], now_.db.payments[pid];
         Next(now_, End(tid)).db
         == now_.db.(payments := now_.db.payments[pid := q.(
                       status := Overwritten(p.status, answer.status, q.status),
                       failureCode := Overwritten(p.failureCode, answer.failureCode, q.failureCode),
                       failureMessage := Overwritten(p.failureMessage, answer.failureMessage, q.failureMessage),
                       confirmedAt := if answer.status == Succeeded then Some(later) else q.confirmedAt)],
                     audit := now_.db.audit + [AuditEntry(later, LogPaymentConfirmed(answer.status), pid)])
  {
    ReachableIsSound(s);
    var start := Start(tid, ConfirmPayment(pid, methodId, key), at);
    StepKeepsInv(s, start);
    AnswerStays(Next(s, start), tid, before, answer, later, more);
  }

  // ---------------------------------------------------------------------------------------
  // cancel_payment
  // ---------------------------------------------------------------------------------------

  /** Exactly pending, requires_action and processing payments can be canceled; status and stamp are stored. */
  lemma {:induction false} CancelStores(db: Db, pid: nat, reason: Option<string>, key: string, reply: ProviderReply, now: Time)
    ensures
      var request := CancelPayment(pid, reason, key);
      && (pid >= |db.payments| ==> Refused(db, request, reply, now, PaymentNotFound))
      && (pid < |db.payments| ==>
            var p := db.payments[pid];
            if p.status != Pending && p.status != RequiresAction && p.status != Processing
            then Refused(db, request, reply, now, PaymentNotCancelable)
            else
              && Asks(db, request, now, key, CancelIntent(p.externalId, reason))
              && (reply.Unavailable? || reply.answer.RefundAnswer? ==> Refused(db, request, reply, now, ProviderFailed))
              && (reply.Answered? && reply.answer.IntentAnswer? ==>
                    Serve(db, request, reply, now)
                    == (Success(Some(pid)),
                        Db(db.payments[pid := p.(status := reply.answer.status, canceledAt := Some(now))],
                           db.refunds, db.events, db.audit + [AuditEntry(now, LogPaymentCanceled(reason), pid)]))))
  {
  }

  /** cancel_payment among any other requests: it stores `canceled` and the stamp over whatever is committed by then. */
  lemma {:induction false} CanceledAmongOthers(s: Sys, tid: nat, pid: nat, reason: Option<string>, key: string, at: Time,
                                                before: seq<Step>, answer: Answer, later: Time, more: seq<Step>)
    requires Reachable(s) && tid !in s.txns && pid < |s.db.payments|
    requires s.db.payments[pid].status in {Pending, RequiresAction, Processing}
    requires AboutToCommit(Next(s, Start(tid, CancelPayment(pid, reason, key), at)), tid, before, answer, later, more)
    ensures
      var now_ := AtCommit(Next(s, Start(tid, CancelPayment(pid, reason, key), at)), tid, before, answer, later, more);
      && Enabled(now_, End(tid)) && pid < |now_.db.payments|
      && Next(now_, End(tid)).db
         == now_.db.(payments := now_.db.payments[pid := now_.db.payments[pid].(status := Canceled, canceledAt := Some(later))],
                     audit := now_.db.audit + [AuditEntry(later, LogPaymentCanceled(reason), pid)])
  {
    ReachableIsSound(s);
    var start := Start(tid, CancelPayment(pid, reason, key), at);
    StepKeepsInv(s, start);
    var s1 := Next(s, start);
    assert TxnOk(s1.db, s1.memory, s1.txns[tid]);
    AnswerStays(s1, tid, before, answer, later, more);
  }

  // ---------------------------------------------------------------------------------------
  // create_refund
  // ---------------------------------------------------------------------------------------

  /** What can still be refunded of a payment: its amount less its succeeded refunds. */
  function Remaining(db: Db, pid: nat): int
    requires pid < |db.payments|
  {
    db.payments[pid].amount - RefundedAmount(db.refunds, pid)
  }

  /** Which error a refund request raises, if it raises one before asking the provider. */
  function RefundError(db: Db, pid: nat, requested: Option<int>): Option<Error> {
    if pid >= |db.payments| then Some(PaymentNotFound)
    else if db.payments[pid].status != Succeeded && db.payments[pid].status != PartiallyRefunded then Some(PaymentNotRefundable)
    else if requested.Some? && requested.value > Remaining(db, pid) then Some(RefundExceedsAmount)
    else None
  }

  /**
   Exactly succeeded and partially refunded payments can be refunded, up to what remains, which is
   also what a request without an amount asks for. The payment is not touched.
   */
  lemma {:induction false} RefundStores(db: Db, pid: nat, requested: Option<int>, reason: Option<string>, key: string,
                                        reply: ProviderReply, now: Time)
    ensures
      var request := CreateRefund(pid, requested, reason, key);
      match RefundError(db, pid, requested)
      case Some(error) => Refused(db, request, reply, now, error)
      case None =>
        var amount := if requested.Some? then requested.value else Remaining(db, pid);
        && Asks(db, request, now, key, CreateProviderRefund(db.payments[pid].externalId, amount, reason))
        && (reply.Unavailable? || reply.answer.IntentAnswer? ==> Refused(db, request, reply, now, ProviderFailed))
        && (reply.Answered? && reply.answer.RefundAnswer? ==>
              if exists r :: r in db.refunds && r.idempotencyKey == key then Refused(db, request, reply, now, UniqueViolation)
              else
                Serve(db, request, reply, now)
                == (Success(Some(|db.refunds|)),
                    Db(db.payments, db.refunds + [Refund(pid, reply.answer.id, amount, reason, reply.answer.refundStatus, key)], db.events,
                       db.audit + [AuditEntry(now, LogRefundCreated(pid, amount, reason), |db.refunds|)])))
  {
    var keys := RefundKeys(db.refunds);
    if key in keys {
      var i :| 0 <= i < |keys| && keys[i] == key;
      assert db.refunds[i] in db.refunds;
    } else {
      forall r | r in db.refunds ensures r.idempotencyKey != key {
        var i :| 0 <= i < |db.refunds| && db.refunds[i] == r;
        assert keys[i] == r.idempotencyKey;
      }
    }
  }
}
