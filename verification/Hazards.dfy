/**
 What the absence of row locks and the succeeded-only refund sum allow: concrete runs that show
 which stronger promises the gateway does not keep.
 */
module Hazards {
  import opened Prelude
  import opened Ledger
  import opened Webhooks
  import opened Requests
  import opened Interleaving
  import opened Safety
  import opened Transitions
  import opened RefundReports

  lemma {:induction false} OneMore(s: Sys, steps: seq<Step>, step: Step)
    requires Legal(s, steps) && Enabled(Run(s, steps), step)
    ensures Legal(s, steps + [step])
    ensures Run(s, steps + [step]) == Next(Run(s, steps), step)
    decreases |steps|
  {
    var all := steps + [step];
    if steps == [] {
      assert all[1..] == [];
      assert Legal(Next(s, step), []) && Run(Next(s, step), []) == Next(s, step);
    } else {
      assert all[1..] == steps[1..] + [step];
      OneMore(Next(s, steps[0]), steps[1..], step);
    }
  }

  const PAYMENT := CreatePayment("key", 100, "EUR")
  const INTENT := IntentAnswer("pi", Pending, 100, "EUR", None, None)

  function PaymentEvent(id: string, kind: EventKind): Event {
    Event(id, kind, Some("pi"), None, None, None)
  }

  lemma {:induction false} OnePayment(k: nat) returns (steps: seq<Step>)
    ensures Legal(EMPTY, steps) && Crowded(EMPTY, steps, k)
    ensures |Run(EMPTY, steps).db.payments| == 1
    ensures Run(EMPTY, steps).db.payments[0] == Payment("pi", Pending, 100, "EUR", "key", None, None, None, None)
    ensures Run(EMPTY, steps).db.refunds == [] && Run(EMPTY, steps).db.events == map[] && Run(EMPTY, steps).txns == map[]
    ensures Run(EMPTY, steps).memory.Keys == {"key"} && Run(EMPTY, steps).memory["key"].call.CreateIntent?
  {
    assert Legal(EMPTY, []) && Run(EMPTY, []) == EMPTY && Crowded(EMPTY, [], k);
    OneMore(EMPTY, [], Start(0, PAYMENT, 1));
    CrowdedOneMore(EMPTY, [], Start(0, PAYMENT, 1), k);
    steps := [] + [Start(0, PAYMENT, 1)];
    OneMore(EMPTY, steps, Reach(0, INTENT, 1));
    CrowdedOneMore(EMPTY, steps, Reach(0, INTENT, 1), k);
    steps := steps + [Reach(0, INTENT, 1)];
    OneMore(EMPTY, steps, End(0));
    CrowdedOneMore(EMPTY, steps, End(0), k);
    steps := steps + [End(0)];
  }

  // What reading the payment, alone in its table, makes of a webhook that sets its status.
  lemma {:induction false} WebhookIsRead(db: Db, event: Event, now: Time)
    requires |db.payments| == 1 && db.payments[0].externalId == "pi" && event.id !in db.events
    requires event.kind in {PaymentSucceeded, PaymentProcessing} && event.paymentRef == Some("pi")
    requires CanTransition(db.payments[0].status, if event.kind == PaymentSucceeded then Succeeded else Processing)
    ensures Begin(db, DeliverWebhook(event), now)
         == Proceed(Ready(RecordEvent(event.id, EventRow(event.kind, true, Some(now), None, now), false,
              if event.kind == PaymentSucceeded
              then Effect(0, KEEP.(status := Some(Succeeded), confirmedAt := Some(now)), None,
                          [AuditEntry(now, LogConfirmedViaWebhook, 0)])
              else Effect(0, KEEP.(status := Some(Processing)), None, []))))
  {
    assert PaymentIds(db.payments)[0] == "pi";
  }

  const PAID_EVENT := PaymentEvent("a", PaymentSucceeded)
  const PROCESSING_EVENT := PaymentEvent("b", PaymentProcessing)

  // Both webhooks have read the payment as `pending`; neither has committed.
  lemma {:induction false} BothHaveRead() returns (steps: seq<Step>)
    ensures Legal(EMPTY, steps)
    ensures
      var s := Run(EMPTY, steps);
      && s.db.payments == [Payment("pi", Pending, 100, "EUR", "key", None, None, None, None)]
      && s.db.refunds == [] && s.db.events == map[] && s.txns.Keys == {1, 2}
      && s.txns[1] == Ready(RecordEvent("a", EventRow(PaymentSucceeded, true, Some(2), None, 2), false,
           Effect(0, KEEP.(status := Some(Succeeded), confirmedAt := Some(2)), None, [AuditEntry(2, LogConfirmedViaWebhook, 0)])))
      && s.txns[2] == Ready(RecordEvent("b", EventRow(PaymentProcessing, true, Some(2), None, 2), false,
           Effect(0, KEEP.(status := Some(Processing)), None, [])))
  {
    steps := OnePayment(0);
    WebhookIsRead(Run(EMPTY, steps).db, PAID_EVENT, 2);
    WebhookIsRead(Run(EMPTY, steps).db, PROCESSING_EVENT, 2);
    OneMore(EMPTY, steps, Start(1, DeliverWebhook(PAID_EVENT), 2));
    steps := steps + [Start(1, DeliverWebhook(PAID_EVENT), 2)];
    OneMore(EMPTY, steps, Start(2, DeliverWebhook(PROCESSING_EVENT), 2));
    steps := steps + [Start(2, DeliverWebhook(PROCESSING_EVENT), 2)];
  }

  /**
   A lost update. Two webhooks read the payment as `pending`; `succeeded` commits first and
   `processing` overwrites it, a move the transition table forbids.
   */
  lemma {:induction false} StatusCanMoveBackwards() returns (steps: seq<Step>, last: Step)
    ensures Legal(EMPTY, steps + [last]) && last.End?
    ensures Legal(EMPTY, steps) && |Run(EMPTY, steps).db.payments| == |Run(EMPTY, steps + [last]).db.payments| == 1
    ensures Run(EMPTY, steps).db.payments[0].status == Succeeded
    ensures Run(EMPTY, steps + [last]).db.payments[0].status == Processing
    ensures !CanTransition(Succeeded, Processing)
  {
    steps := BothHaveRead();
    OneMore(EMPTY, steps, End(1));
    steps := steps + [End(1)];
    last := End(2);
    OneMore(EMPTY, steps, last);
  }

  const CONFIRM := ConfirmPayment(0, "card", "confirm")
  const STILL_PROCESSING := IntentAnswer("pi", Processing, 100, "EUR", None, None)

  // Confirmed with the answer `processing`.
  lemma {:induction false} Confirmed() returns (steps: seq<Step>)
    ensures Legal(EMPTY, steps)
    ensures
      var s := Run(EMPTY, steps);
      && s.db.payments == [Payment("pi", Processing, 100, "EUR", "key", None, None, None, None)]
      && s.db.refunds == [] && s.db.events == map[] && s.txns == map[]
      && "confirm" in s.memory && s.memory["confirm"] == Deal(ConfirmIntent("pi", "card"), STILL_PROCESSING)
  {
    steps := OnePayment(0);
    OneMore(EMPTY, steps, Start(1, CONFIRM, 2));
    steps := steps + [Start(1, CONFIRM, 2)];
    OneMore(EMPTY, steps, Reach(1, STILL_PROCESSING, 2));
    steps := steps + [Reach(1, STILL_PROCESSING, 2)];
    OneMore(EMPTY, steps, End(1));
    steps := steps + [End(1)];
  }

  // And then reported succeeded.
  lemma {:induction false} ConfirmedThenPaid() returns (steps: seq<Step>)
    ensures Legal(EMPTY, steps)
    ensures
      var s := Run(EMPTY, steps);
      && |s.db.payments| == 1 && s.db.payments[0].externalId == "pi" && s.db.payments[0].status == Succeeded
      && s.txns == map[] && "confirm" in s.memory
      && s.memory["confirm"] == Deal(ConfirmIntent("pi", "card"), STILL_PROCESSING)
  {
    steps := Confirmed();
    WebhookIsRead(Run(EMPTY, steps).db, PAID_EVENT, 3);
    OneMore(EMPTY, steps, Start(2, DeliverWebhook(PAID_EVENT), 3));
    steps := steps + [Start(2, DeliverWebhook(PAID_EVENT), 3)];
    OneMore(EMPTY, steps, End(2));
    steps := steps + [End(2)];
  }

  /**
   The same without any concurrency: a confirm replayed with its key, alone, gets the answer the
   provider gave the first time and stores `processing` over a `succeeded` reported in between.
   */
  lemma {:induction false} ReplayedConfirmMovesBackwards() returns (steps: seq<Step>, answer: Answer)
    ensures Legal(EMPTY, steps) && Run(EMPTY, steps).txns == map[] && |Run(EMPTY, steps).db.payments| == 1
    ensures Run(EMPTY, steps).db.payments[0].status == Succeeded
    ensures "confirm" in Run(EMPTY, steps).memory && Run(EMPTY, steps).memory["confirm"].answer == answer
    ensures
      var replayed := Serve(Run(EMPTY, steps).db, CONFIRM, Answered(answer), 4).1;
      |replayed.payments| == 1 && replayed.payments[0].status == Processing
      && LeavesTable(Run(EMPTY, steps).db, replayed, 0)
    ensures Legal(EMPTY, steps + Alone(Run(EMPTY, steps).db, 0, CONFIRM, answer, 4))
  {
    steps := ConfirmedThenPaid();
    answer := STILL_PROCESSING;
    ServingIsARun(Run(EMPTY, steps), 0, CONFIRM, answer, 4);
    LegalConcat(EMPTY, steps, Alone(Run(EMPTY, steps).db, 0, CONFIRM, answer, 4));
  }

  lemma {:induction false} LegalConcat(s: Sys, steps: seq<Step>, more: seq<Step>)
    requires Legal(s, steps) && Legal(Run(s, steps), more)
    ensures Legal(s, steps + more)
    decreases |steps|
  {
    if steps == [] {
      assert steps + more == more;
    } else {
      assert (steps + more)[1..] == steps[1..] + more;
      LegalConcat(Next(s, steps[0]), steps[1..], more);
    }
  }

  // ---------------------------------------------------------------------------------------
  // The refund bound is attained
  // ---------------------------------------------------------------------------------------

  lemma {:induction false} CrowdedOneMore(s: Sys, steps: seq<Step>, step: Step, k: nat)
    requires Legal(s, steps) && Crowded(s, steps, k) && Legal(s, steps + [step])
    requires Enabled(Run(s, steps), step) && CrowdedAt(Run(s, steps), step, k)
    ensures Crowded(s, steps + [step], k)
    decreases |steps|
  {
    var all := steps + [step];
    if steps == [] {
      assert all == [step];
    } else {
      assert all[1..] == steps[1..] + [step];
      CrowdedOneMore(Next(s, steps[0]), steps[1..], step, k);
    }
  }

  // The n-th key and identifier; their lengths tell them apart.
  function Nth(n: nat): string {
    seq(n + 4, _ => 'r')
  }

  // `n` refunds of the full amount, all pending, of the one payment.
  ghost predicate AwaitingRefunds(s: Sys, n: nat) {
    && |s.db.payments| == 1 && s.db.payments[0].status == Succeeded && s.db.payments[0].amount == 100
    && s.db.payments[0].externalId == "pi" && s.db.events.Keys == {"a"}
    && |s.db.refunds| == n
    && (forall i | 0 <= i < n :: s.db.refunds[i].status == RefundPending && s.db.refunds[i].amount == 100
                              && s.db.refunds[i].paymentId == 0 && |s.db.refunds[i].idempotencyKey| < n + 4)
    && s.txns == map[]
    && (forall k | k in s.memory :: |k| < n + 4)
    && (forall k | k in s.memory && s.memory[k].call.CreateProviderRefund? :: |s.memory[k].answer.id| < n + 4)
  }

  // One more of them, answered by the provider as pending.
  lemma {:induction false} RefundIsAsked(before: seq<Step>, n: nat, k: nat) returns (steps: seq<Step>)
    requires Legal(EMPTY, before) && Crowded(EMPTY, before, k)
    requires AwaitingRefunds(Run(EMPTY, before), n)
    ensures Legal(EMPTY, steps) && Crowded(EMPTY, steps, k)
    ensures
      var s, s' := Run(EMPTY, before), Run(EMPTY, steps);
      && s'.db == s.db
      && s'.txns == map[0 := Ready(InsertRefund(Refund(0, Nth(n), 100, None, RefundPending, Nth(n)), {}, 3))]
      && (forall key | key in s'.memory :: (key in s.memory && s'.memory[key] == s.memory[key])
                                       || (key == Nth(n) && s'.memory[key].answer.id == Nth(n)))
  {
    var s := Run(EMPTY, before);
    assert SettledRowsOf(s.db.refunds, 0) == {};
    SumDependsOnRows([], {}, s.db.refunds, {});
    var ask := Start(0, CreateRefund(0, None, None, Nth(n)), 3);
    OneMore(EMPTY, before, ask);
    CrowdedOneMore(EMPTY, before, ask, k);
    steps := before + [ask];
    var reach := Reach(0, RefundAnswer(Nth(n), RefundPending), 3);
    OneMore(EMPTY, steps, reach);
    CrowdedOneMore(EMPTY, steps, reach, k);
    steps := steps + [reach];
  }

  // And committed, alone.
  lemma {:induction false} OneMoreRefund(before: seq<Step>, n: nat, k: nat) returns (steps: seq<Step>)
    requires Legal(EMPTY, before) && Crowded(EMPTY, before, k) && n <= k
    requires AwaitingRefunds(Run(EMPTY, before), n)
    ensures Legal(EMPTY, steps) && Crowded(EMPTY, steps, k) && AwaitingRefunds(Run(EMPTY, steps), n + 1)
  {
    steps := RefundIsAsked(before, n, k);
    FewRows(Run(EMPTY, before).db.refunds, 0);
    OneMore(EMPTY, steps, End(0));
    CrowdedOneMore(EMPTY, steps, End(0), k);
    steps := steps + [End(0)];
  }

  lemma {:induction false} FewRows(refunds: seq<Refund>, pid: nat)
    ensures |RowsOf(refunds, pid)| <= |refunds|
  {
    if refunds != [] {
      var front, last := refunds[..|refunds| - 1], |refunds| - 1;
      FewRows(front, pid);
      if refunds[last].paymentId == pid {
        assert RowsOf(refunds, pid) == RowsOf(front, pid) + {last};
      } else {
        assert RowsOf(refunds, pid) == RowsOf(front, pid);
      }
    }
  }

  lemma {:induction false} SumOfEqual(refunds: seq<Refund>, pid: nat)
    requires forall r | r in refunds :: r.paymentId == pid && r.amount == 100
    ensures RecordedAmount(refunds, pid) == 100 * |refunds|
  {
    if refunds != [] {
      var front := refunds[..|refunds| - 1];
      SumOfEqual(front, pid);
      SumDependsOnRows(front, RowsOf(front, pid), front, RowsOf(refunds, pid));
    }
  }

  lemma {:induction false} OnePaidPayment(k: nat) returns (steps: seq<Step>)
    ensures Legal(EMPTY, steps) && Crowded(EMPTY, steps, k) && AwaitingRefunds(Run(EMPTY, steps), 0)
  {
    steps := OnePayment(k);
    WebhookIsRead(Run(EMPTY, steps).db, PAID_EVENT, 2);
    var paid := Start(1, DeliverWebhook(PaymentEvent("a", PaymentSucceeded)), 2);
    OneMore(EMPTY, steps, paid);
    CrowdedOneMore(EMPTY, steps, paid, k);
    steps := steps + [paid];
    OneMore(EMPTY, steps, End(1));
    CrowdedOneMore(EMPTY, steps, End(1), k);
    steps := steps + [End(1)];
  }

  lemma {:induction false} ManyRefunds(n: nat, k: nat) returns (steps: seq<Step>)
    requires n <= k + 1
    ensures Legal(EMPTY, steps) && Crowded(EMPTY, steps, k) && AwaitingRefunds(Run(EMPTY, steps), n)
  {
    if n == 0 {
      steps := OnePaidPayment(k);
    } else {
      steps := ManyRefunds(n - 1, k);
      steps := OneMoreRefund(steps, n - 1, k);
    }
  }

  /**
   The bound of RefundsAreBounded cannot be improved: for every `k` a run of refunds one after the
   other, none settled yet, reaches k + 1 times the amount.
   */
  lemma {:induction false} BoundIsTight(k: nat) returns (steps: seq<Step>)
    ensures Legal(EMPTY, steps) && Crowded(EMPTY, steps, k)
    ensures |Run(EMPTY, steps).db.payments| == 1 && Run(EMPTY, steps).db.payments[0].amount > 0
    ensures RecordedAmount(Run(EMPTY, steps).db.refunds, 0) == (k + 1) * Run(EMPTY, steps).db.payments[0].amount
  {
    steps := ManyRefunds(k + 1, k);
    SumOfEqual(Run(EMPTY, steps).db.refunds, 0);
  }

  // ---------------------------------------------------------------------------------------
  // A full refund that stays partial
  // ---------------------------------------------------------------------------------------

  const CHARGE_REFUNDED := RawEvent("c", "charge.refunded", Some("ch"), Some("pi"), None, None)

  const REFUND_PENDING := RefundAnswer("refund", RefundPending)

  // Nothing stands in the way of the refund.
  lemma {:induction false} FullRefundIsServed(s: Sys)
    requires AwaitingRefunds(s, 0)
    ensures
      var begun := Begin(s.db, CreateRefund(0, None, None, "full"), 4);
      && begun == Proceed(Calling("full", CreateProviderRefund("pi", 100, None), AddRefund(0, 100, None, {})))
      && Accepts(s.memory, "full", begun.txn.call, REFUND_PENDING)
    ensures Serve(s.db, CreateRefund(0, None, None, "full"), Answered(REFUND_PENDING), 4).0.Success?
    ensures RestOf(s.db, 0, None, "full", REFUND_PENDING) == Refund(0, "refund", 100, None, RefundPending, "full")
  {
    assert SettledRowsOf(s.db.refunds, 0) == {};
  }

  /**
   A full refund answered as pending and reported by charge.refunded, whose object is the charge
   `ch`: the payment ends `partially_refunded` and the refund stays pending.
   */
  lemma {:induction false} FullRefundStaysPartial() returns (steps: seq<Step>)
    ensures Legal(EMPTY, steps) && Run(EMPTY, steps).txns == map[]
    ensures |Run(EMPTY, steps).db.payments| == 1 && Run(EMPTY, steps).db.payments[0].status == Succeeded
    ensures
      var after := AskAndReport(Run(EMPTY, steps).db, 0, None, "full", REFUND_PENDING, Verified(CHARGE_REFUNDED), 4);
      && |after.payments| == 1 && after.payments[0].status == PartiallyRefunded
      && after.refunds == [Refund(0, "refund", 100, None, RefundPending, "full")]
  {
    steps := OnePaidPayment(0);
    var s := Run(EMPTY, steps);
    FullRefundIsServed(s);
    FullRefundReportedByItsCharge(s, 0, None, "full", REFUND_PENDING, CHARGE_REFUNDED, 4);
  }
}
