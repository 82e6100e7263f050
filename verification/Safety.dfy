/**
 What holds in every state any interleaving of requests, provider failures, crashes and cleanups
 can reach.
 */
module Safety {
  import opened Prelude
  import opened Ledger
  import opened Webhooks
  import opened Requests
  import opened Interleaving

  ghost predicate Reachable(s: Sys) {
    exists steps :: Legal(EMPTY, steps) && Run(EMPTY, steps) == s
  }

  lemma {:induction false} ReachableIsSound(s: Sys)
    requires Reachable(s)
    ensures Inv(s)
  {
    var steps :| Legal(EMPTY, steps) && Run(EMPTY, steps) == s;
    assert Inv(EMPTY);
    RunKeepsInv(EMPTY, steps);
  }

  // ---------------------------------------------------------------------------------------
  // Statuses
  // ---------------------------------------------------------------------------------------

  /** `refunded` is justified: the succeeded refunds of such a payment cover its amount. */
  lemma {:induction false} RefundedIsJustified(s: Sys, pid: nat)
    requires Reachable(s) && pid < |s.db.payments|
    requires s.db.payments[pid].status == Refunded
    ensures RefundedAmount(s.db.refunds, pid) >= s.db.payments[pid].amount
  {
    ReachableIsSound(s);
    assert PaymentOk(s.db, s.memory, pid);
  }

  /** A paid status implies a confirmation stamp and `canceled` a cancellation stamp, then and ever after. */
  lemma {:induction false} StampsAreForever(s: Sys, pid: nat, more: seq<Step>)
    requires Reachable(s) && pid < |s.db.payments| && Legal(s, more)
    ensures pid < |Run(s, more).db.payments|
    ensures s.db.payments[pid].status in PAID ==> Run(s, more).db.payments[pid].confirmedAt.Some?
    ensures s.db.payments[pid].status == Canceled ==> Run(s, more).db.payments[pid].canceledAt.Some?
  {
    ReachableIsSound(s);
    RunKeepsInv(s, more);
    assert PaymentOk(s.db, s.memory, pid);
    assert PaymentFollows(s.db.payments[pid], Run(s, more).db.payments[pid]);
  }

  /** Every refund row belongs to a payment that was confirmed, and stays so in every later state. */
  lemma {:induction false} RefundsImplyConfirmed(s: Sys, row: nat, more: seq<Step>)
    requires Reachable(s) && row < |s.db.refunds| && Legal(s, more)
    ensures s.db.refunds[row].paymentId < |Run(s, more).db.payments|
    ensures Run(s, more).db.payments[s.db.refunds[row].paymentId].confirmedAt.Some?
  {
    ReachableIsSound(s);
    RunKeepsInv(s, more);
    assert RefundRowOk(s.db, s.memory, s.db.refunds[row]);
    var pid := s.db.refunds[row].paymentId;
    assert PaymentFollows(s.db.payments[pid], Run(s, more).db.payments[pid]);
  }

  /** Unprocessed event rows never reach the committed table. */
  lemma {:induction false} CommittedEventsAreProcessed(s: Sys, id: string)
    requires Reachable(s) && id in s.db.events
    ensures s.db.events[id].processed
  {
    ReachableIsSound(s);
  }

  /** Of two deliveries of one event in flight together, only one commits. */
  lemma {:induction false} ConcurrentDuplicateChangesNothing(s: Sys, tid: nat)
    requires Reachable(s) && Enabled(s, End(tid))
    requires s.txns[tid].plan.RecordEvent? && s.txns[tid].plan.eventId in s.db.events
    ensures Next(s, End(tid)).db == s.db
  {
    ReachableIsSound(s);
    assert TxnOk(s.db, s.memory, s.txns[tid]);
  }

  // ---------------------------------------------------------------------------------------
  // One charge and one refund per key
  // ---------------------------------------------------------------------------------------

  /**
   Each payment row carries the one intent its key ever created, with the amount and currency that
   were sent; two rows never share a key or an intent, even if the process died between the
   provider call and the commit and the request was replayed.
   */
  lemma {:induction false} OneChargePerKey(s: Sys, i: nat, j: nat)
    requires Reachable(s) && i < j < |s.db.payments|
    ensures Charged(s.memory, s.db.payments[i]) && Charged(s.memory, s.db.payments[j])
    ensures s.db.payments[i].idempotencyKey != s.db.payments[j].idempotencyKey
    ensures s.db.payments[i].externalId != s.db.payments[j].externalId
  {
    ReachableIsSound(s);
    assert PaymentOk(s.db, s.memory, i) && PaymentOk(s.db, s.memory, j);
    var keys := PaymentKeys(s.db.payments);
    assert keys[i] != keys[j];
  }

  lemma {:induction false} OneRefundPerKey(s: Sys, i: nat, j: nat)
    requires Reachable(s) && i < j < |s.db.refunds|
    ensures RefundRowOk(s.db, s.memory, s.db.refunds[i]) && RefundRowOk(s.db, s.memory, s.db.refunds[j])
    ensures s.db.refunds[i].idempotencyKey != s.db.refunds[j].idempotencyKey
    ensures s.db.refunds[i].externalId != s.db.refunds[j].externalId
  {
    ReachableIsSound(s);
    var keys := RefundKeys(s.db.refunds);
    assert keys[i] != keys[j];
  }

  /** So a provider reference never names two rows, and no webhook handler ever raises. */
  lemma {:induction false} HandlersNeverRaise(s: Sys, event: Event, now: Time)
    requires Reachable(s)
    ensures Handle(s.db, event, now).Success?
  {
    var ids := PaymentIds(s.db.payments);
    forall i, j | 0 <= i < j < |ids| ensures ids[i] != ids[j] {
      OneChargePerKey(s, i, j);
    }
    var refundIds := RefundIds(s.db.refunds);
    forall i, j | 0 <= i < j < |refundIds| ensures refundIds[i] != refundIds[j] {
      OneRefundPerKey(s, i, j);
    }
  }

  /** Once a key has a payment row, every later create_payment with it returns that row and writes nothing. */
  lemma {:induction false} ReplayReturnsTheRow(s: Sys, pid: nat, more: seq<Step>, amount: int, currency: string, now: Time)
    requires Reachable(s) && pid < |s.db.payments| && Legal(s, more)
    ensures Begin(Run(s, more).db, CreatePayment(s.db.payments[pid].idempotencyKey, amount, currency), now)
         == Reply(Some(pid))
  {
    ReachableIsSound(s);
    RunKeepsInv(s, more);
    var later := Run(s, more).db.payments;
    assert PaymentFollows(s.db.payments[pid], later[pid]);
    assert PaymentKeys(later)[pid] == s.db.payments[pid].idempotencyKey;
  }

  /**
   Once a key has a refund row, no request with that key, started before or after, for the same
   payment or another, ever commits: the tables are what they were.
   */
  lemma {:induction false} ReplayedRefundChangesNothing(s: Sys, row: nat, more: seq<Step>, tid: nat)
    requires Reachable(s) && row < |s.db.refunds| && Legal(s, more)
    requires Enabled(Run(s, more), End(tid))
    requires Run(s, more).txns[tid].plan.InsertRefund?
    requires Run(s, more).txns[tid].plan.refund.idempotencyKey == s.db.refunds[row].idempotencyKey
    ensures Next(Run(s, more), End(tid)).db == Run(s, more).db
  {
    ReachableIsSound(s);
    RunKeepsInv(s, more);
    var later := Run(s, more).db.refunds;
    assert RefundFollows(s.db.refunds[row], later[row]);
    assert RefundKeys(later)[row] == s.db.refunds[row].idempotencyKey;
  }

  /** Of two requests with one key in flight together only one inserts a row; the other rolls back. */
  lemma {:induction false} ConcurrentCreationChangesNothing(s: Sys, pid: nat, more: seq<Step>, tid: nat)
    requires Reachable(s) && pid < |s.db.payments| && Legal(s, more)
    requires Enabled(Run(s, more), End(tid))
    requires Run(s, more).txns[tid].plan.InsertPayment?
    requires Run(s, more).txns[tid].plan.row.idempotencyKey == s.db.payments[pid].idempotencyKey
    ensures Next(Run(s, more), End(tid)).db == Run(s, more).db
  {
    ReachableIsSound(s);
    RunKeepsInv(s, more);
    var later := Run(s, more).db.payments;
    assert PaymentFollows(s.db.payments[pid], later[pid]);
    assert PaymentKeys(later)[pid] == s.db.payments[pid].idempotencyKey;
  }

  /**
   An intent whose request died before its commit is adopted: replaying the request gets the same
   intent back and stores it.
   */
  lemma {:induction false} OrphanIsAdopted(s: Sys, key: string, tid: nat, now: Time)
    requires Reachable(s) && tid !in s.txns
    requires key in s.memory && s.memory[key].call.CreateIntent?
    requires key !in PaymentKeys(s.db.payments)
    ensures
      var deal := s.memory[key];
      var replay := [Start(tid, CreatePayment(key, deal.call.amount, deal.call.currency), now),
                     Reach(tid, deal.answer, now), End(tid)];
      Legal(s, replay) && Run(s, replay).memory == s.memory
      && |Run(s, replay).db.payments| == |s.db.payments| + 1
      && Run(s, replay).db.payments[|s.db.payments|].externalId == deal.answer.id
  {
    ReachableIsSound(s);
    var deal := s.memory[key];
    var first := Start(tid, CreatePayment(key, deal.call.amount, deal.call.currency), now);
    var second := Reach(tid, deal.answer, now);
    var replay := [first, second, End(tid)];
    var s1 := Next(s, first);
    assert Enabled(s1, second) && Honours(deal.call, deal.answer);
    var s2 := Next(s1, second);
    assert s2.memory == s.memory;
    assert Enabled(s2, End(tid));
    var s3 := Next(s2, End(tid));
    assert replay[1..] == [second, End(tid)] && replay[1..][1..] == [End(tid)] && replay[1..][1..][1..] == [];
    assert Legal(s3, []) && Legal(s2, [End(tid)]) && Legal(s1, [second, End(tid)]);
    assert Run(s3, []) == s3 && Run(s2, [End(tid)]) == s3 && Run(s1, [second, End(tid)]) == s3;
  }

  // ---------------------------------------------------------------------------------------
  // How much can be refunded
  // ---------------------------------------------------------------------------------------

  /** The refunds of the payment present now that the guard of the refund about to commit did not subtract. */
  ghost function Uncounted(db: Db, plan: Plan): set<nat>
    requires plan.InsertRefund?
  {
    RowsOf(db.refunds, plan.refund.paymentId) - plan.counted
  }

  // A refund that commits in this step finds at most `k` refunds its guard did not subtract.
  ghost predicate CrowdedAt(s: Sys, step: Step, k: nat)
    requires Enabled(s, step)
  {
    step.End? && s.txns[step.tid].plan.InsertRefund? && Commit(s.db, s.txns[step.tid].plan).Some? ==>
      |Uncounted(s.db, s.txns[step.tid].plan)| <= k
  }

  /** So does every refund that commits along the run. */
  ghost predicate Crowded(s: Sys, steps: seq<Step>, k: nat)
    requires Legal(s, steps)
    decreases |steps|
  {
    steps != [] ==> CrowdedAt(s, steps[0], k) && Crowded(Next(s, steps[0]), steps[1..], k)
  }

  ghost predicate Bounded(db: Db, k: nat) {
    forall pid: nat | pid < |db.payments| && db.payments[pid].amount >= 0 ::
      RecordedAmount(db.refunds, pid) <= (k + 1) * db.payments[pid].amount
  }

  lemma {:induction false} InsertRefundIsBounded(db: Db, memory: Memory, plan: Plan, k: nat)
    requires DbOk(db, memory) && plan.InsertRefund? && PlanOk(db, memory, plan)
    requires |Uncounted(db, plan)| <= k
    ensures RecordedAmount(db.refunds + [plan.refund], plan.refund.paymentId)
         <= (k + 1) * db.payments[plan.refund.paymentId].amount
  {
    var refund, counted, uncounted := plan.refund, plan.counted, Uncounted(db, plan);
    var amount := db.payments[refund.paymentId].amount;
    var after := db.refunds + [refund];
    assert after[..|after| - 1] == db.refunds;
    SumDependsOnRows(db.refunds, RowsOf(after, refund.paymentId), db.refunds, RowsOf(db.refunds, refund.paymentId));
    assert RowsOf(db.refunds, refund.paymentId) == counted + uncounted;
    SumSplits(db.refunds, counted, uncounted);
    forall i | i in uncounted
      ensures db.refunds[i].amount <= amount
    {
      assert RefundRowOk(db, memory, db.refunds[i]);
    }
    SumAtMost(db.refunds, uncounted, k, amount);
    assert (k + 1) * amount == k * amount + amount;
  }

  lemma {:induction false} RecordedAmountIsStable(a: Db, b: Db, pid: nat)
    requires Evolves(a, b)
    requires forall i: nat | |a.refunds| <= i < |b.refunds| :: b.refunds[i].paymentId != pid
    ensures RecordedAmount(a.refunds, pid) == RecordedAmount(b.refunds, pid)
  {
    forall i: nat | i < |a.refunds|
      ensures a.refunds[i].amount == b.refunds[i].amount
      ensures i in RowsOf(a.refunds, pid) <==> i in RowsOf(b.refunds, pid)
    {
      assert RefundFollows(a.refunds[i], b.refunds[i]);
    }
    SumDependsOnRows(a.refunds, RowsOf(a.refunds, pid), b.refunds, RowsOf(b.refunds, pid));
  }

  lemma {:induction false} NoRefundsYet(db: Db, memory: Memory, pid: nat)
    requires DbOk(db, memory) && pid >= |db.payments|
    ensures RecordedAmount(db.refunds, pid) == 0
  {
    forall i: nat | i < |db.refunds| ensures i !in RowsOf(db.refunds, pid) {
      assert RefundRowOk(db, memory, db.refunds[i]);
    }
    SumDependsOnRows([], {}, db.refunds, RowsOf(db.refunds, pid));
  }

  // A step adds at most one refund row, and only by committing a refund.
  lemma {:induction false} RefundsComeFromCommits(s: Sys, step: Step)
    requires Enabled(s, step)
    ensures
      var db, after := s.db, Next(s, step).db;
      || |after.refunds| == |db.refunds|
      || (&& step.End? && s.txns[step.tid].plan.InsertRefund? && Commit(db, s.txns[step.tid].plan).Some?
          && after.refunds == db.refunds + [s.txns[step.tid].plan.refund] && after.payments == db.payments)
  {
    if step.End? {
      match s.txns[step.tid].plan
      case InsertRefund(_, _, _) =>
      case _ =>
    }
  }

  // A payment that gets no new refund row keeps its total, and a new payment has none.
  lemma {:induction false} BoundIsStable(a: Db, memory: Memory, b: Db, k: nat, pid: nat)
    requires DbOk(a, memory) && Evolves(a, b) && Bounded(a, k)
    requires forall i: nat | |a.refunds| <= i < |b.refunds| :: b.refunds[i].paymentId != pid
    requires pid < |b.payments| && b.payments[pid].amount >= 0
    ensures RecordedAmount(b.refunds, pid) <= (k + 1) * b.payments[pid].amount
  {
    RecordedAmountIsStable(a, b, pid);
    if pid < |a.payments| {
      assert PaymentFollows(a.payments[pid], b.payments[pid]);
    } else {
      NoRefundsYet(a, memory, pid);
    }
  }

  lemma {:induction false} StepKeepsBoundOf(s: Sys, step: Step, k: nat, pid: nat)
    requires Inv(s) && Enabled(s, step) && Bounded(s.db, k) && CrowdedAt(s, step, k)
    requires pid < |Next(s, step).db.payments| && Next(s, step).db.payments[pid].amount >= 0
    requires Evolves(s.db, Next(s, step).db)
    ensures RecordedAmount(Next(s, step).db.refunds, pid) <= (k + 1) * Next(s, step).db.payments[pid].amount
  {
    var after := Next(s, step).db;
    RefundsComeFromCommits(s, step);
    if |after.refunds| > |s.db.refunds| && s.txns[step.tid].plan.refund.paymentId == pid {
      assert TxnOk(s.db, s.memory, s.txns[step.tid]);
      InsertRefundIsBounded(s.db, s.memory, s.txns[step.tid].plan, k);
    } else {
      BoundIsStable(s.db, s.memory, after, k, pid);
    }
  }

  lemma {:induction false} StepKeepsBound(s: Sys, step: Step, k: nat)
    requires Inv(s) && Enabled(s, step) && Bounded(s.db, k) && CrowdedAt(s, step, k)
    ensures Bounded(Next(s, step).db, k)
  {
    var after := Next(s, step).db;
    StepKeepsInv(s, step);
    forall pid: nat | pid < |after.payments| && after.payments[pid].amount >= 0
      ensures RecordedAmount(after.refunds, pid) <= (k + 1) * after.payments[pid].amount
    {
      StepKeepsBoundOf(s, step, k, pid);
    }
  }

  lemma {:induction false} RunKeepsBound(s: Sys, steps: seq<Step>, k: nat)
    requires Inv(s) && Legal(s, steps) && Bounded(s.db, k) && Crowded(s, steps, k)
    ensures Bounded(Run(s, steps).db, k)
    decreases |steps|
  {
    if steps != [] {
      StepKeepsInv(s, steps[0]);
      StepKeepsBound(s, steps[0], k);
      RunKeepsBound(Next(s, steps[0]), steps[1..], k);
    }
  }

  /**
   The refund bound under concurrency: if no refund commits beside more than `k` refunds its guard
   did not subtract, the refunds recorded for a payment total at most k + 1 times its amount; with
   k = 0, the amount itself.
   */
  lemma {:induction false} RefundsAreBounded(steps: seq<Step>, k: nat, pid: nat)
    requires Legal(EMPTY, steps) && Crowded(EMPTY, steps, k)
    requires pid < |Run(EMPTY, steps).db.payments| && Run(EMPTY, steps).db.payments[pid].amount >= 0
    ensures RecordedAmount(Run(EMPTY, steps).db.refunds, pid) <= (k + 1) * Run(EMPTY, steps).db.payments[pid].amount
    ensures k == 0 ==> RecordedAmount(Run(EMPTY, steps).db.refunds, pid) <= Run(EMPTY, steps).db.payments[pid].amount
  {
    assert Inv(EMPTY);
    RunKeepsBound(EMPTY, steps, k);
  }

  /**
   When the guard does what it is for. It lets through exactly the amounts that keep everything
   recorded within the payment's amount if and only if no refund of the payment is unsettled.
   */
  lemma {:induction false} GuardIsExact(s: Sys, pid: nat, reason: Option<string>, key: string)
    requires Reachable(s) && pid < |s.db.payments| && s.db.payments[pid].status in REFUNDABLE_STATUSES
    ensures (forall a: int :: BeginRefund(s.db, pid, Some(a), reason, key).Proceed?
                         <==> RecordedAmount(s.db.refunds, pid) + a <= s.db.payments[pid].amount)
       <==> (forall i | 0 <= i < |s.db.refunds| && s.db.refunds[i].paymentId == pid :: s.db.refunds[i].status == RefundSucceeded)
  {
    ReachableIsSound(s);
    var refunds := s.db.refunds;
    var amount := s.db.payments[pid].amount;
    var all, settled := RowsOf(refunds, pid), SettledRowsOf(refunds, pid);
    assert all == settled + (all - settled);
    SumSplits(refunds, settled, all - settled);
    if i: nat :| i in all - settled {
      UnsettledIsPositive(s, all - settled, i);
      var a := amount - RefundedAmount(refunds, pid);
      assert BeginRefund(s.db, pid, Some(a), reason, key).Proceed?;
    } else {
      forall i | 0 <= i < |refunds| && refunds[i].paymentId == pid
        ensures refunds[i].status == RefundSucceeded
      {
        assert i in all;
      }
      assert all == settled;
    }
  }

  lemma {:induction false} UnsettledIsPositive(s: Sys, rows: set<nat>, i: nat)
    requires Inv(s) && i in rows && i < |s.db.refunds|
    ensures Sum(s.db.refunds, rows) > 0
  {
    var refunds := s.db.refunds;
    forall j | 0 <= j < |refunds| ensures refunds[j].amount > 0 {
      assert RefundRowOk(s.db, s.memory, refunds[j]);
    }
    assert refunds[..i + 1][..i] == refunds[..i];
    SumGrows([], {}, refunds[..i], rows);
    SumGrows(refunds[..i + 1], rows, refunds, rows);
  }

  // ---------------------------------------------------------------------------------------
  // Serial requests
  // ---------------------------------------------------------------------------------------

  /** The steps of one request that meets no other and is answered by the provider if it asks. */
  function Alone(db: Db, tid: nat, request: Request, answer: Answer, now: Time): seq<Step> {
    match Begin(db, request, now)
    case Proceed(Calling(_, _, _)) => [Start(tid, request, now), Reach(tid, answer, now), End(tid)]
    case Proceed(Ready(_)) => [Start(tid, request, now), End(tid)]
    case _ => [Start(tid, request, now)]
  }

  lemma {:induction false} RunTwo(s: Sys, a: Step, b: Step)
    requires Enabled(s, a) && Enabled(Next(s, a), b)
    ensures Legal(s, [a, b]) && Run(s, [a, b]) == Next(Next(s, a), b)
  {
    var s1 := Next(s, a);
    assert [a, b][1..] == [b] && [b][1..] == [];
    assert Legal(Next(s1, b), []) && Legal(s1, [b]);
    assert Run(s1, [b]) == Next(s1, b);
  }

  lemma {:induction false} RunThree(s: Sys, a: Step, b: Step, c: Step)
    requires Enabled(s, a) && Enabled(Next(s, a), b) && Enabled(Next(Next(s, a), b), c)
    ensures Legal(s, [a, b, c]) && Run(s, [a, b, c]) == Next(Next(Next(s, a), b), c)
  {
    RunTwo(Next(s, a), b, c);
    assert [a, b, c][1..] == [b, c];
  }

  /**
   A request served alone is one run of the state machine, with the same tables at the end: what
   holds in every reachable state holds of the services one after the other.
   */
  lemma {:induction false} ServingIsARun(s: Sys, tid: nat, request: Request, answer: Answer, now: Time)
    requires Reachable(s) && tid !in s.txns
    requires Begin(s.db, request, now).Proceed? && Begin(s.db, request, now).txn.Calling? ==>
               Accepts(s.memory, Begin(s.db, request, now).txn.key, Begin(s.db, request, now).txn.call, answer)
    ensures Legal(s, Alone(s.db, tid, request, answer, now))
    ensures Run(s, Alone(s.db, tid, request, answer, now)).db == Serve(s.db, request, Answered(answer), now).1
  {
    ReachableIsSound(s);
    var start := Start(tid, request, now);
    match Begin(s.db, request, now)
    case Proceed(Calling(key, call, next)) =>
      AnsweredRequestIsReady(s, tid, request, answer, now);
      RunThree(s, start, Reach(tid, answer, now), End(tid));
    case Proceed(Ready(_)) => RunTwo(s, start, End(tid));
    case _ =>
      assert [start][1..] == [];
      assert Legal(Next(s, start), []) && Run(Next(s, start), []) == Next(s, start);
  }

  // The provider has answered a sound request in flight: what it wants to commit is ready.
  lemma {:induction false} AnswerIsPlanned(s: Sys, tid: nat, answer: Answer, now: Time)
    requires Inv(s) && Enabled(s, Reach(tid, answer, now))
    ensures
      var txn := s.txns[tid];
      Continue(txn.key, txn.next, answer, now).Success?
  {
    var txn := s.txns[tid];
    var memory := s.memory[txn.key := Deal(txn.call, answer)];
    MemoryGrows(s.db, s.memory, memory);
    EvolvesReflexive(s.db);
    TxnIsStable(s.db, s.memory, s.db, memory, txn);
    ContinueOk(s.db, memory, txn, answer, now);
  }

  lemma {:induction false} AnsweredRequestIsReady(s: Sys, tid: nat, request: Request, answer: Answer, now: Time)
    requires Inv(s) && tid !in s.txns
    requires Begin(s.db, request, now).Proceed? && Begin(s.db, request, now).txn.Calling?
    requires Accepts(s.memory, Begin(s.db, request, now).txn.key, Begin(s.db, request, now).txn.call, answer)
    ensures
      var txn := Begin(s.db, request, now).txn;
      var s1 := Next(s, Start(tid, request, now));
      && Enabled(s1, Reach(tid, answer, now))
      && Next(s1, Reach(tid, answer, now)).db == s.db
      && Continue(txn.key, txn.next, answer, now).Success?
      && Next(s1, Reach(tid, answer, now)).txns == s.txns[tid := Ready(Continue(txn.key, txn.next, answer, now).value)]
  {
    StepKeepsInv(s, Start(tid, request, now));
    AnswerIsPlanned(Next(s, Start(tid, request, now)), tid, answer, now);
  }

  // ---------------------------------------------------------------------------------------
  // Each event is recorded once
  // ---------------------------------------------------------------------------------------

  /** The step commits a handling of event `id`, with whatever effect that has. */
  predicate Records(s: Sys, step: Step, id: string)
    requires Enabled(s, step)
  {
    step.End? && s.txns[step.tid].plan.RecordEvent? && s.txns[step.tid].plan.eventId == id
    && Commit(s.db, s.txns[step.tid].plan).Some?
  }

  /** The step is a cleanup that forgets event `id`. */
  predicate Evicts(s: Sys, step: Step, id: string) {
    step.Clean? && id in s.db.events && id !in Cleanup(s.db, step.now).events
  }

  ghost function Recordings(s: Sys, steps: seq<Step>, id: string): nat
    requires Legal(s, steps)
    decreases |steps|
  {
    if steps == [] then 0
    else (if Records(s, steps[0], id) then 1 else 0) + Recordings(Next(s, steps[0]), steps[1..], id)
  }

  ghost function Evictions(s: Sys, steps: seq<Step>, id: string): nat
    requires Legal(s, steps)
    decreases |steps|
  {
    if steps == [] then 0
    else (if Evicts(s, steps[0], id) then 1 else 0) + Evictions(Next(s, steps[0]), steps[1..], id)
  }

  function Known(s: Sys, id: string): nat {
    if id in s.db.events then 1 else 0
  }

  lemma {:induction false} StepCounts(s: Sys, step: Step, id: string)
    requires Inv(s) && Enabled(s, step)
    ensures Known(s, id) + (if Records(s, step, id) then 1 else 0) == Known(Next(s, step), id) + if Evicts(s, step, id) then 1 else 0
  {
    if step.End? {
      assert TxnOk(s.db, s.memory, s.txns[step.tid]);
    }
  }

  lemma {:induction false} RecordingsCount(s: Sys, steps: seq<Step>, id: string)
    requires Inv(s) && Legal(s, steps)
    ensures Known(s, id) + Recordings(s, steps, id) == Known(Run(s, steps), id) + Evictions(s, steps, id)
    decreases |steps|
  {
    if steps != [] {
      StepCounts(s, steps[0], id);
      StepKeepsInv(s, steps[0]);
      RecordingsCount(Next(s, steps[0]), steps[1..], id);
    }
  }

  /**
   Exactly once, concurrently: along any run, however its deliveries interleave, an event is committed
   once for every time its row was evicted, and once more if its row is still there. With no eviction
   it is committed at most once, and exactly once if it is known in the end.
   */
  lemma {:induction false} EventsAreRecordedOnce(steps: seq<Step>, id: string)
    requires Legal(EMPTY, steps)
    ensures Recordings(EMPTY, steps, id) == Evictions(EMPTY, steps, id) + Known(Run(EMPTY, steps), id)
  {
    assert Inv(EMPTY);
    RecordingsCount(EMPTY, steps, id);
  }

  /** Only a cleanup more than 90 days after the row was created evicts it. */
  lemma {:induction false} EvictionIsLate(s: Sys, step: Step, id: string)
    requires Reachable(s) && Evicts(s, step, id)
    ensures step.now - s.db.events[id].createdAt > RETENTION && s.db.events[id].processed
  {
    ReachableIsSound(s);
  }
}
