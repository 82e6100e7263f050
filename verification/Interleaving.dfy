/**
 All requests at once. Any number of requests are in flight; each reads the tables, calls the
 provider and commits in separate steps, any of them may be abandoned at any point, and the
 cleanup job runs in between. No step takes a lock.

 The provider is an environment with stated contracts: it remembers the call and the answer of
 every idempotency key, replays that answer to the same call, refuses a different call under the
 same key, and gives every new intent and refund an identifier of its own.
 */
module Interleaving {
  import opened Prelude
  import opened Ledger
  import opened Webhooks
  import opened Requests

  datatype Deal = Deal(call: Call, answer: Answer)
  type Memory = map<string, Deal>

  datatype Sys = Sys(db: Db, memory: Memory, txns: map<nat, Txn>)

  datatype Step =
    | Start(tid: nat, request: Request, now: Time)
    | Reach(tid: nat, answer: Answer, now: Time)  // the provider carries the call out and answers
    | End(tid: nat)                               // commit, or roll back on a constraint violation
    | Abandon(tid: nat)                           // provider error, crash, any exception
    | Clean(now: Time)

  // ---------------------------------------------------------------------------------------
  // Provider contracts
  // ---------------------------------------------------------------------------------------

  /** The answers each kind of call can get. */
  predicate Honours(call: Call, answer: Answer) {
    match call
    case CreateIntent(amount, currency) =>
      answer.IntentAnswer? && answer.id != "" && answer.amount == amount && answer.currency == currency
      && (answer.status in {Pending, RequiresAction, Processing} || answer.status.Unmapped?)
    case ConfirmIntent(id, _) =>
      answer.IntentAnswer? && answer.id == id
      && (answer.status in {Pending, RequiresAction, Processing, Succeeded} || answer.status.Unmapped?)
    case CancelIntent(id, _) =>
      answer.IntentAnswer? && answer.id == id && answer.status == Canceled
    case CreateProviderRefund(_, amount, _) =>
      answer.RefundAnswer? && answer.id != "" && amount > 0
  }

  predicate SameKind(a: Call, b: Call) {
    (a.CreateIntent? && b.CreateIntent?) || (a.CreateProviderRefund? && b.CreateProviderRefund?)
  }

  predicate Accepts(memory: Memory, key: string, call: Call, answer: Answer) {
    if key in memory then memory[key] == Deal(call, answer)
    else Honours(call, answer)
         && forall k | k in memory && SameKind(memory[k].call, call) :: memory[k].answer.id != answer.id
  }

  // ---------------------------------------------------------------------------------------
  // Steps and runs
  // ---------------------------------------------------------------------------------------

  predicate Enabled(s: Sys, step: Step) {
    match step
    case Start(tid, _, _) => tid !in s.txns
    case Reach(tid, answer, _) =>
      tid in s.txns && s.txns[tid].Calling? && Accepts(s.memory, s.txns[tid].key, s.txns[tid].call, answer)
    case End(tid) => tid in s.txns && s.txns[tid].Ready?
    case Abandon(tid) => tid in s.txns
    case Clean(_) => true
  }

  function Drop(txns: map<nat, Txn>, tid: nat): map<nat, Txn> {
    map t | t in txns && t != tid :: txns[t]
  }

  function Next(s: Sys, step: Step): Sys
    requires Enabled(s, step)
  {
    match step
    case Start(tid, request, now) =>
      (match Begin(s.db, request, now)
       case Proceed(txn) => s.(txns := s.txns[tid := txn])
       case _ => s)
    case Reach(tid, answer, now) =>
      var txn := s.txns[tid];
      var memory := s.memory[txn.key := Deal(txn.call, answer)];
      (match Continue(txn.key, txn.next, answer, now)
       case Success(plan) => s.(memory := memory, txns := s.txns[tid := Ready(plan)])
       case Failure(_) => s.(memory := memory, txns := Drop(s.txns, tid)))
    case End(tid) =>
      (match Commit(s.db, s.txns[tid].plan)
       case Some(db) => s.(db := db, txns := Drop(s.txns, tid))
       case None => s.(txns := Drop(s.txns, tid)))
    case Abandon(tid) => s.(txns := Drop(s.txns, tid))
    case Clean(now) => s.(db := Cleanup(s.db, now))
  }

  /** A request ends once: committed, rolled back or abandoned, it is gone, and the others are as they were. */
  lemma RequestsEndOnce(s: Sys, tid: nat, other: nat)
    requires tid in s.txns && other != tid
    ensures
      var after := Next(s, Abandon(tid));
      && tid !in after.txns && after.db == s.db && after.memory == s.memory
      && (other in after.txns <==> other in s.txns) && (other in s.txns ==> after.txns[other] == s.txns[other])
    ensures s.txns[tid].Ready? ==>
      var after := Next(s, End(tid));
      && tid !in after.txns && after.memory == s.memory
      && (other in after.txns <==> other in s.txns) && (other in s.txns ==> after.txns[other] == s.txns[other])
      && (Commit(s.db, s.txns[tid].plan).None? ==> after.db == s.db)
  {
  }

  ghost predicate Legal(s: Sys, steps: seq<Step>)
    decreases |steps|
  {
    steps != [] ==> Enabled(s, steps[0]) && Legal(Next(s, steps[0]), steps[1..])
  }

  ghost function Run(s: Sys, steps: seq<Step>): Sys
    requires Legal(s, steps)
    decreases |steps|
  {
    if steps == [] then s else Run(Next(s, steps[0]), steps[1..])
  }

  const EMPTY := Sys(Db([], [], map[], []), map[], map[])

  // ---------------------------------------------------------------------------------------
  // What one committed table becomes in another, however many requests later
  // ---------------------------------------------------------------------------------------

  ghost predicate PaymentFollows(p: Payment, q: Payment) {
    && q.externalId == p.externalId && q.amount == p.amount && q.currency == p.currency
    && q.idempotencyKey == p.idempotencyKey
    && (p.confirmedAt.Some? ==> q.confirmedAt.Some?)
    && (p.canceledAt.Some? ==> q.canceledAt.Some?)
  }

  ghost predicate RefundFollows(r: Refund, q: Refund) {
    && q.(status := r.status) == r
    && (r.status == RefundSucceeded ==> q.status == RefundSucceeded)
  }

  ghost predicate Evolves(a: Db, b: Db) {
    && |a.payments| <= |b.payments|
    && (forall i | 0 <= i < |a.payments| :: PaymentFollows(a.payments[i], b.payments[i]))
    && |a.refunds| <= |b.refunds|
    && (forall i | 0 <= i < |a.refunds| :: RefundFollows(a.refunds[i], b.refunds[i]))
    && a.audit <= b.audit
  }

  // ---------------------------------------------------------------------------------------
  // The invariant
  // ---------------------------------------------------------------------------------------

  const PAID: set<Status> := {Succeeded, PartiallyRefunded, Refunded, Disputed}

  ghost predicate MemoryOk(memory: Memory) {
    && (forall k | k in memory :: Honours(memory[k].call, memory[k].answer))
    && (forall k, l | k in memory && l in memory && k != l && SameKind(memory[k].call, memory[l].call) ::
          memory[k].answer.id != memory[l].answer.id)
  }

  ghost predicate Stamped(p: Payment) {
    && (p.status in PAID ==> p.confirmedAt.Some?)
    && (p.status == Canceled ==> p.canceledAt.Some?)
  }

  // The row carries the intent the provider holds under the row's key.
  ghost predicate Charged(memory: Memory, p: Payment) {
    && p.idempotencyKey in memory
    && memory[p.idempotencyKey].call == CreateIntent(p.amount, p.currency)
    && memory[p.idempotencyKey].answer.id == p.externalId
  }

  ghost predicate PaymentOk(db: Db, memory: Memory, i: nat)
    requires i < |db.payments|
  {
    var p := db.payments[i];
    && Stamped(p)
    && Charged(memory, p)
    && (p.status == Refunded ==> RefundedAmount(db.refunds, i) >= p.amount)
  }

  // A refund row, committed or about to be, against the payment it refunds.
  ghost predicate RefundRowOk(db: Db, memory: Memory, r: Refund) {
    && r.paymentId < |db.payments|
    && db.payments[r.paymentId].confirmedAt.Some?
    && 0 < r.amount <= db.payments[r.paymentId].amount
    && r.idempotencyKey in memory
    && memory[r.idempotencyKey].call == CreateProviderRefund(db.payments[r.paymentId].externalId, r.amount, r.reason)
    && memory[r.idempotencyKey].answer.id == r.externalId
  }

  ghost predicate DbOk(db: Db, memory: Memory) {
    && (forall i: nat | i < |db.payments| :: PaymentOk(db, memory, i))
    && (forall i | 0 <= i < |db.refunds| :: RefundRowOk(db, memory, db.refunds[i]))
    && Distinct(PaymentKeys(db.payments))
    && Distinct(RefundKeys(db.refunds))
    && (forall id | id in db.events :: db.events[id].processed)
  }

  // The rows a refund's guard subtracted were settled rows of its payment, and left room for it.
  ghost predicate Counted(db: Db, pid: nat, amount: int, counted: set<nat>) {
    && pid < |db.payments|
    && counted <= SettledRowsOf(db.refunds, pid)
    && amount <= db.payments[pid].amount - Sum(db.refunds, counted)
  }

  // What a pending write to a payment row relies on: the stamps and sums that justify its status.
  ghost predicate ChangeOk(db: Db, pid: nat, c: Change, settled: Option<nat>) {
    && pid < |db.payments|
    && (c.status == Some(Succeeded) ==> c.confirmedAt.Some?)
    && (c.status == Some(Canceled) ==> c.canceledAt.Some?)
    && (c.status.Some? && c.status.value in PAID && c.status.value != Succeeded ==> db.payments[pid].confirmedAt.Some?)
    && (c.status == Some(Refunded) ==> RefundedAmount(Settle(db.refunds, settled), pid) >= db.payments[pid].amount)
  }

  ghost predicate PlanOk(db: Db, memory: Memory, plan: Plan) {
    match plan
    case InsertPayment(row, _) => Stamped(row) && row.status != Refunded && Charged(memory, row)
    case UpdatePayment(pid, change, _) => ChangeOk(db, pid, change, None)
    case InsertRefund(row, counted, _) =>
      RefundRowOk(db, memory, row) && Counted(db, row.paymentId, row.amount, counted)
    case RecordEvent(_, row, reused, effect) =>
      row.processed && !reused && (effect.Effect? ==> ChangeOk(db, effect.pid, effect.change, effect.settled))
  }

  ghost predicate TxnOk(db: Db, memory: Memory, txn: Txn) {
    match txn
    case Ready(plan) => PlanOk(db, memory, plan)
    case Calling(_, call, AddPayment) => call.CreateIntent?
    case Calling(_, call, Confirm(pid, _)) => call.ConfirmIntent? && pid < |db.payments|
    case Calling(_, call, Cancel(pid, _, _)) => call.CancelIntent? && pid < |db.payments|
    case Calling(_, call, AddRefund(pid, amount, reason, counted)) =>
      && Counted(db, pid, amount, counted)
      && db.payments[pid].confirmedAt.Some?
      && call == CreateProviderRefund(db.payments[pid].externalId, amount, reason)
  }

  ghost predicate Inv(s: Sys) {
    && MemoryOk(s.memory)
    && DbOk(s.db, s.memory)
    && (forall t | t in s.txns :: TxnOk(s.db, s.memory, s.txns[t]))
  }

  // ---------------------------------------------------------------------------------------
  // The invariant of a pending request survives what other requests do
  // ---------------------------------------------------------------------------------------

  lemma {:induction false} RefundedAmountGrows(a: Db, b: Db, memory: Memory, settled: Option<nat>, pid: nat)
    requires Evolves(a, b) && DbOk(b, memory)
    ensures RefundedAmount(Settle(a.refunds, settled), pid) <= RefundedAmount(Settle(b.refunds, settled), pid)
  {
    var x, y := Settle(a.refunds, settled), Settle(b.refunds, settled);
    forall i | 0 <= i < |x|
      ensures x[i].amount == y[i].amount && (i in SettledRowsOf(x, pid) ==> i in SettledRowsOf(y, pid))
    {
      assert RefundFollows(a.refunds[i], b.refunds[i]);
    }
    forall i | 0 <= i < |y|
      ensures y[i].amount >= 0
    {
      assert RefundRowOk(b, memory, b.refunds[i]);
    }
    SumGrows(x, SettledRowsOf(x, pid), y, SettledRowsOf(y, pid));
  }

  lemma {:induction false} CountedIsStable(a: Db, b: Db, pid: nat, amount: int, counted: set<nat>)
    requires Evolves(a, b) && Counted(a, pid, amount, counted)
    ensures Counted(b, pid, amount, counted)
  {
    assert PaymentFollows(a.payments[pid], b.payments[pid]);
    forall i: nat | i < |a.refunds|
      ensures a.refunds[i].amount == b.refunds[i].amount
      ensures i in SettledRowsOf(a.refunds, pid) ==> i in SettledRowsOf(b.refunds, pid)
    {
      assert RefundFollows(a.refunds[i], b.refunds[i]);
    }
    SumDependsOnRows(a.refunds, counted, b.refunds, counted);
  }

  ghost predicate Remembers(a: Memory, b: Memory) {
    forall k | k in a :: k in b && b[k] == a[k]
  }

  lemma {:induction false} TxnIsStable(a: Db, m: Memory, b: Db, n: Memory, txn: Txn)
    requires Evolves(a, b) && Remembers(m, n) && DbOk(b, n) && TxnOk(a, m, txn)
    ensures TxnOk(b, n, txn)
  {
    match txn
    case Calling(_, call, AddPayment) =>
    case Calling(_, call, Confirm(pid, _)) =>
    case Calling(_, call, Cancel(pid, _, _)) =>
    case Calling(_, call, AddRefund(pid, amount, reason, counted)) =>
      CountedIsStable(a, b, pid, amount, counted);
      assert PaymentFollows(a.payments[pid], b.payments[pid]);
    case Ready(InsertPayment(row, _)) =>
    case Ready(UpdatePayment(pid, change, _)) =>
      assert PaymentFollows(a.payments[pid], b.payments[pid]);
      RefundedAmountGrows(a, b, n, None, pid);
    case Ready(InsertRefund(row, counted, _)) =>
      CountedIsStable(a, b, row.paymentId, row.amount, counted);
      assert PaymentFollows(a.payments[row.paymentId], b.payments[row.paymentId]);
    case Ready(RecordEvent(_, _, _, effect)) =>
      if effect.Effect? {
        assert PaymentFollows(a.payments[effect.pid], b.payments[effect.pid]);
        RefundedAmountGrows(a, b, n, effect.settled, effect.pid);
      }
  }

  // ---------------------------------------------------------------------------------------
  // Each step keeps the invariant
  // ---------------------------------------------------------------------------------------

  lemma BeginRefundOk(db: Db, memory: Memory, pid: nat, amount: Option<int>, reason: Option<string>, key: string)
    requires DbOk(db, memory) && BeginRefund(db, pid, amount, reason, key).Proceed?
    ensures TxnOk(db, memory, BeginRefund(db, pid, amount, reason, key).txn)
  {
    assert PaymentOk(db, memory, pid);
  }

  lemma RefundEffectOk(db: Db, memory: Memory, pid: nat, row: Option<nat>, now: Time)
    requires pid < |db.payments| && PaymentOk(db, memory, pid)
    ensures ChangeOk(db, pid, RefundEffect(db, pid, row, now).change, row)
  {
  }

  lemma HandlerEffectOk(db: Db, memory: Memory, event: Event, pid: nat, now: Time)
    requires pid < |db.payments| && PaymentOk(db, memory, pid)
    requires HandleFor(db, event, pid, now).Success? && HandleFor(db, event, pid, now).value.Effect?
    ensures
      var effect := HandleFor(db, event, pid, now).value;
      effect.pid == pid && ChangeOk(db, pid, effect.change, effect.settled)
  {
    if event.kind == ChargeRefunded {
      RefundEffectOk(db, memory, pid, HandleFor(db, event, pid, now).value.settled, now);
    }
  }

  lemma BeginWebhookOk(db: Db, memory: Memory, event: Event, now: Time)
    requires DbOk(db, memory) && BeginWebhook(db, event, now).Proceed?
    ensures TxnOk(db, memory, BeginWebhook(db, event, now).txn)
  {
    var effect := Handle(db, event, now).value;
    if effect.Effect? {
      var pid := FindReference(PaymentIds(db.payments), event.paymentRef).row;
      assert PaymentOk(db, memory, pid);
      HandlerEffectOk(db, memory, event, pid, now);
    }
  }

  lemma BeginOk(db: Db, memory: Memory, request: Request, now: Time)
    requires DbOk(db, memory) && Begin(db, request, now).Proceed?
    ensures TxnOk(db, memory, Begin(db, request, now).txn)
  {
    match request
    case CreateRefund(pid, amount, reason, key) => BeginRefundOk(db, memory, pid, amount, reason, key);
    case DeliverWebhook(event) => BeginWebhookOk(db, memory, event, now);
    case _ =>
  }

  lemma ContinueOk(db: Db, memory: Memory, txn: Txn, answer: Answer, now: Time)
    requires DbOk(db, memory) && txn.Calling? && TxnOk(db, memory, txn)
    requires txn.key in memory && memory[txn.key] == Deal(txn.call, answer) && Honours(txn.call, answer)
    ensures Continue(txn.key, txn.next, answer, now).Success?
    ensures PlanOk(db, memory, Continue(txn.key, txn.next, answer, now).value)
  {
    if txn.next.AddRefund? {
      var counted := txn.next.counted;
      forall i | 0 <= i < |db.refunds|
        ensures db.refunds[i].amount >= 0
      {
        assert RefundRowOk(db, memory, db.refunds[i]);
      }
      SumGrows([], {}, db.refunds, counted);
    }
  }

  lemma {:induction false} MemoryGrows(db: Db, m: Memory, n: Memory)
    requires DbOk(db, m) && Remembers(m, n)
    ensures DbOk(db, n)
  {
    forall i: nat | i < |db.payments|
      ensures PaymentOk(db, n, i)
    {
      assert PaymentOk(db, m, i);
    }
    forall i | 0 <= i < |db.refunds|
      ensures RefundRowOk(db, n, db.refunds[i])
    {
      assert RefundRowOk(db, m, db.refunds[i]);
    }
  }

  lemma ApplyEvolves(db: Db, effect: Effect)
    requires effect.Effect? ==> effect.pid < |db.payments|
    ensures Evolves(db, Apply(db, effect))
  {
  }

  lemma CommitEvolves(db: Db, plan: Plan)
    requires Commit(db, plan).Some?
    ensures Evolves(db, Commit(db, plan).value)
  {
    match plan
    case UpdatePayment(pid, change, entry) => ApplyEvolves(db, Effect(pid, change, None, [entry]));
    case RecordEvent(_, _, _, effect) => ApplyEvolves(db, effect);
    case _ =>
  }

  // Everything in DbOk that does not depend on statuses carries over to a table that evolved.
  lemma {:induction false} RefundRowIsStable(a: Db, b: Db, memory: Memory, i: nat)
    requires Evolves(a, b) && i < |a.refunds| && RefundRowOk(a, memory, a.refunds[i])
    ensures RefundRowOk(b, memory, b.refunds[i])
  {
    assert RefundFollows(a.refunds[i], b.refunds[i]);
    assert PaymentFollows(a.payments[a.refunds[i].paymentId], b.payments[a.refunds[i].paymentId]);
  }

  lemma {:induction false} RefundRowsAreStable(a: Db, b: Db, memory: Memory)
    requires Evolves(a, b) && DbOk(a, memory)
    ensures forall i | 0 <= i < |a.refunds| :: RefundRowOk(b, memory, b.refunds[i])
  {
    forall i | 0 <= i < |a.refunds|
      ensures RefundRowOk(b, memory, b.refunds[i])
    {
      RefundRowIsStable(a, b, memory, i);
    }
  }

  lemma {:induction false} RefundedAmountGrowsTo(a: Db, b: Db, memory: Memory, pid: nat)
    requires Evolves(a, b)
    requires forall i | 0 <= i < |b.refunds| :: RefundRowOk(b, memory, b.refunds[i])
    ensures RefundedAmount(a.refunds, pid) <= RefundedAmount(b.refunds, pid)
  {
    forall i: nat | i < |a.refunds|
      ensures a.refunds[i].amount == b.refunds[i].amount
      ensures i in SettledRowsOf(a.refunds, pid) ==> i in SettledRowsOf(b.refunds, pid)
    {
      assert RefundFollows(a.refunds[i], b.refunds[i]);
    }
    SumGrows(a.refunds, SettledRowsOf(a.refunds, pid), b.refunds, SettledRowsOf(b.refunds, pid));
  }

  lemma {:induction false} ApplyOk(db: Db, memory: Memory, effect: Effect)
    requires DbOk(db, memory)
    requires effect.Effect? ==> ChangeOk(db, effect.pid, effect.change, effect.settled)
    ensures DbOk(Apply(db, effect), memory)
  {
    var after := Apply(db, effect);
    ApplyEvolves(db, effect);
    RefundRowsAreStable(db, after, memory);
    forall i: nat | i < |after.payments|
      ensures PaymentOk(after, memory, i)
    {
      assert PaymentOk(db, memory, i);
      RefundedAmountGrowsTo(db, after, memory, i);
    }
    assert PaymentKeys(after.payments) == PaymentKeys(db.payments);
    assert RefundKeys(after.refunds) == RefundKeys(db.refunds);
  }

  lemma {:induction false} EventsAside(a: Db, b: Db, memory: Memory)
    requires DbOk(a, memory) && b == a.(events := b.events)
    requires forall id | id in b.events :: b.events[id].processed
    ensures DbOk(b, memory)
  {
    forall i: nat | i < |b.payments|
      ensures PaymentOk(b, memory, i)
    {
      assert PaymentOk(a, memory, i);
    }
    forall i | 0 <= i < |b.refunds|
      ensures RefundRowOk(b, memory, b.refunds[i])
    {
      assert RefundRowOk(a, memory, a.refunds[i]);
    }
  }

  lemma {:induction false} InsertOk(db: Db, memory: Memory, plan: Plan)
    requires DbOk(db, memory) && PlanOk(db, memory, plan) && Commit(db, plan).Some?
    requires plan.InsertPayment? || plan.InsertRefund?
    ensures DbOk(Commit(db, plan).value, memory)
  {
    var after := Commit(db, plan).value;
    CommitEvolves(db, plan);
    RefundRowsAreStable(db, after, memory);
    if plan.InsertRefund? {
      assert RefundRowOk(after, memory, plan.refund);
      assert RefundKeys(after.refunds) == RefundKeys(db.refunds) + [plan.refund.idempotencyKey];
    } else {
      assert PaymentKeys(after.payments) == PaymentKeys(db.payments) + [plan.row.idempotencyKey];
    }
    forall i: nat | i < |after.payments|
      ensures PaymentOk(after, memory, i)
    {
      if i < |db.payments| {
        assert PaymentOk(db, memory, i);
        RefundedAmountGrowsTo(db, after, memory, i);
      }
    }
  }

  lemma {:induction false} CommitOk(db: Db, memory: Memory, plan: Plan)
    requires DbOk(db, memory) && PlanOk(db, memory, plan) && Commit(db, plan).Some?
    ensures DbOk(Commit(db, plan).value, memory)
  {
    match plan
    case UpdatePayment(pid, change, entry) => ApplyOk(db, memory, Effect(pid, change, None, [entry]));
    case RecordEvent(_, _, _, effect) =>
      ApplyOk(db, memory, effect);
      EventsAside(Apply(db, effect), Commit(db, plan).value, memory);
    case _ => InsertOk(db, memory, plan);
  }

  lemma {:induction false} EvolvesReflexive(db: Db)
    ensures Evolves(db, db)
  {
  }

  lemma {:induction false} EvolvesTransitive(a: Db, b: Db, c: Db)
    requires Evolves(a, b) && Evolves(b, c)
    ensures Evolves(a, c)
  {
    forall i | 0 <= i < |a.payments|
      ensures PaymentFollows(a.payments[i], c.payments[i])
    {
      assert PaymentFollows(a.payments[i], b.payments[i]) && PaymentFollows(b.payments[i], c.payments[i]);
    }
    forall i | 0 <= i < |a.refunds|
      ensures RefundFollows(a.refunds[i], c.refunds[i])
    {
      assert RefundFollows(a.refunds[i], b.refunds[i]) && RefundFollows(b.refunds[i], c.refunds[i]);
    }
  }

  /** What a step needs to show: the tables evolve and stay sound, and so does the request it moved. */
  lemma {:induction false} OthersAreStable(s: Sys, after: Sys)
    requires Inv(s) && MemoryOk(after.memory) && Remembers(s.memory, after.memory)
    requires DbOk(after.db, after.memory) && Evolves(s.db, after.db)
    requires forall t | t in after.txns ::
      (t in s.txns && after.txns[t] == s.txns[t]) || TxnOk(after.db, after.memory, after.txns[t])
    ensures Inv(after)
  {
    forall t | t in after.txns
      ensures TxnOk(after.db, after.memory, after.txns[t])
    {
      if t in s.txns && after.txns[t] == s.txns[t] {
        TxnIsStable(s.db, s.memory, after.db, after.memory, s.txns[t]);
      }
    }
  }

  lemma {:induction false} ReachKeepsInv(s: Sys, tid: nat, answer: Answer, now: Time)
    requires Inv(s) && Enabled(s, Reach(tid, answer, now))
    ensures Inv(Next(s, Reach(tid, answer, now)))
    ensures Remembers(s.memory, Next(s, Reach(tid, answer, now)).memory)
  {
    var after := Next(s, Reach(tid, answer, now));
    var txn := s.txns[tid];
    EvolvesReflexive(s.db);
    MemoryGrows(s.db, s.memory, after.memory);
    TxnIsStable(s.db, s.memory, s.db, after.memory, txn);
    ContinueOk(s.db, after.memory, txn, answer, now);
    OthersAreStable(s, after);
  }

  lemma {:induction false} EndKeepsInv(s: Sys, tid: nat)
    requires Inv(s) && Enabled(s, End(tid))
    ensures Inv(Next(s, End(tid)))
    ensures Evolves(s.db, Next(s, End(tid)).db)
  {
    var plan := s.txns[tid].plan;
    assert TxnOk(s.db, s.memory, s.txns[tid]);
    EvolvesReflexive(s.db);
    if Commit(s.db, plan).Some? {
      CommitOk(s.db, s.memory, plan);
      CommitEvolves(s.db, plan);
    }
    OthersAreStable(s, Next(s, End(tid)));
  }

  /** One step of any request or job, from any state the invariant allows. */
  lemma {:induction false} StepKeepsInv(s: Sys, step: Step)
    requires Inv(s) && Enabled(s, step)
    ensures Inv(Next(s, step))
    ensures Evolves(s.db, Next(s, step).db)
    ensures Remembers(s.memory, Next(s, step).memory)
  {
    EvolvesReflexive(s.db);
    match step
    case Start(tid, request, now) =>
      if Begin(s.db, request, now).Proceed? {
        BeginOk(s.db, s.memory, request, now);
      }
    case Reach(tid, answer, now) => ReachKeepsInv(s, tid, answer, now);
    case End(tid) => EndKeepsInv(s, tid);
    case Abandon(_) =>
    case Clean(now) =>
      var after := Next(s, step);
      EventsAside(s.db, after.db, s.memory);
      assert Evolves(s.db, after.db);
      OthersAreStable(s, after);
  }

  lemma {:induction false} RunKeepsInv(s: Sys, steps: seq<Step>)
    requires Inv(s) && Legal(s, steps)
    ensures Inv(Run(s, steps))
    ensures Evolves(s.db, Run(s, steps).db)
    ensures Remembers(s.memory, Run(s, steps).memory)
    decreases |steps|
  {
    if steps != [] {
      var mid := Next(s, steps[0]);
      StepKeepsInv(s, steps[0]);
      RunKeepsInv(mid, steps[1..]);
      EvolvesTransitive(s.db, mid.db, Run(s, steps).db);
    }
  }
}
