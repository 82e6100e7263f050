/**
 When a status moves against the transition table. Only the webhook handlers consult the table, and
 they consult it for the status they read, not for the one they overwrite.
 */
module Transitions {
  import opened Prelude
  import opened Ledger
  import opened Webhooks
  import opened Requests
  import opened Interleaving
  import opened Safety

  /** Payment `pid` changed its status between the two tables, and not along the table of transitions. */
  predicate LeavesTable(before: Db, after: Db, pid: nat)
    requires pid < |before.payments| && pid < |after.payments|
  {
    var p, q := before.payments[pid].status, after.payments[pid].status;
    p != q && !CanTransition(p, q)
  }

  /** Storing `planned`, if anything, over `current` breaks the table. */
  predicate Clashes(current: Status, planned: Option<Status>) {
    planned.Some? && planned.value != current && planned.value !in Targets(current)
  }

  function Stored(current: Status, planned: Option<Status>): Status {
    if planned.Some? then planned.value else current
  }

  // The status a plan would store in payment `pid`.
  function Planned(plan: Plan, pid: nat): Option<Status> {
    match plan
    case UpdatePayment(p, change, _) => if p == pid then change.status else None
    case RecordEvent(_, _, _, effect) => if effect.Effect? && effect.pid == pid then effect.change.status else None
    case _ => None
  }

  lemma {:induction false} CommitLeavesTable(db: Db, plan: Plan, pid: nat)
    requires pid < |db.payments| && Commit(db, plan).Some?
    ensures pid < |Commit(db, plan).value.payments|
    ensures LeavesTable(db, Commit(db, plan).value, pid) <==> Clashes(db.payments[pid].status, Planned(plan, pid))
  {
  }

  /** Of all steps only a commit moves a status, and it breaks the table exactly when its plan clashes with what is committed by then. */
  lemma {:induction false} StepLeavesTable(s: Sys, step: Step, pid: nat)
    requires Enabled(s, step) && pid < |s.db.payments|
    ensures pid < |Next(s, step).db.payments|
    ensures LeavesTable(s.db, Next(s, step).db, pid)
       <==> step.End? && Commit(s.db, s.txns[step.tid].plan).Some?
            && Clashes(s.db.payments[pid].status, Planned(s.txns[step.tid].plan, pid))
  {
    if step.End? && Commit(s.db, s.txns[step.tid].plan).Some? {
      CommitLeavesTable(s.db, s.txns[step.tid].plan, pid);
    }
  }

  // ---------------------------------------------------------------------------------------
  // A request in flight
  // ---------------------------------------------------------------------------------------

  /** Nothing along the steps moves request `tid` itself. */
  predicate LeaveAlone(steps: seq<Step>, tid: nat) {
    forall i | 0 <= i < |steps| ::
      steps[i] != End(tid) && steps[i] != Abandon(tid) && !(steps[i].Reach? && steps[i].tid == tid)
  }

  lemma {:induction false} InFlight(s: Sys, steps: seq<Step>, tid: nat)
    requires Inv(s) && tid in s.txns && Legal(s, steps) && LeaveAlone(steps, tid)
    ensures tid in Run(s, steps).txns && Run(s, steps).txns[tid] == s.txns[tid]
    ensures Inv(Run(s, steps)) && |s.db.payments| <= |Run(s, steps).db.payments|
    decreases |steps|
  {
    RunKeepsInv(s, steps);
    if steps != [] {
      StepKeepsInv(s, steps[0]);
      assert steps[0] != End(tid) && steps[0] != Abandon(tid);
      assert LeaveAlone(steps[1..], tid) by {
        assert forall i | 0 <= i < |steps| - 1 :: steps[1..][i] == steps[i + 1];
      }
      InFlight(Next(s, steps[0]), steps[1..], tid);
    }
  }

  // ---------------------------------------------------------------------------------------
  // Webhooks
  // ---------------------------------------------------------------------------------------

  /** The status an event asks for, given the tables it is handled on. */
  function Wanted(db: Db, event: Event, pid: nat): Status
    requires pid < |db.payments|
  {
    match event.kind
    case PaymentSucceeded => Succeeded
    case PaymentFailed => Failed
    case PaymentCanceled => Canceled
    case PaymentProcessing => Processing
    case PaymentRequiresAction => RequiresAction
    case DisputeCreated => Disputed
    case ChargeRefunded =>
      var found := FindReference(RefundIds(db.refunds), event.refundRef);
      var refunds := Settle(db.refunds, if found.One? then Some(found.row) else None);
      if RefundedAmount(refunds, pid) >= db.payments[pid].amount then Refunded else PartiallyRefunded
    case Unhandled(_) => db.payments[pid].status
  }

  /** The handler's own guard: the status it decides to store in payment `pid`, from what it reads. */
  function Aim(db: Db, event: Event, pid: nat): Option<Status>
    requires pid < |db.payments|
  {
    if !event.kind.Unhandled? && FindReference(PaymentIds(db.payments), event.paymentRef) == One(pid)
       && CanTransition(db.payments[pid].status, Wanted(db, event, pid))
    then Some(Wanted(db, event, pid)) else None
  }

  lemma {:induction false} WebhookPlansItsAim(db: Db, event: Event, at: Time, pid: nat)
    requires pid < |db.payments| && BeginWebhook(db, event, at).Proceed?
    ensures BeginWebhook(db, event, at).txn.Ready? && BeginWebhook(db, event, at).txn.plan.RecordEvent?
    ensures BeginWebhook(db, event, at).txn.plan.eventId == event.id
    ensures Planned(BeginWebhook(db, event, at).txn.plan, pid) == Aim(db, event, pid)
  {
  }

  /** A webhook whose payment kept the status it was read with moves it along the transition table. */
  lemma {:induction false} UndisturbedWebhookFollowsTable(read: Db, now_: Db, event: Event, at: Time, pid: nat)
    requires BeginWebhook(read, event, at).Proceed?
    requires Evolves(read, now_) && pid < |read.payments|
    requires read.payments[pid].status == now_.payments[pid].status
    requires Commit(now_, BeginWebhook(read, event, at).txn.plan).Some?
    ensures
      var after := Commit(now_, BeginWebhook(read, event, at).txn.plan).value.payments[pid].status;
      after == now_.payments[pid].status || CanTransition(now_.payments[pid].status, after)
  {
    WebhookPlansItsAim(read, event, at, pid);
    CommitLeavesTable(now_, BeginWebhook(read, event, at).txn.plan, pid);
  }

  /**
   A webhook delivered in any reachable state, among any other requests. Its commit breaks the table
   if and only if the event was not recorded meanwhile and the status its guard let through clashes
   with the one committed by then.
   */
  lemma {:induction false} WebhookLeavesTable(s: Sys, tid: nat, event: Event, at: Time, more: seq<Step>, pid: nat)
    requires Reachable(s) && tid !in s.txns && BeginWebhook(s.db, event, at).Proceed? && pid < |s.db.payments|
    requires Legal(Next(s, Start(tid, DeliverWebhook(event), at)), more) && LeaveAlone(more, tid)
    ensures
      var now_ := Run(Next(s, Start(tid, DeliverWebhook(event), at)), more);
      && Enabled(now_, End(tid)) && pid < |now_.db.payments| && pid < |Next(now_, End(tid)).db.payments|
      && (LeavesTable(now_.db, Next(now_, End(tid)).db, pid) <==>
            event.id !in now_.db.events && Clashes(now_.db.payments[pid].status, Aim(s.db, event, pid)))
  {
    ReachableIsSound(s);
    var start := Start(tid, DeliverWebhook(event), at);
    var s1 := Next(s, start);
    StepKeepsInv(s, start);
    WebhookPlansItsAim(s.db, event, at, pid);
    InFlight(s1, more, tid);
    var now_ := Run(s1, more);
    assert TxnOk(now_.db, now_.memory, now_.txns[tid]);
    StepLeavesTable(now_, End(tid), pid);
  }

  /** `second` reads, then `first` reads and commits; `second` is yet to commit. */
  function Race(tid: nat, first: Event, tid': nat, second: Event, at: Time): seq<Step> {
    [Start(tid', DeliverWebhook(second), at), Start(tid, DeliverWebhook(first), at), End(tid)]
  }

  /**
   Two webhooks read the same payment and `first` commits before `second`. The second commit breaks
   the table if and only if both guards let a status through, the two differ, and the table has no
   move from the first to the second.
   */
  lemma {:induction false} RacingWebhooks(s: Sys, tid: nat, first: Event, tid': nat, second: Event, at: Time, pid: nat)
    requires Reachable(s) && tid !in s.txns && tid' !in s.txns && tid != tid' && first.id != second.id
    requires BeginWebhook(s.db, first, at).Proceed? && BeginWebhook(s.db, second, at).Proceed?
    requires pid < |s.db.payments|
    ensures Legal(s, Race(tid, first, tid', second, at))
    ensures
      var now_ := Run(s, Race(tid, first, tid', second, at));
      var a, b := Aim(s.db, first, pid), Aim(s.db, second, pid);
      && Enabled(now_, End(tid')) && pid < |now_.db.payments| && pid < |Next(now_, End(tid')).db.payments|
      && (LeavesTable(now_.db, Next(now_, End(tid')).db, pid) <==>
            a.Some? && b.Some? && a != b && !CanTransition(a.value, b.value))
  {
    RaceRuns(s, tid, first, tid', second, at, pid);
    WebhookLeavesTable(s, tid', second, at, [Start(tid, DeliverWebhook(first), at), End(tid)], pid);
    BeginWebhookIsNew(s, second, at);
    AimsAreGuarded(s.db, first, second, pid);
  }

  lemma {:induction false} RaceRuns(s: Sys, tid: nat, first: Event, tid': nat, second: Event, at: Time, pid: nat)
    requires Reachable(s) && tid !in s.txns && tid' !in s.txns && tid != tid'
    requires BeginWebhook(s.db, first, at).Proceed? && BeginWebhook(s.db, second, at).Proceed?
    requires pid < |s.db.payments|
    ensures
      var s1 := Next(s, Start(tid', DeliverWebhook(second), at));
      var rest := [Start(tid, DeliverWebhook(first), at), End(tid)];
      && Legal(s1, rest) && Legal(s, Race(tid, first, tid', second, at))
      && Run(s, Race(tid, first, tid', second, at)) == Run(s1, rest)
      && Run(s1, rest).db.events.Keys == s.db.events.Keys + {first.id}
      && pid < |Run(s1, rest).db.payments|
      && Run(s1, rest).db.payments[pid].status == Stored(s.db.payments[pid].status, Aim(s.db, first, pid))
  {
    var start := Start(tid', DeliverWebhook(second), at);
    var s1 := Next(s, start);
    RacerCommits(s, s1, tid, first, at, pid);
    RunTwo(s1, Start(tid, DeliverWebhook(first), at), End(tid));
    RunThree(s, start, Start(tid, DeliverWebhook(first), at), End(tid));
  }

  lemma BeginWebhookIsNew(s: Sys, event: Event, at: Time)
    requires Reachable(s) && BeginWebhook(s.db, event, at).Proceed?
    ensures event.id !in s.db.events
  {
    ReachableIsSound(s);
  }

  lemma AimsAreGuarded(db: Db, first: Event, second: Event, pid: nat)
    requires pid < |db.payments|
    ensures
      var a, b := Aim(db, first, pid), Aim(db, second, pid);
      Clashes(Stored(db.payments[pid].status, a), b) <==>
        a.Some? && b.Some? && a != b && !CanTransition(a.value, b.value)
  {
  }

  // The first of the two, started on the same tables, finds nothing in its way.
  lemma {:induction false} RacerCommits(s: Sys, s1: Sys, tid: nat, event: Event, at: Time, pid: nat)
    requires Reachable(s) && s1.db == s.db && tid !in s1.txns && pid < |s.db.payments|
    requires BeginWebhook(s.db, event, at).Proceed?
    ensures
      var s2 := Next(s1, Start(tid, DeliverWebhook(event), at));
      && Enabled(s2, End(tid))
      && Next(s2, End(tid)).db.events.Keys == s.db.events.Keys + {event.id}
      && pid < |Next(s2, End(tid)).db.payments|
      && Next(s2, End(tid)).db.payments[pid].status == Stored(s.db.payments[pid].status, Aim(s.db, event, pid))
  {
    ReachableIsSound(s);
    WebhookPlansItsAim(s.db, event, at, pid);
    BeginWebhookOk(s.db, s.memory, event, at);
    CommitStoresPlanned(s.db, BeginWebhook(s.db, event, at).txn.plan, pid);
  }

  lemma {:induction false} CommitStoresPlanned(db: Db, plan: Plan, pid: nat)
    requires pid < |db.payments| && Commit(db, plan).Some?
    ensures
      var after := Commit(db, plan).value;
      && pid < |after.payments|
      && after.payments[pid].status == Stored(db.payments[pid].status, Planned(plan, pid))
  {
  }

  // ---------------------------------------------------------------------------------------
  // Confirming and canceling
  // ---------------------------------------------------------------------------------------

  /** A request in flight that waits `before`, is answered, waits `more` and is about to commit. */
  ghost predicate AboutToCommit(s: Sys, tid: nat, before: seq<Step>, answer: Answer, later: Time, more: seq<Step>) {
    && Legal(s, before) && LeaveAlone(before, tid)
    && Enabled(Run(s, before), Reach(tid, answer, later))
    && Legal(Next(Run(s, before), Reach(tid, answer, later)), more) && LeaveAlone(more, tid)
  }

  ghost function AtCommit(s: Sys, tid: nat, before: seq<Step>, answer: Answer, later: Time, more: seq<Step>): Sys
    requires AboutToCommit(s, tid, before, answer, later, more)
  {
    Run(Next(Run(s, before), Reach(tid, answer, later)), more)
  }

  /**
   confirm_payment in any reachable state, among any other requests before and after the provider
   answers. Its commit breaks the table if and only if the answer differs from the status first
   read and clashes with the one committed by then; the table itself is never asked.
   */
  lemma {:induction false} ConfirmLeavesTable(s: Sys, tid: nat, pid: nat, methodId: string, key: string, at: Time,
                                               before: seq<Step>, answer: Answer, later: Time, more: seq<Step>)
    requires Reachable(s) && tid !in s.txns && pid < |s.db.payments|
    requires AboutToCommit(Next(s, Start(tid, ConfirmPayment(pid, methodId, key), at)), tid, before, answer, later, more)
    ensures
      var now_ := AtCommit(Next(s, Start(tid, ConfirmPayment(pid, methodId, key), at)), tid, before, answer, later, more);
      && answer.IntentAnswer? && Enabled(now_, End(tid))
      && pid < |now_.db.payments| && pid < |Next(now_, End(tid)).db.payments|
      && (LeavesTable(now_.db, Next(now_, End(tid)).db, pid) <==>
            answer.status != s.db.payments[pid].status && Clashes(now_.db.payments[pid].status, Some(answer.status)))
  {
    ReachableIsSound(s);
    var start := Start(tid, ConfirmPayment(pid, methodId, key), at);
    StepKeepsInv(s, start);
    AnswerCommits(Next(s, start), tid, before, answer, later, more, pid);
  }

  /**
   cancel_payment likewise. The provider answers `canceled`, so the commit breaks the table if and
   only if the payment is by then neither canceled nor in a status the table lets be canceled.
   */
  lemma {:induction false} CancelLeavesTable(s: Sys, tid: nat, pid: nat, reason: Option<string>, key: string, at: Time,
                                              before: seq<Step>, answer: Answer, later: Time, more: seq<Step>)
    requires Reachable(s) && tid !in s.txns && pid < |s.db.payments| && s.db.payments[pid].status in CANCELABLE_STATUSES
    requires AboutToCommit(Next(s, Start(tid, CancelPayment(pid, reason, key), at)), tid, before, answer, later, more)
    ensures
      var now_ := AtCommit(Next(s, Start(tid, CancelPayment(pid, reason, key), at)), tid, before, answer, later, more);
      && Enabled(now_, End(tid)) && pid < |now_.db.payments| && pid < |Next(now_, End(tid)).db.payments|
      && (LeavesTable(now_.db, Next(now_, End(tid)).db, pid) <==>
            now_.db.payments[pid].status !in {Canceled, Pending, RequiresAction})
  {
    ReachableIsSound(s);
    var start := Start(tid, CancelPayment(pid, reason, key), at);
    StepKeepsInv(s, start);
    AnswerCommits(Next(s, start), tid, before, answer, later, more, pid);
    var now_ := AtCommit(Next(s, start), tid, before, answer, later, more);
    CanceledClashes(now_.db.payments[pid].status, s.db.payments[pid].status);
  }

  lemma CanceledClashes(current: Status, seen: Status)
    requires seen != Canceled
    ensures Clashes(current, Dirty(seen, Canceled)) <==> current !in {Canceled, Pending, RequiresAction}
  {
  }

  /** Served alone, cancel_payment breaks the table for exactly the payments in `processing`: it accepts them, the table does not. */
  lemma {:induction false} CancelAloneLeavesTable(s: Sys, pid: nat, reason: Option<string>, key: string, answer: Answer, now: Time)
    requires Reachable(s) && Begin(s.db, CancelPayment(pid, reason, key), now).Proceed?
    requires Accepts(s.memory, key, Begin(s.db, CancelPayment(pid, reason, key), now).txn.call, answer)
    ensures
      var after := Serve(s.db, CancelPayment(pid, reason, key), Answered(answer), now).1;
      && pid < |s.db.payments| && pid < |after.payments|
      && (LeavesTable(s.db, after, pid) <==> s.db.payments[pid].status == Processing)
  {
    ReachableIsSound(s);
  }

  /**
   Served alone, confirm_payment breaks the table exactly when the answer does; a replayed key gets
   the answer the provider remembers, so this can be told before the call.
   */
  lemma {:induction false} ConfirmAloneLeavesTable(s: Sys, pid: nat, methodId: string, key: string, answer: Answer, now: Time)
    requires Reachable(s) && Begin(s.db, ConfirmPayment(pid, methodId, key), now).Proceed?
    requires Accepts(s.memory, key, Begin(s.db, ConfirmPayment(pid, methodId, key), now).txn.call, answer)
    ensures
      var after := Serve(s.db, ConfirmPayment(pid, methodId, key), Answered(answer), now).1;
      && pid < |s.db.payments| && pid < |after.payments| && answer.IntentAnswer?
      && (LeavesTable(s.db, after, pid) <==> Clashes(s.db.payments[pid].status, Some(answer.status)))
      && (key in s.memory ==> answer == s.memory[key].answer)
  {
    ReachableIsSound(s);
  }

  // An answered request keeps the plan its answer made until it commits.
  lemma {:induction false} AnswerStays(s: Sys, tid: nat, before: seq<Step>, answer: Answer, later: Time, more: seq<Step>)
    requires Inv(s) && tid in s.txns && s.txns[tid].Calling?
    requires AboutToCommit(s, tid, before, answer, later, more)
    ensures
      var now_ := AtCommit(s, tid, before, answer, later, more);
      var txn := s.txns[tid];
      && Inv(now_) && Evolves(s.db, now_.db) && tid in now_.txns
      && Honours(txn.call, answer) && Continue(txn.key, txn.next, answer, later).Success?
      && now_.txns[tid] == Ready(Continue(txn.key, txn.next, answer, later).value)
  {
    var asked, reach := Run(s, before), Reach(tid, answer, later);
    InFlight(s, before, tid);
    RunKeepsInv(s, before);
    AnswerIsPlanned(asked, tid, answer, later);
    StepKeepsInv(asked, reach);
    InFlight(Next(asked, reach), more, tid);
    RunKeepsInv(Next(asked, reach), more);
    EvolvesTransitive(s.db, asked.db, Run(Next(asked, reach), more).db);
  }

  lemma {:induction false} AnswerCommits(s: Sys, tid: nat, before: seq<Step>, answer: Answer, later: Time,
                                          more: seq<Step>, pid: nat)
    requires Inv(s) && tid in s.txns && s.txns[tid].Calling? && pid < |s.db.payments|
    requires s.txns[tid].next.Confirm? || s.txns[tid].next.Cancel?
    requires s.txns[tid].next.pid == pid
    requires AboutToCommit(s, tid, before, answer, later, more)
    ensures
      var now_ := AtCommit(s, tid, before, answer, later, more);
      var seen := s.txns[tid].next.seen;
      && answer.IntentAnswer? && Honours(s.txns[tid].call, answer)
      && Enabled(now_, End(tid)) && pid < |now_.db.payments| && pid < |Next(now_, End(tid)).db.payments|
      && (LeavesTable(now_.db, Next(now_, End(tid)).db, pid) <==>
            Clashes(now_.db.payments[pid].status, Dirty(seen.status, answer.status)))
  {
    AnswerStays(s, tid, before, answer, later, more);
    StepLeavesTable(AtCommit(s, tid, before, answer, later, more), End(tid), pid);
  }
}
