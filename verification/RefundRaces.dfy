/** One refund among any other requests: when it takes the recorded total over the payment's amount. */
module RefundRaces {
  import opened Prelude
  import opened Ledger
  import opened Webhooks
  import opened Requests
  import opened Interleaving
  import opened Safety
  import opened Transitions

  /** What the guard finds left of the payment. */
  function Left(db: Db, pid: nat): int
    requires pid < |db.payments|
  {
    db.payments[pid].amount - RefundedAmount(db.refunds, pid)
  }

  /** The amount that is asked of the provider. */
  function Asked(db: Db, pid: nat, requested: Option<int>): int
    requires pid < |db.payments|
  {
    if requested.Some? then requested.value else Left(db, pid)
  }

  /** The refunds of the payment recorded by the time of the commit that the guard, at the time of the read, did not subtract. */
  ghost function Overlooked(read: Db, now_: Db, pid: nat): set<nat> {
    RowsOf(now_.refunds, pid) - SettledRowsOf(read.refunds, pid)
  }

  lemma {:induction false} SettledRowsStay(a: Db, b: Db, pid: nat)
    requires Evolves(a, b)
    ensures SettledRowsOf(a.refunds, pid) <= RowsOf(b.refunds, pid)
    ensures Sum(b.refunds, SettledRowsOf(a.refunds, pid)) == RefundedAmount(a.refunds, pid)
  {
    forall i: nat | i < |a.refunds|
      ensures a.refunds[i].amount == b.refunds[i].amount && a.refunds[i].paymentId == b.refunds[i].paymentId
    {
      assert RefundFollows(a.refunds[i], b.refunds[i]);
    }
    SumDependsOnRows(a.refunds, SettledRowsOf(a.refunds, pid), b.refunds, SettledRowsOf(a.refunds, pid));
  }

  lemma {:induction false} RecordedAfterInsert(read: Db, now_: Db, refund: Refund)
    requires Evolves(read, now_)
    ensures RecordedAmount(now_.refunds + [refund], refund.paymentId)
         == RefundedAmount(read.refunds, refund.paymentId) + Sum(now_.refunds, Overlooked(read, now_, refund.paymentId)) + refund.amount
  {
    var pid, after := refund.paymentId, now_.refunds + [refund];
    var settled, overlooked := SettledRowsOf(read.refunds, pid), Overlooked(read, now_, pid);
    SettledRowsStay(read, now_, pid);
    assert RowsOf(now_.refunds, pid) == settled + overlooked;
    SumSplits(now_.refunds, settled, overlooked);
    assert after[..|now_.refunds|] == now_.refunds;
    SumDependsOnRows(now_.refunds, RowsOf(now_.refunds, pid), now_.refunds, RowsOf(after, pid));
  }

  /** The refund about to commit, as its request and the provider's answer made it. */
  function Made(db: Db, pid: nat, requested: Option<int>, reason: Option<string>, key: string, answer: Answer): Refund
    requires pid < |db.payments| && answer.RefundAnswer?
  {
    Refund(pid, answer.id, Asked(db, pid, requested), reason, answer.refundStatus, key)
  }

  // The request keeps what it read until it commits.
  lemma {:induction false} RefundIsReady(s: Sys, tid: nat, pid: nat, requested: Option<int>, reason: Option<string>, key: string,
                                         at: Time, before: seq<Step>, answer: Answer, later: Time, more: seq<Step>)
    requires Reachable(s) && tid !in s.txns && BeginRefund(s.db, pid, requested, reason, key).Proceed?
    requires AboutToCommit(Next(s, Start(tid, CreateRefund(pid, requested, reason, key), at)), tid, before, answer, later, more)
    ensures pid < |s.db.payments| && answer.RefundAnswer?
    ensures
      var now_ := AtCommit(Next(s, Start(tid, CreateRefund(pid, requested, reason, key), at)), tid, before, answer, later, more);
      && Inv(now_) && Evolves(s.db, now_.db) && tid in now_.txns
      && now_.txns[tid] == Ready(InsertRefund(Made(s.db, pid, requested, reason, key, answer), SettledRowsOf(s.db.refunds, pid), later))
  {
    ReachableIsSound(s);
    var start := Start(tid, CreateRefund(pid, requested, reason, key), at);
    StepKeepsInv(s, start);
    AnswerStays(Next(s, start), tid, before, answer, later, more);
  }

  /**
   create_refund in any reachable state, among any other requests before and after the provider
   answers. If its key is taken by then it changes nothing. Otherwise its commit leaves the refunds
   recorded for the payment within the payment's amount if and only if those its guard overlooked
   fit into what the guard had left beside it.
   */
  lemma {:induction false} RefundStaysWithin(s: Sys, tid: nat, pid: nat, requested: Option<int>, reason: Option<string>, key: string,
                                              at: Time, before: seq<Step>, answer: Answer, later: Time, more: seq<Step>)
    requires Reachable(s) && tid !in s.txns && BeginRefund(s.db, pid, requested, reason, key).Proceed?
    requires AboutToCommit(Next(s, Start(tid, CreateRefund(pid, requested, reason, key), at)), tid, before, answer, later, more)
    ensures
      var now_ := AtCommit(Next(s, Start(tid, CreateRefund(pid, requested, reason, key), at)), tid, before, answer, later, more);
      && pid < |s.db.payments| && Enabled(now_, End(tid)) && pid < |Next(now_, End(tid)).db.payments|
      && (key in RefundKeys(now_.db.refunds) ==> Next(now_, End(tid)).db == now_.db)
      && (key !in RefundKeys(now_.db.refunds) ==>
            var after := Next(now_, End(tid)).db;
            && |after.refunds| == |now_.db.refunds| + 1
            && (RecordedAmount(after.refunds, pid) <= after.payments[pid].amount <==>
                  Sum(now_.db.refunds, Overlooked(s.db, now_.db, pid)) <= Left(s.db, pid) - Asked(s.db, pid, requested)))
  {
    RefundIsReady(s, tid, pid, requested, reason, key, at, before, answer, later, more);
    var now_ := AtCommit(Next(s, Start(tid, CreateRefund(pid, requested, reason, key), at)), tid, before, answer, later, more);
    assert PaymentFollows(s.db.payments[pid], now_.db.payments[pid]);
    RecordedAfterInsert(s.db, now_.db, Made(s.db, pid, requested, reason, key, answer));
  }
}
