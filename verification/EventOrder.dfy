/**
 Webhook events arrive in any order and any number of times, and a redelivered one is dropped. How far
 a payment can move, which deliveries count, and what the final status depends on.
 */
module EventOrder {
  import opened Prelude
  import opened Ledger
  import opened Webhooks
  import opened Requests

  // ---------------------------------------------------------------------------------------
  // Progress
  // ---------------------------------------------------------------------------------------

  function Rank(s: Status): (r: nat)
    ensures r <= 4
  {
    match s
    case Pending => 0
    case Processing => 1
    case RequiresAction => 1
    case Succeeded => 2
    case PartiallyRefunded => 3
    case _ => 4
  }

  /** An event changes the status of one payment at most, and only to one of a higher rank. */
  lemma {:induction false} EventsClimb(db: Db, event: Event, now: Time, pid: nat)
    requires pid < |db.payments|
    ensures |React(db, event, now).payments| == |db.payments|
    ensures
      var before, after := db.payments[pid].status, React(db, event, now).payments[pid].status;
      after == before || (CanTransition(before, after) && Rank(after) > Rank(before))
  {
  }

  /** How often the status of a payment changes while the events are handled one after the other. */
  function Changes(db: Db, events: seq<(Event, Time)>, pid: nat): nat
    decreases |events|
  {
    if events == [] || pid >= |db.payments| then 0
    else
      var next := React(db, events[0].0, events[0].1);
      (if pid < |next.payments| && next.payments[pid].status != db.payments[pid].status then 1 else 0)
      + Changes(next, events[1..], pid)
  }

  function ReactAll(db: Db, events: seq<(Event, Time)>): Db
    decreases |events|
  {
    if events == [] then db else ReactAll(React(db, events[0].0, events[0].1), events[1..])
  }

  /** The events delivered to process_webhook one after the other. */
  function DeliverAll(db: Db, events: seq<(Event, Time)>): Db
    decreases |events|
  {
    if events == [] then db else DeliverAll(ServeWebhook(db, events[0].0, events[0].1).1, events[1..])
  }

  lemma DeliveryReacts(db: Db, event: Event, now: Time)
    requires event.id !in db.events
    ensures
      var after := ServeWebhook(db, event, now).1;
      && after.(events := map[]) == React(db.(events := map[]), event, now)
      && after.events.Keys <= db.events.Keys + {event.id}
  {
    HandleIgnoresEvents(db, map[], event, now);
  }

  /** Delivering new events is handling them: beside their rows nothing differs, and one that raises leaves nothing. */
  lemma {:induction false} DeliveriesReact(db: Db, events: seq<(Event, Time)>)
    requires forall i, j | 0 <= i < j < |events| :: events[i].0.id != events[j].0.id
    requires forall i | 0 <= i < |events| :: events[i].0.id !in db.events
    ensures DeliverAll(db, events).(events := map[]) == ReactAll(db.(events := map[]), events)
    decreases |events|
  {
    if events != [] {
      DeliveryReacts(db, events[0].0, events[0].1);
      DeliveriesReact(ServeWebhook(db, events[0].0, events[0].1).1, events[1..]);
    }
  }

  /** The deliveries that count: the first of every event that was not known before. */
  function Firsts(events: seq<(Event, Time)>, seen: set<string>): seq<(Event, Time)>
    decreases |events|
  {
    if events == [] then []
    else if events[0].0.id in seen then Firsts(events[1..], seen)
    else [events[0]] + Firsts(events[1..], seen + {events[0].0.id})
  }

  predicate AllProcessed(db: Db) {
    forall id | id in db.events :: db.events[id].processed
  }

  /** The event's references name at most one row each, as in every reachable state: its handler does not raise. */
  predicate Unambiguous(db: Db, event: Event) {
    !FindReference(PaymentIds(db.payments), event.paymentRef).Many?
    && !FindReference(RefundIds(db.refunds), event.refundRef).Many?
  }

  lemma {:induction false} OneDelivery(db: Db, event: Event, now: Time)
    requires AllProcessed(db) && (event.id !in db.events ==> Unambiguous(db, event))
    ensures
      var after := ServeWebhook(db, event, now).1;
      && AllProcessed(after)
      && (event.id in db.events ==> after == db)
      && (event.id !in db.events ==>
            after.(events := map[]) == React(db.(events := map[]), event, now)
            && after.events.Keys == db.events.Keys + {event.id}
            && PaymentIds(after.payments) == PaymentIds(db.payments) && RefundIds(after.refunds) == RefundIds(db.refunds))
  {
    HandleIgnoresEvents(db, map[], event, now);
    if event.id !in db.events {
      ReactKeepsIds(db, event, now);
    }
  }

  /** Whatever is delivered again, deliveries do what handling the first of each unknown event does, event rows aside. */
  lemma {:induction false} DeliveriesAreFirsts(db: Db, events: seq<(Event, Time)>)
    requires AllProcessed(db)
    requires forall e | e in Firsts(events, db.events.Keys) :: Unambiguous(db, e.0)
    ensures DeliverAll(db, events).(events := map[]) == ReactAll(db.(events := map[]), Firsts(events, db.events.Keys))
    decreases |events|
  {
    if events != [] {
      var (event, now) := events[0];
      var firsts := Firsts(events, db.events.Keys);
      if event.id !in db.events {
        assert firsts[0] == events[0] && firsts[0] in firsts;
      }
      OneDelivery(db, event, now);
      var after := ServeWebhook(db, event, now).1;
      var rest := Firsts(events[1..], after.events.Keys);
      if event.id !in db.events {
        assert firsts == [events[0]] + rest && firsts[1..] == rest;
      }
      forall e | e in rest ensures Unambiguous(after, e.0) {
        assert e in firsts;
      }
      DeliveriesAreFirsts(after, events[1..]);
    }
  }

  /** How often the status of a payment changes while the events are delivered one after the other. */
  function DeliveredChanges(db: Db, events: seq<(Event, Time)>, pid: nat): nat
    decreases |events|
  {
    if events == [] || pid >= |db.payments| then 0
    else
      var next := ServeWebhook(db, events[0].0, events[0].1).1;
      (if pid < |next.payments| && next.payments[pid].status != db.payments[pid].status then 1 else 0)
      + DeliveredChanges(next, events[1..], pid)
  }

  lemma {:induction false} DeliveryHandlesOrNothing(db: Db, event: Event, now: Time)
    ensures
      var after := ServeWebhook(db, event, now).1;
      after.payments == db.payments || after.payments == React(db, event, now).payments
  {
  }

  /** Deliveries of any events at all, repeated or not, change a status at most four times; the final statuses never change. */
  lemma {:induction false} DeliveriesMakeProgress(db: Db, events: seq<(Event, Time)>, pid: nat)
    requires pid < |db.payments|
    ensures |DeliverAll(db, events).payments| == |db.payments|
    ensures DeliveredChanges(db, events, pid) + Rank(db.payments[pid].status) <= Rank(DeliverAll(db, events).payments[pid].status)
    ensures DeliveredChanges(db, events, pid) <= 4
    ensures Targets(db.payments[pid].status) == {} ==>
      DeliverAll(db, events).payments[pid].status == db.payments[pid].status
    decreases |events|
  {
    if events != [] {
      EventsClimb(db, events[0].0, events[0].1, pid);
      DeliveryHandlesOrNothing(db, events[0].0, events[0].1);
      DeliveriesMakeProgress(ServeWebhook(db, events[0].0, events[0].1).1, events[1..], pid);
    }
  }

  /** Handling any number of events, one after the other, changes a status at most four times. */
  lemma {:induction false} WebhookRunsMakeProgress(db: Db, events: seq<(Event, Time)>, pid: nat)
    requires pid < |db.payments|
    ensures |ReactAll(db, events).payments| == |db.payments|
    ensures Changes(db, events, pid) + Rank(db.payments[pid].status) <= Rank(ReactAll(db, events).payments[pid].status)
    ensures Changes(db, events, pid) <= 4
    ensures Targets(db.payments[pid].status) == {} ==>
      ReactAll(db, events).payments[pid].status == db.payments[pid].status
    decreases |events|
  {
    if events != [] {
      EventsClimb(db, events[0].0, events[0].1, pid);
      WebhookRunsMakeProgress(React(db, events[0].0, events[0].1), events[1..], pid);
    }
  }

  lemma {:induction false} RefundHandledTwice(db: Db, pid: nat, row: Option<nat>, now: Time, later: Time)
    requires pid < |db.payments|
    ensures
      var once := Apply(db, RefundEffect(db, pid, row, now));
      var twice := Apply(once, RefundEffect(once, pid, row, later));
      twice.payments == once.payments && twice.refunds == once.refunds
  {
    assert Settle(Settle(db.refunds, row), row) == Settle(db.refunds, row);
  }

  lemma {:induction false} ReactKeepsIds(db: Db, event: Event, now: Time)
    ensures PaymentIds(React(db, event, now).payments) == PaymentIds(db.payments)
    ensures RefundIds(React(db, event, now).refunds) == RefundIds(db.refunds)
  {
  }

  // A handler that moves the status and settles no refund finds the move forbidden the second time.
  lemma {:induction false} MoveHandledTwice(db: Db, event: Event, pid: nat, now: Time, later: Time)
    requires pid < |db.payments| && event.kind != ChargeRefunded
    requires HandleFor(db, event, pid, now).Success? && HandleFor(db, event, pid, now).value.Effect?
    ensures
      var effect := HandleFor(db, event, pid, now).value;
      effect.pid == pid && effect.settled.None?
    ensures
      var again := HandleFor(Apply(db, HandleFor(db, event, pid, now).value), event, pid, later);
      && again.Success?
      && (again.value.NoEffect? || (again.value.pid == pid && again.value.change == KEEP && again.value.settled.None?))
  {
  }

  /** Handling an event twice in a row, whatever the two times, leaves payments and refunds as once did. */
  lemma {:induction false} HandlersAreIdempotent(db: Db, event: Event, now: Time, later: Time)
    ensures
      var once := React(db, event, now);
      var twice := React(once, event, later);
      twice.payments == once.payments && twice.refunds == once.refunds
  {
    ReactKeepsIds(db, event, now);
    if Handle(db, event, now).Success? && Handle(db, event, now).value.Effect? {
      var effect := Handle(db, event, now).value;
      if event.kind == ChargeRefunded {
        RefundHandledTwice(db, effect.pid, effect.settled, now, later);
      } else {
        MoveHandledTwice(db, event, effect.pid, now, later);
      }
    }
  }

  // ---------------------------------------------------------------------------------------
  // Order independence
  // ---------------------------------------------------------------------------------------

  // The refund row a charge.refunded event settles, if any.
  function SettledBy(refunds: seq<Refund>, event: Event): set<nat> {
    var found := FindReference(RefundIds(refunds), event.refundRef);
    if event.kind == ChargeRefunded && found.One? then {found.row} else {}
  }

  /** An event of one of the four kinds about payment `pid` that names a refund of that payment, if any. */
  ghost predicate About(payments: seq<Payment>, refunds: seq<Refund>, pid: nat, event: Event) {
    && event.kind in {PaymentProcessing, PaymentRequiresAction, PaymentSucceeded, ChargeRefunded}
    && FindReference(PaymentIds(payments), event.paymentRef) == One(pid)
    && !FindReference(RefundIds(refunds), event.refundRef).Many?
    && (forall row | row in SettledBy(refunds, event) :: refunds[row].paymentId == pid)
  }

  function HasSucceeded(events: seq<(Event, Time)>): bool {
    exists i | 0 <= i < |events| :: events[i].0.kind == PaymentSucceeded
  }

  /** Some charge.refunded comes after some payment_intent.succeeded. */
  predicate RefundAfterSuccess(events: seq<(Event, Time)>) {
    exists i, j | 0 <= i < j < |events| :: events[i].0.kind == PaymentSucceeded && events[j].0.kind == ChargeRefunded
  }

  function Mentioned(refunds: seq<Refund>, events: seq<(Event, Time)>): set<nat> {
    set i, row | 0 <= i < |events| && row in SettledBy(refunds, events[i].0) :: row
  }

  function SettleAll(refunds: seq<Refund>, rows: set<nat>): (r: seq<Refund>)
    ensures |r| == |refunds|
  {
    seq(|refunds|, i requires 0 <= i < |refunds| =>
      if i in rows then refunds[i].(status := RefundSucceeded) else refunds[i])
  }

  /** The status the events leave behind, from what is refunded in the end and one fact about their order. */
  function Outcome(refunded: int, amount: int, refundFollows: bool): Status {
    if !refundFollows then Succeeded
    else if refunded >= amount then Refunded
    else PartiallyRefunded
  }

  // What holds after each prefix of the events.
  ghost predicate Summarised(db: Db, pid: nat, events: seq<(Event, Time)>, after: Db)
    requires pid < |db.payments|
  {
    && |after.payments| == |db.payments|
    && PaymentIds(after.payments) == PaymentIds(db.payments)
    && after.payments[pid].amount == db.payments[pid].amount
    && after.refunds == SettleAll(db.refunds, Mentioned(db.refunds, events))
    && (if HasSucceeded(events)
        then after.payments[pid].status
          == Outcome(RefundedAmount(after.refunds, pid), db.payments[pid].amount, RefundAfterSuccess(events))
        else after.payments[pid].status in {Pending, Processing, RequiresAction})
  }

  lemma {:induction false} ReactAllAppend(db: Db, events: seq<(Event, Time)>, last: (Event, Time))
    ensures ReactAll(db, events + [last]) == React(ReactAll(db, events), last.0, last.1)
    decreases |events|
  {
    var all := events + [last];
    if events == [] {
      assert all[1..] == [];
    } else {
      assert all[1..] == events[1..] + [last];
      ReactAllAppend(React(db, events[0].0, events[0].1), events[1..], last);
    }
  }

  lemma {:induction false} MentionedAppend(refunds: seq<Refund>, events: seq<(Event, Time)>, last: (Event, Time))
    ensures Mentioned(refunds, events + [last]) == Mentioned(refunds, events) + SettledBy(refunds, last.0)
  {
    var all := events + [last];
    forall row | row in Mentioned(refunds, events) ensures row in Mentioned(refunds, all) {
      var i :| 0 <= i < |events| && row in SettledBy(refunds, events[i].0);
      assert all[i] == events[i];
    }
    assert all[|events|] == last;
  }

  lemma {:induction false} OrderAppend(events: seq<(Event, Time)>, last: (Event, Time))
    ensures HasSucceeded(events + [last]) <==> HasSucceeded(events) || last.0.kind == PaymentSucceeded
    ensures RefundAfterSuccess(events + [last]) <==>
      RefundAfterSuccess(events) || (HasSucceeded(events) && last.0.kind == ChargeRefunded)
  {
    var all := events + [last];
    assert forall i | 0 <= i < |events| :: all[i] == events[i];
    assert all[|events|] == last;
    if HasSucceeded(events) {
      var i :| 0 <= i < |events| && events[i].0.kind == PaymentSucceeded;
      assert all[i].0.kind == PaymentSucceeded;
    }
    if RefundAfterSuccess(events) {
      var i, j :| 0 <= i < j < |events| && events[i].0.kind == PaymentSucceeded && events[j].0.kind == ChargeRefunded;
      assert all[i].0.kind == PaymentSucceeded && all[j].0.kind == ChargeRefunded;
    }
  }

  // The status an event of the four kinds leaves, given the succeeded refunds after it.
  function Moved(status: Status, kind: EventKind, refunded: int, amount: int): Status {
    var target :=
      match kind
      case PaymentProcessing => Processing
      case PaymentRequiresAction => RequiresAction
      case PaymentSucceeded => Succeeded
      case _ => if refunded >= amount then Refunded else PartiallyRefunded;
    if CanTransition(status, target) then target else status
  }

  lemma {:induction false} OwnEventMoves(db: Db, pid: nat, event: Event, now: Time)
    requires pid < |db.payments| && About(db.payments, db.refunds, pid, event)
    ensures
      var after := React(db, event, now);
      && |after.payments| == |db.payments| && PaymentIds(after.payments) == PaymentIds(db.payments)
      && after.payments[pid].amount == db.payments[pid].amount
      && after.refunds == SettleAll(db.refunds, SettledBy(db.refunds, event))
      && after.payments[pid].status
         == Moved(db.payments[pid].status, event.kind, RefundedAmount(after.refunds, pid), db.payments[pid].amount)
  {
    OwnEventSettles(db, pid, event, now);
  }

  lemma {:induction false} OwnEventSettles(db: Db, pid: nat, event: Event, now: Time)
    requires pid < |db.payments| && About(db.payments, db.refunds, pid, event)
    ensures
      var after := React(db, event, now);
      PaymentIds(after.payments) == PaymentIds(db.payments) && after.refunds == SettleAll(db.refunds, SettledBy(db.refunds, event))
  {
  }

  // The transition table read against the summary: what each kind of event makes of it.
  lemma MovedIsSummarised(status: Status, kind: EventKind, before: int, after: int, amount: int, paid: bool, follows: bool)
    requires kind in {PaymentProcessing, PaymentRequiresAction, PaymentSucceeded, ChargeRefunded}
    requires if paid then status == Outcome(before, amount, follows)
             else !follows && status in {Pending, Processing, RequiresAction}
    requires before <= after && (kind != ChargeRefunded ==> before == after)
    ensures
      var status' := Moved(status, kind, after, amount);
      if paid || kind == PaymentSucceeded
      then status' == Outcome(after, amount, follows || (paid && kind == ChargeRefunded))
      else status' in {Pending, Processing, RequiresAction}
  {
  }

  lemma {:induction false} SettledSumGrows(refunds: seq<Refund>, rows: set<nat>, pid: nat)
    requires forall i | 0 <= i < |refunds| :: refunds[i].amount >= 0
    ensures RefundedAmount(refunds, pid) <= RefundedAmount(SettleAll(refunds, rows), pid)
    ensures rows == {} ==> SettleAll(refunds, rows) == refunds
  {
    var after := SettleAll(refunds, rows);
    SumGrows(refunds, SettledRowsOf(refunds, pid), after, SettledRowsOf(after, pid));
  }

  lemma SettleAllTwice(refunds: seq<Refund>, a: set<nat>, b: set<nat>)
    ensures SettleAll(SettleAll(refunds, a), b) == SettleAll(refunds, a + b)
  {
  }

  lemma {:induction false} AboutIsStable(db: Db, pid: nat, events: seq<(Event, Time)>, mid: Db, event: Event)
    requires pid < |db.payments| && Summarised(db, pid, events, mid) && About(db.payments, db.refunds, pid, event)
    ensures About(mid.payments, mid.refunds, pid, event)
    ensures SettledBy(mid.refunds, event) == SettledBy(db.refunds, event)
    ensures forall i | 0 <= i < |mid.refunds| :: mid.refunds[i].amount == db.refunds[i].amount
  {
    assert RefundIds(mid.refunds) == RefundIds(db.refunds);
  }

  lemma {:induction false} OneMoreEvent(db: Db, pid: nat, events: seq<(Event, Time)>, mid: Db, last: (Event, Time))
    requires pid < |db.payments| && Summarised(db, pid, events, mid)
    requires About(db.payments, db.refunds, pid, last.0)
    requires forall i | 0 <= i < |db.refunds| :: db.refunds[i].amount >= 0
    ensures Summarised(db, pid, events + [last], React(mid, last.0, last.1))
  {
    var after := React(mid, last.0, last.1);
    var rows := SettledBy(db.refunds, last.0);
    AboutIsStable(db, pid, events, mid, last.0);
    OwnEventMoves(mid, pid, last.0, last.1);
    MentionedAppend(db.refunds, events, last);
    SettleAllTwice(db.refunds, Mentioned(db.refunds, events), rows);
    SettledSumGrows(mid.refunds, rows, pid);
    OrderAppend(events, last);
    MovedIsSummarised(mid.payments[pid].status, last.0.kind, RefundedAmount(mid.refunds, pid),
                      RefundedAmount(after.refunds, pid), db.payments[pid].amount,
                      HasSucceeded(events), RefundAfterSuccess(events));
  }

  lemma {:induction false} EventsSummarise(db: Db, pid: nat, events: seq<(Event, Time)>)
    requires pid < |db.payments| && db.payments[pid].status == Pending
    requires forall i | 0 <= i < |events| :: About(db.payments, db.refunds, pid, events[i].0)
    requires forall i | 0 <= i < |db.refunds| :: db.refunds[i].amount >= 0
    ensures Summarised(db, pid, events, ReactAll(db, events))
    decreases |events|
  {
    if events == [] {
      assert SettleAll(db.refunds, {}) == db.refunds;
      assert Mentioned(db.refunds, []) == {};
    } else {
      var front, last := events[..|events| - 1], events[|events| - 1];
      assert events == front + [last];
      EventsSummarise(db, pid, front);
      ReactAllAppend(db, front, last);
      OneMoreEvent(db, pid, front, ReactAll(db, front), last);
    }
  }

  // What handlers run on every event of a list leave behind.
  lemma {:induction false} HandledStatus(db: Db, pid: nat, events: seq<(Event, Time)>)
    requires pid < |db.payments| && db.payments[pid].status == Pending
    requires forall i | 0 <= i < |events| :: About(db.payments, db.refunds, pid, events[i].0)
    requires forall i | 0 <= i < |db.refunds| :: db.refunds[i].amount >= 0
    requires HasSucceeded(events)
    ensures |ReactAll(db, events).payments| == |db.payments|
    ensures ReactAll(db, events).refunds == SettleAll(db.refunds, Mentioned(db.refunds, events))
    ensures ReactAll(db, events).payments[pid].status
         == Outcome(RefundedAmount(ReactAll(db, events).refunds, pid), db.payments[pid].amount, RefundAfterSuccess(events))
  {
    EventsSummarise(db, pid, events);
  }

  /**
   The final status of a payment that started `pending`, was reported succeeded at least once, and
   whose refunds were reported in any order, any of it delivered any number of times: it depends only
   on what is refunded in the end and on whether, among the first deliveries, some refund was
   reported after some success.
   */
  lemma {:induction false} FinalStatus(db: Db, pid: nat, events: seq<(Event, Time)>)
    requires pid < |db.payments| && db.payments[pid].status == Pending && AllProcessed(db)
    requires forall e | e in Firsts(events, db.events.Keys) :: About(db.payments, db.refunds, pid, e.0)
    requires forall i | 0 <= i < |db.refunds| :: db.refunds[i].amount >= 0
    requires HasSucceeded(Firsts(events, db.events.Keys))
    ensures
      var firsts, after := Firsts(events, db.events.Keys), DeliverAll(db, events);
      && |after.payments| == |db.payments|
      && after.refunds == SettleAll(db.refunds, Mentioned(db.refunds, firsts))
      && after.payments[pid].status
         == Outcome(RefundedAmount(after.refunds, pid), db.payments[pid].amount, RefundAfterSuccess(firsts))
  {
    var firsts := Firsts(events, db.events.Keys);
    DeliveriesAreFirsts(db, events);
    HandledStatus(db.(events := map[]), pid, firsts);
    assert DeliverAll(db, events).payments == DeliverAll(db, events).(events := map[]).payments;
  }

  function EventSet(events: seq<(Event, Time)>): set<Event> {
    set i | 0 <= i < |events| :: events[i].0
  }

  /** Deliveries with one id are deliveries of one event. */
  predicate IdsIdentify(events: seq<(Event, Time)>) {
    forall a, b | a in EventSet(events) && b in EventSet(events) && a.id == b.id :: a == b
  }

  // Two lists of the same events end in the same status exactly if they agree on the one fact.
  lemma {:induction false} HandledOrder(db: Db, pid: nat, a: seq<(Event, Time)>, b: seq<(Event, Time)>)
    requires pid < |db.payments| && db.payments[pid].status == Pending
    requires forall e | e in EventSet(a) :: About(db.payments, db.refunds, pid, e)
    requires forall i | 0 <= i < |db.refunds| :: db.refunds[i].amount >= 0
    requires HasSucceeded(a) && EventSet(a) == EventSet(b)
    ensures |ReactAll(db, a).payments| == |ReactAll(db, b).payments| == |db.payments|
    ensures ReactAll(db, a).refunds == ReactAll(db, b).refunds
    ensures ReactAll(db, a).payments[pid].status == ReactAll(db, b).payments[pid].status
       <==> RefundAfterSuccess(a) == RefundAfterSuccess(b)
  {
    forall i | 0 <= i < |a| ensures About(db.payments, db.refunds, pid, a[i].0) {
      assert a[i].0 in EventSet(a);
    }
    forall i | 0 <= i < |b| ensures About(db.payments, db.refunds, pid, b[i].0) {
      assert b[i].0 in EventSet(b);
    }
    var k :| 0 <= k < |a| && a[k].0.kind == PaymentSucceeded;
    assert a[k].0 in EventSet(b);
    SameMentions(db.refunds, a, b);
    SameMentions(db.refunds, b, a);
    HandledStatus(db, pid, a);
    HandledStatus(db, pid, b);
  }

  lemma EventSetOfCons(e: (Event, Time), rest: seq<(Event, Time)>)
    ensures EventSet([e] + rest) == {e.0} + EventSet(rest)
  {
    var all := [e] + rest;
    assert all[0] == e && forall i | 0 <= i < |rest| :: all[i + 1] == rest[i];
    forall x | x in EventSet(rest) ensures x in EventSet(all) {
      var i :| 0 <= i < |rest| && rest[i].0 == x;
      assert all[i + 1].0 == x;
    }
    assert all[0].0 in EventSet(all);
  }

  /** Dropping redeliveries drops no event but the ones known before. */
  lemma {:induction false} FirstsKeepEvents(events: seq<(Event, Time)>, seen: set<string>)
    requires IdsIdentify(events)
    ensures EventSet(Firsts(events, seen)) == set e | e in EventSet(events) && e.id !in seen
    decreases |events|
  {
    if events != [] {
      var e, rest := events[0], events[1..];
      assert events == [e] + rest;
      EventSetOfCons(e, rest);
      if e.0.id in seen {
        FirstsKeepEvents(rest, seen);
      } else {
        FirstsKeepEvents(rest, seen + {e.0.id});
        EventSetOfCons(e, Firsts(rest, seen + {e.0.id}));
      }
    }
  }

  /**
   Permuting or redelivering the events ends in the same status if and only if it keeps that one fact
   about the order of first deliveries; the refunds end the same in any case.
   */
  lemma {:induction false} OrderMattersOnce(db: Db, pid: nat, a: seq<(Event, Time)>, b: seq<(Event, Time)>)
    requires pid < |db.payments| && db.payments[pid].status == Pending && AllProcessed(db)
    requires forall e | e in EventSet(a) :: About(db.payments, db.refunds, pid, e)
    requires forall i | 0 <= i < |db.refunds| :: db.refunds[i].amount >= 0
    requires EventSet(a) == EventSet(b) && IdsIdentify(a) && HasSucceeded(Firsts(a, db.events.Keys))
    ensures |DeliverAll(db, a).payments| == |DeliverAll(db, b).payments| == |db.payments|
    ensures DeliverAll(db, a).refunds == DeliverAll(db, b).refunds
    ensures DeliverAll(db, a).payments[pid].status == DeliverAll(db, b).payments[pid].status
       <==> RefundAfterSuccess(Firsts(a, db.events.Keys)) == RefundAfterSuccess(Firsts(b, db.events.Keys))
  {
    var firstsA, firstsB := Firsts(a, db.events.Keys), Firsts(b, db.events.Keys);
    FirstsKeepEvents(a, db.events.Keys);
    FirstsKeepEvents(b, db.events.Keys);
    HandledOrder(db.(events := map[]), pid, firstsA, firstsB);
    FirstsAreAbout(db, pid, firstsA);
    FirstsAreAbout(db, pid, firstsB);
    DeliveriesAreFirsts(db, a);
    DeliveriesAreFirsts(db, b);
    OnlyEventsAside(DeliverAll(db, a), ReactAll(db.(events := map[]), firstsA));
    OnlyEventsAside(DeliverAll(db, b), ReactAll(db.(events := map[]), firstsB));
  }

  lemma FirstsAreAbout(db: Db, pid: nat, firsts: seq<(Event, Time)>)
    requires forall e | e in EventSet(firsts) :: About(db.payments, db.refunds, pid, e)
    ensures forall e | e in firsts :: Unambiguous(db, e.0)
  {
    forall e | e in firsts ensures Unambiguous(db, e.0) {
      assert e.0 in EventSet(firsts);
    }
  }

  lemma OnlyEventsAside(a: Db, b: Db)
    requires a.(events := map[]) == b
    ensures a.payments == b.payments && a.refunds == b.refunds
  {
  }

  const UNPAID := Db([Payment("pi", Pending, 100, "EUR", "key", None, None, None, None)],
                     [Refund(0, "re", 100, None, RefundPending, "refund")], map[], [])
  const PAID := Event("a", PaymentSucceeded, Some("pi"), None, None, None)
  const RETURNED := Event("b", ChargeRefunded, Some("pi"), Some("re"), None, None)

  lemma {:induction false} BothAreAbout()
    ensures About(UNPAID.payments, UNPAID.refunds, 0, PAID) && About(UNPAID.payments, UNPAID.refunds, 0, RETURNED)
    ensures SettledBy(UNPAID.refunds, PAID) == {} && SettledBy(UNPAID.refunds, RETURNED) == {0}
  {
    assert PaymentIds(UNPAID.payments) == ["pi"] && RefundIds(UNPAID.refunds) == ["re"];
    assert Find(["pi"], "pi") == One(0) && Find(["re"], "re") == One(0);
  }

  lemma {:induction false} SettledInFull(refund: Refund)
    requires refund.status == RefundSucceeded
    ensures RefundedAmount([refund], refund.paymentId) == refund.amount
  {
    assert SettledRowsOf([refund], refund.paymentId) == {0};
    SumOfOne([refund], 0);
  }

  // Two events that count, RETURNED being one of them, settle the refund.
  lemma {:induction false} BothSettle(first: (Event, Time), second: (Event, Time))
    requires {first.0, second.0} == {PAID, RETURNED}
    ensures
      var refunds := SettleAll(UNPAID.refunds, Mentioned(UNPAID.refunds, [first, second]));
      RefundedAmount(refunds, 0) == 100
  {
    BothAreAbout();
    var events := [first, second];
    assert RETURNED in {first.0, second.0} && first.0 in {PAID, RETURNED} && second.0 in {PAID, RETURNED};
    var k := if first.0 == RETURNED then 0 else 1;
    assert 0 in SettledBy(UNPAID.refunds, events[k].0);
    assert 0 in Mentioned(UNPAID.refunds, events);
    assert SettleAll(UNPAID.refunds, Mentioned(UNPAID.refunds, events)) == [UNPAID.refunds[0].(status := RefundSucceeded)];
    SettledInFull(UNPAID.refunds[0].(status := RefundSucceeded));
  }

  // What deliveries leave behind when those are the ones that count.
  lemma {:induction false} RefundIsSettled(events: seq<(Event, Time)>, first: (Event, Time), second: (Event, Time))
    requires Firsts(events, {}) == [first, second] && {first.0, second.0} == {PAID, RETURNED}
    ensures
      var after := DeliverAll(UNPAID, events);
      && |after.payments| == 1 && RefundedAmount(after.refunds, 0) == UNPAID.payments[0].amount
      && after.payments[0].status == if second.0 == RETURNED then Refunded else Succeeded
  {
    BothAreAbout();
    BothSettle(first, second);
    OrderOfTwo(first, second);
    assert UNPAID.events.Keys == {};
    FinalStatus(UNPAID, 0, events);
  }

  lemma {:induction false} OrderOfTwo(first: (Event, Time), second: (Event, Time))
    requires {first.0, second.0} == {PAID, RETURNED}
    ensures forall e | e in [first, second] :: e.0 in {PAID, RETURNED}
    ensures HasSucceeded([first, second])
    ensures RefundAfterSuccess([first, second]) <==> second.0 == RETURNED
  {
    var events := [first, second];
    assert first.0 in {PAID, RETURNED} && second.0 in {PAID, RETURNED} && PAID in {first.0, second.0} && RETURNED in {first.0, second.0};
    assert events[0].0.kind == PaymentSucceeded || events[1].0.kind == PaymentSucceeded;
    if second.0 == RETURNED {
      assert events[0].0.kind == PaymentSucceeded && events[1].0.kind == ChargeRefunded;
    }
  }

  lemma FirstsOfCons(e: (Event, Time), rest: seq<(Event, Time)>, seen: set<string>)
    ensures Firsts([e] + rest, seen) == if e.0.id in seen then Firsts(rest, seen) else [e] + Firsts(rest, seen + {e.0.id})
  {
    assert ([e] + rest)[1..] == rest;
  }

  /**
   The order does matter, and a redelivery does not heal it: with the refund reported before the
   success a payment refunded in full ends `succeeded`, even if the report is delivered again, last.
   */
  lemma {:induction false} RefundBeforeSuccessIsLost(now: Time)
    ensures
      var a := DeliverAll(UNPAID, [(PAID, now), (RETURNED, now)]);
      |a.payments| == 1 && a.payments[0].status == Refunded
    ensures
      var b := DeliverAll(UNPAID, [(RETURNED, now), (PAID, now), (RETURNED, now)]);
      |b.payments| == 1 && b.payments[0].status == Succeeded && RefundedAmount(b.refunds, 0) == UNPAID.payments[0].amount
    ensures RefundAfterSuccess([(RETURNED, now), (PAID, now), (RETURNED, now)])
  {
    var paid, returned := (PAID, now), (RETURNED, now);
    assert [paid] + [returned] == [paid, returned] && [returned] + [] == [returned];
    FirstsOfCons(paid, [returned], {});
    FirstsOfCons(returned, [], {} + {"a"});
    RefundIsSettled([paid, returned], paid, returned);
    var again := [returned, paid, returned];
    assert [returned] + [paid, returned] == again;
    FirstsOfCons(returned, [paid, returned], {});
    FirstsOfCons(paid, [returned], {} + {"b"});
    FirstsOfCons(returned, [], {} + {"b"} + {"a"});
    assert [returned] + ([paid] + []) == [returned, paid];
    RefundIsSettled(again, returned, paid);
    assert again[1].0.kind == PaymentSucceeded && again[2].0.kind == ChargeRefunded;
  }

  lemma {:induction false} SameMentions(refunds: seq<Refund>, a: seq<(Event, Time)>, b: seq<(Event, Time)>)
    requires EventSet(a) == EventSet(b)
    ensures Mentioned(refunds, a) <= Mentioned(refunds, b)
  {
    forall row | row in Mentioned(refunds, a) ensures row in Mentioned(refunds, b) {
      var i :| 0 <= i < |a| && row in SettledBy(refunds, a[i].0);
      assert a[i].0 in EventSet(b);
    }
  }
}
