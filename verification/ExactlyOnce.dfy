/**
 Webhook deliveries come duplicated, fail and are retried, and the memory of what was processed is
 evicted after 90 days. The payments, refunds and audit log are nevertheless those of a gateway
 that has no such memory and is given the first successful delivery of every event, once.
 */
module ExactlyOnce {
  import opened Prelude
  import opened Ledger
  import opened Webhooks
  import opened Requests

  datatype Delivery =
    | Deliver(event: Event, at: Time, crash: bool)  // crash: an exception anywhere rolls the request back
    | Serving(request: Request, reply: ProviderReply, at: Time)
    | Cleaning(at: Time)

  /** The gateway: get_db around process_webhook, the other requests, and the cleanup job. */
  function Do(db: Db, step: Delivery): Db {
    match step
    case Deliver(event, at, crash) => if crash then db else ServeWebhook(db, event, at).1
    case Serving(request, reply, at) => if request.DeliverWebhook? then db else Serve(db, request, reply, at).1
    case Cleaning(at) => Cleanup(db, at)
  }

  function Run(db: Db, steps: seq<Delivery>): Db
    decreases |steps|
  {
    if steps == [] then db else Run(Do(db, steps[0]), steps[1..])
  }

  /** The events the gateway acknowledged along the run. */
  function Acknowledged(db: Db, steps: seq<Delivery>): set<string>
    decreases |steps|
  {
    if steps == [] then {}
    else
      var rest := Acknowledged(Do(db, steps[0]), steps[1..]);
      if steps[0].Deliver? && !steps[0].crash && ServeWebhook(db, steps[0].event, steps[0].at).0.Success?
      then rest + {steps[0].event.id} else rest
  }

  // ---------------------------------------------------------------------------------------
  // The reference: no memory of events at all
  // ---------------------------------------------------------------------------------------

  function Bare(db: Db): Db {
    db.(events := map[])
  }

  function DoBare(books: Db, step: Delivery): Db {
    match step
    case Deliver(event, at, _) => React(books, event, at)
    case Serving(request, reply, at) => if request.DeliverWebhook? then books else Serve(books, request, reply, at).1
    case Cleaning(_) => books
  }

  function Replay(books: Db, steps: seq<Delivery>): Db
    decreases |steps|
  {
    if steps == [] then books else Replay(DoBare(books, steps[0]), steps[1..])
  }

  // A delivery that is neither a repetition nor a failure; `first` holds when each event was handled.
  predicate IsFirst(books: Db, first: map<string, Time>, step: Delivery)
    requires step.Deliver?
  {
    !step.crash && step.event.id !in first && Handle(books, step.event, step.at).Success?
  }

  function Note(books: Db, first: map<string, Time>, step: Delivery): map<string, Time> {
    if step.Deliver? && IsFirst(books, first, step) then first[step.event.id := step.at] else first
  }

  predicate Keeps(books: Db, first: map<string, Time>, step: Delivery) {
    !step.Cleaning? && (step.Deliver? ==> IsFirst(books, first, step))
  }

  function After(books: Db, first: map<string, Time>, step: Delivery): Db {
    if Keeps(books, first, step) then DoBare(books, step) else books
  }

  /** The run without its cleanups, failed deliveries and repetitions. */
  function Kept(books: Db, first: map<string, Time>, steps: seq<Delivery>): seq<Delivery>
    decreases |steps|
  {
    if steps == [] then []
    else
      var rest := Kept(After(books, first, steps[0]), Note(books, first, steps[0]), steps[1..]);
      if Keeps(books, first, steps[0]) then [steps[0]] + rest else rest
  }

  /** The clock never goes back, and no event is redelivered more than 90 days after it was handled. */
  predicate Prompt(books: Db, first: map<string, Time>, clock: Time, steps: seq<Delivery>)
    decreases |steps|
  {
    steps != [] ==>
      && steps[0].at >= clock
      && (steps[0].Deliver? && steps[0].event.id in first ==> steps[0].at <= first[steps[0].event.id] + RETENTION)
      && Prompt(After(books, first, steps[0]), Note(books, first, steps[0]), steps[0].at, steps[1..])
  }

  // ---------------------------------------------------------------------------------------
  // Refinement
  // ---------------------------------------------------------------------------------------

  // What the event table still knows: it is right about what it holds, and only old rows are gone.
  ghost predicate Agrees(db: Db, books: Db, first: map<string, Time>, clock: Time) {
    && Bare(db) == books
    && (forall id | id in db.events ::
          db.events[id].processed && id in first && db.events[id].createdAt == first[id])
    && (forall id | id in first :: id in db.events || first[id] < clock - RETENTION)
  }

  lemma {:induction false} EventsAreAside(db: Db, request: Request, reply: ProviderReply, now: Time)
    requires !request.DeliverWebhook?
    ensures Bare(Serve(db, request, reply, now).1) == Serve(Bare(db), request, reply, now).1
    ensures Serve(db, request, reply, now).1.events == db.events
  {
    assert Begin(db, request, now) == Begin(Bare(db), request, now);
  }

  lemma {:induction false} DeliveryAgrees(db: Db, books: Db, first: map<string, Time>, clock: Time, step: Delivery)
    requires Agrees(db, books, first, clock) && step.Deliver? && step.at >= clock && !step.crash
    requires step.event.id in first ==> step.at <= first[step.event.id] + RETENTION
    ensures Agrees(Do(db, step), After(books, first, step), Note(books, first, step), step.at)
    ensures ServeWebhook(db, step.event, step.at).0.Success? <==> step.event.id in Note(books, first, step)
  {
    HandleIgnoresEvents(db, map[], step.event, step.at);
  }

  lemma {:induction false} StepAgrees(db: Db, books: Db, first: map<string, Time>, clock: Time, step: Delivery)
    requires Agrees(db, books, first, clock) && step.at >= clock
    requires step.Deliver? && step.event.id in first ==> step.at <= first[step.event.id] + RETENTION
    ensures Agrees(Do(db, step), After(books, first, step), Note(books, first, step), step.at)
  {
    match step
    case Deliver(_, _, crash) => if !crash { DeliveryAgrees(db, books, first, clock, step); }
    case Serving(request, reply, at) =>
      if !request.DeliverWebhook? {
        EventsAreAside(db, request, reply, at);
      }
    case Cleaning(_) =>
  }

  lemma {:induction false} RunAgrees(db: Db, books: Db, first: map<string, Time>, clock: Time, steps: seq<Delivery>)
    requires Agrees(db, books, first, clock) && Prompt(books, first, clock, steps)
    ensures Bare(Run(db, steps)) == Replay(books, Kept(books, first, steps))
    decreases |steps|
  {
    if steps != [] {
      var step := steps[0];
      StepAgrees(db, books, first, clock, step);
      var rest := Kept(After(books, first, step), Note(books, first, step), steps[1..]);
      RunAgrees(Do(db, step), After(books, first, step), Note(books, first, step), step.at, steps[1..]);
      assert ([step] + rest)[1..] == rest;
    }
  }

  /**
   Exactly once: whatever is delivered twice, fails, is retried or is forgotten by the cleanup, the
   payments, refunds and audit log are those of handling the kept deliveries with no deduplication.
   */
  lemma {:induction false} EventsTakeEffectOnce(db: Db, clock: Time, steps: seq<Delivery>)
    requires db.events == map[] && Prompt(db, map[], clock, steps)
    ensures Bare(Run(db, steps)) == Replay(db, Kept(db, map[], steps))
  {
    RunAgrees(db, db, map[], clock, steps);
  }

  ghost predicate AtMostOnce(steps: seq<Delivery>) {
    forall i, j | 0 <= i < j < |steps| && steps[i].Deliver? && steps[j].Deliver? ::
      steps[i].event.id != steps[j].event.id
  }

  ghost function EventsIn(steps: seq<Delivery>): set<string> {
    set i | 0 <= i < |steps| && steps[i].Deliver? :: steps[i].event.id
  }

  /** The kept deliveries have distinct events, none handled before, and none of them fails. */
  lemma {:induction false} KeptAtMostOnce(books: Db, first: map<string, Time>, steps: seq<Delivery>)
    ensures AtMostOnce(Kept(books, first, steps))
    ensures EventsIn(Kept(books, first, steps)) !! first.Keys
    ensures forall i | 0 <= i < |Kept(books, first, steps)| && Kept(books, first, steps)[i].Deliver? ::
              !Kept(books, first, steps)[i].crash && Kept(books, first, steps)[i] in steps
    decreases |steps|
  {
    if steps != [] {
      var step := steps[0];
      var rest := Kept(After(books, first, step), Note(books, first, step), steps[1..]);
      KeptAtMostOnce(After(books, first, step), Note(books, first, step), steps[1..]);
      if Keeps(books, first, step) {
        var kept := [step] + rest;
        forall i, j | 0 <= i < j < |kept| && kept[i].Deliver? && kept[j].Deliver?
          ensures kept[i].event.id != kept[j].event.id
        {
          assert kept[j].event.id in EventsIn(rest);
        }
        forall id | id in EventsIn(kept) ensures id !in first {
          var i :| 0 <= i < |kept| && kept[i].Deliver? && kept[i].event.id == id;
          if i > 0 {
            assert id in EventsIn(rest);
          }
        }
      }
    }
  }

  /** And they are exactly the events the gateway acknowledged. */
  lemma {:induction false} AcknowledgedIsKept(db: Db, books: Db, first: map<string, Time>, clock: Time, steps: seq<Delivery>)
    requires Agrees(db, books, first, clock) && Prompt(books, first, clock, steps)
    ensures EventsIn(Kept(books, first, steps)) + first.Keys == Acknowledged(db, steps) + first.Keys
    decreases |steps|
  {
    if steps != [] {
      var step := steps[0];
      StepAgrees(db, books, first, clock, step);
      var note := Note(books, first, step);
      var rest := Kept(After(books, first, step), note, steps[1..]);
      AcknowledgedIsKept(Do(db, step), After(books, first, step), note, step.at, steps[1..]);
      if step.Deliver? && !step.crash {
        DeliveryAgrees(db, books, first, clock, step);
      }
      EventsOfCons(step, rest);
    }
  }

  lemma EventsOfCons(step: Delivery, rest: seq<Delivery>)
    ensures EventsIn([step] + rest) == (if step.Deliver? then {step.event.id} else {}) + EventsIn(rest)
  {
    var all := [step] + rest;
    forall id | id in EventsIn(rest) ensures id in EventsIn(all) {
      var i :| 0 <= i < |rest| && rest[i].Deliver? && rest[i].event.id == id;
      assert all[i + 1] == rest[i];
    }
    if step.Deliver? {
      assert all[0] == step;
    }
  }

  lemma {:induction false} AcknowledgedEventsAreKept(db: Db, clock: Time, steps: seq<Delivery>)
    requires db.events == map[] && Prompt(db, map[], clock, steps)
    ensures EventsIn(Kept(db, map[], steps)) == Acknowledged(db, steps)
  {
    AcknowledgedIsKept(db, db, map[], clock, steps);
  }

  /** How far the memory reaches: a cleanup at `c` leaves a handled event recognised if and only if its row is young enough. */
  lemma MemoryIsNinetyDays(db: Db, event: Event, c: Time, now: Time)
    requires event.id in db.events && db.events[event.id].processed
    ensures BeginWebhook(Cleanup(db, c), event, now).Reply? <==> db.events[event.id].createdAt >= c - RETENTION
    ensures db.events[event.id].createdAt < c - RETENTION ==>
      Bare(ServeWebhook(Cleanup(db, c), event, now).1) == React(Bare(db), event, now)
  {
    HandleIgnoresEvents(db, Cleanup(db, c).events, event, now);
    HandleIgnoresEvents(db, map[], event, now);
  }

  /**
   Why redeliveries must be prompt: a processed event delivered again after a cleanup takes effect a
   second time if its row was older than 90 days, and none at all otherwise.
   */
  lemma {:induction false} LateRedeliveryTakesEffect(db: Db, event: Event, c: Time, now: Time)
    requires event.id in db.events && db.events[event.id].processed
    ensures
      var after := Run(db, [Cleaning(c), Deliver(event, now, false)]);
      && (db.events[event.id].createdAt < c - 90 * 24 * 60 * 60 * 1000000 ==> Bare(after) == React(Bare(db), event, now))
      && (db.events[event.id].createdAt >= c - 90 * 24 * 60 * 60 * 1000000 ==> Bare(after) == Bare(db))
  {
    MemoryIsNinetyDays(db, event, c, now);
    var steps, last := [Cleaning(c), Deliver(event, now, false)], [Deliver(event, now, false)];
    assert steps[1..] == last && last[1..] == [];
    assert Run(Cleanup(db, c), last) == Run(Do(Cleanup(db, c), last[0]), []);
  }
}
