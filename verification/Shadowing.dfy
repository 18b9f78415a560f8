/** Calls on given-up rows that end their chains are harmless: the database they lead to is shadowed by one that the
    state machine reaches without them. */
module Shadowing {
  import opened Tables
  import opened Lines
  import opened EventsRepository
  import InventoryWorker
  import opened Inbox
  import opened Dispatcher
  import opened Idempotency
  import opened Orders
  import opened Saga
  import opened Chain
  import opened Business
  import opened Soundness
  import opened Guarantees
  import opened Deliveries
  import opened Lineages
  import PaymentWorker
  import InvoiceWorker
  import NotificationWorker

  // ----- what handlers do not look at -----

  /** The same database with other orders and another inbox. */
  function Patched(db: Db, orders: map<Id, Order>, inbox: set<(Consumer, Id)>): Db {
    db.(orders := orders, inbox := inbox)
  }

  function PatchedOutcome(outcome: Outcome, orders: map<Id, Order>, inbox: set<(Consumer, Id)>): Outcome {
    match outcome
    case Skipped => Skipped
    case Applied(db) => Applied(Patched(db, orders, inbox))
    case Raised(db) => Raised(Patched(db, orders, inbox))
  }

  /** Handlers before the end of the chain look at neither. */
  lemma BodyPatched(db: Db, orders: map<Id, Order>, inbox: set<(Consumer, Id)>, e: Envelope, ch: Choice)
    requires !Ends(e.event.etype)
    ensures Body(Patched(db, orders, inbox), e, ch) == PatchedOutcome(Body(db, e, ch), orders, inbox)
  {
    hide InventoryWorker.Reserve, InventoryWorker.Release,
         PaymentWorker.Authorize, InvoiceWorker.Create, NotificationWorker.Send;
    match e.event.etype {
      case OrderCreated => ReservePatched(db, orders, inbox, e, ch);
      case PaymentFailed => ReleasePatched(db, orders, inbox, e, ch);
      case InventoryReserved => PaymentPatched(db, orders, inbox, e, ch);
      case PaymentAuthorized => RecordPatched(db, orders, inbox, e, ch);
      case InvoiceCreated => RecordPatched(db, orders, inbox, e, ch);
      case InventoryReservationFailed =>
    }
  }

  lemma ReservePatched(db: Db, orders: map<Id, Order>, inbox: set<(Consumer, Id)>, e: Envelope, ch: Choice)
    ensures InventoryWorker.Reserve(Patched(db, orders, inbox), e, ch)
            == PatchedOutcome(InventoryWorker.Reserve(db, e, ch), orders, inbox)
  {
    hide Take, Entries, InventoryWorker.Decide, InventoryWorker.ItemsPayload;
    assert Patched(db, orders, inbox).inventory == db.inventory;
    match InventoryWorker.Decide(db.inventory, e.event.payload) {
      case Malformed =>
      case Rejected =>
      case Accepted =>
    }
  }

  lemma ReleasePatched(db: Db, orders: map<Id, Order>, inbox: set<(Consumer, Id)>, e: Envelope, ch: Choice)
    ensures InventoryWorker.Release(Patched(db, orders, inbox), e, ch)
            == PatchedOutcome(InventoryWorker.Release(db, e, ch), orders, inbox)
  {
    hide Put, InventoryWorker.GoodPrefix, InventoryWorker.HasSkus, InventoryWorker.Known;
  }

  lemma PaymentPatched(db: Db, orders: map<Id, Order>, inbox: set<(Consumer, Id)>, e: Envelope, ch: Choice)
    ensures PaymentWorker.Authorize(Patched(db, orders, inbox), e, ch)
            == PatchedOutcome(PaymentWorker.Authorize(db, e, ch), orders, inbox)
  {
    hide PaymentWorker.PayloadAmount;
  }

  lemma RecordPatched(db: Db, orders: map<Id, Order>, inbox: set<(Consumer, Id)>, e: Envelope, ch: Choice)
    ensures InvoiceWorker.Create(Patched(db, orders, inbox), e, ch)
            == PatchedOutcome(InvoiceWorker.Create(db, e, ch), orders, inbox)
    ensures NotificationWorker.Send(Patched(db, orders, inbox), e, ch)
            == PatchedOutcome(NotificationWorker.Send(db, e, ch), orders, inbox)
  {
  }

  function LastStatus(t: EventType): OrderStatus {
    if t.NotificationSent? then OrderCompleted else OrderCancelled
  }

  lemma FailurePatched(cfg: Config, db: Db, orders: map<Id, Order>, inbox: set<(Consumer, Id)>, j: Id, ch: Choice)
    requires j in db.outbox
    ensures AfterFailure(cfg, Patched(db, orders, inbox), j, ch) == Patched(AfterFailure(cfg, db, j, ch), orders, inbox)
  {
    hide ConsumerForFailure, DelayForAttempt, WithFailed, WithDeadLetter;
    var consumer := ConsumerForFailure(cfg, db.outbox[j].event.etype);
    var recorded, number := WithAttempt(db, j, consumer, ch.now), NextAttemptNumber(db, j, consumer);
    AttemptWrites(db, j, consumer, ch.now);
    BurialPatched(recorded, orders, inbox, j, consumer, number, ch);
  }

  lemma BurialPatched(db: Db, orders: map<Id, Order>, inbox: set<(Consumer, Id)>, j: Id, consumer: Consumer,
                      number: int, ch: Choice)
    requires j in db.outbox
    ensures j in Patched(db, orders, inbox).outbox
    ensures WithFailed(WithDeadLetter(Patched(db, orders, inbox), j, consumer, number, ch.now, ch.recordId), j)
            == Patched(WithFailed(WithDeadLetter(db, j, consumer, number, ch.now, ch.recordId), j), orders, inbox)
  {
  }

  /** What handling the last row of a chain writes. */
  function Ended(db: Db, j: Id): Db
    requires j in db.outbox && db.outbox[j].event.order in db.orders
  {
    var event := db.outbox[j].event;
    db.(orders := db.orders[event.order := db.orders[event.order].(status := LastStatus(event.etype))],
        inbox := db.inbox + {(ConsumerOf(event.etype), j)})
  }

  lemma EndingCall(cfg: Config, db: Db, j: Id, forced: bool, ch: Choice)
    requires j in db.outbox && Ends(db.outbox[j].event.etype) && !Processed(ShapeOf(db), j)
    requires db.outbox[j].event.order in db.orders
    requires db.outbox[j].event.payload.orderId == Some(db.outbox[j].event.order)
    ensures Handle(db, Delivered(db, j, forced), ch).Raised? <==> ch.fault
    ensures !ch.fault ==> HandledDb(db, Delivered(db, j, forced), ch) == Ended(db, j)
  {
  }

  // ----- the shadow -----

  /** The marker of a given-up row at the end of its chain. */
  predicate GivenUpEnd(cfg: Config, db: Db, m: (Consumer, Id)) {
    && m.1 in db.outbox && db.outbox[m.1].status.Failed? && Ends(db.outbox[m.1].event.etype)
    && m.0 == ConsumerOf(db.outbox[m.1].event.etype) && db.outbox[m.1].event.etype in Routed(cfg)
  }

  /** The order has the status that handling the event sets. */
  predicate Shown(db: Db, event: Event) {
    event.order in db.orders && db.orders[event.order].status == LastStatus(event.etype)
  }

  predicate EndsShown(db: Db) {
    forall i | i in db.outbox && Processed(ShapeOf(db), i) && Ends(db.outbox[i].event.etype) ::
      Shown(db, db.outbox[i].event)
  }

  predicate SameLines(a: Db, b: Db) {
    b.orders.Keys == a.orders.Keys && forall o | o in a.orders :: b.orders[o].lines == a.orders[o].lines
  }

  /** Statuses and the markers of given-up last rows are all the difference. */
  ghost predicate Alike(cfg: Config, a: Db, b: Db) {
    && b == Patched(a, b.orders, b.inbox) && SameLines(a, b) && EndsShown(b)
    && a.inbox <= b.inbox && (forall m | m in b.inbox :: m in a.inbox || GivenUpEnd(cfg, a, m))
    && (forall m | m in b.inbox :: m.1 in b.outbox)
  }

  ghost predicate Shadows(cfg: Config, a: Db, b: Db) {
    Sound(cfg, a) && Alike(cfg, a, b)
  }

  lemma SoundShadowsItself(cfg: Config, db: Db)
    requires Sound(cfg, db)
    ensures Shadows(cfg, db, db)
  {
    forall i | i in db.outbox && Processed(ShapeOf(db), i) && Ends(db.outbox[i].event.etype)
      ensures Shown(db, db.outbox[i].event)
    {
      assert PayloadOk(db, db.outbox[i].event);
      EndedOrder(cfg, db, i);
    }
  }

  lemma SoundPayload(cfg: Config, db: Db, j: Id)
    requires Sound(cfg, db) && j in db.outbox
    ensures PayloadOk(db, db.outbox[j].event) && OrdersOk(db)
  {
  }

  /** One status per order at the end of its chain. */
  lemma SameEnding(cfg: Config, db: Db, i: Id, j: Id)
    requires Sound(cfg, db) && i in db.outbox && j in db.outbox && Ends(db.outbox[i].event.etype)
    requires Ends(db.outbox[j].event.etype) && db.outbox[i].event.order == db.outbox[j].event.order
    ensures db.outbox[i].event.etype == db.outbox[j].event.etype
  {
    if db.outbox[i].event.etype != db.outbox[j].event.etype {
      if db.outbox[i].event.etype.NotificationSent? {
        BranchesExclude(ShapeOf(db), Routed(cfg), i, j);
      } else {
        BranchesExclude(ShapeOf(db), Routed(cfg), j, i);
      }
    }
  }

  /** Everything but the end of a chain looks the same in both. */
  lemma ShadowsAgree(cfg: Config, a: Db, b: Db)
    requires Shadows(cfg, a, b)
    ensures Sound(cfg, a) && b == Patched(a, b.orders, b.inbox) && b.outbox == a.outbox
    ensures forall i | i in b.outbox && (!b.outbox[i].status.Failed? || !Ends(b.outbox[i].event.etype)) ::
              Processed(ShapeOf(b), i) <==> Processed(ShapeOf(a), i)
  {
    hide Sound;
  }

  lemma ShadowPayloads(cfg: Config, a: Db, b: Db, i: Id)
    requires Shadows(cfg, a, b) && i in b.outbox
    ensures PayloadOk(b, b.outbox[i].event) && OrdersOk(b)
  {
    hide Sound;
    SoundPayload(cfg, a, i);
  }

  /** The weak invariant holds too. */
  lemma ShadowIsTraced(cfg: Config, a: Db, b: Db)
    requires Shadows(cfg, a, b)
    ensures Traced(cfg, b)
  {
    forall i | i in b.outbox ensures CauseOk(b, b.outbox[i].event) {
      assert LinkedRow(ShapeOf(a), a.outbox[i].event) by { RowIsLinked(ShapeOf(a), i); }
    }
    SharedRepresentatives(cfg, a, b);
  }

  lemma RowIsLinked(s: Shape, i: Id)
    requires Linked(s) && i in s.outbox
    ensures LinkedRow(s, s.outbox[i].event)
  {
  }

  lemma SharedRepresentatives(cfg: Config, a: Db, b: Db)
    requires OneLive(ShapeOf(a)) && Letters(ShapeOf(a)) && b.outbox == a.outbox && b.deadLetters == a.deadLetters
    ensures OneLiveEvent(b) && LettersOk(b)
  {
    forall x, y | Live(ShapeOf(b), x) && Live(ShapeOf(b), y) && Represented(ShapeOf(b), x) == Represented(ShapeOf(b), y)
      ensures x == y
    {
      assert Live(ShapeOf(a), x) && Live(ShapeOf(a), y);
    }
  }

  // ----- each step -----

  /** A row that was given up never changes again. */
  lemma GivenUpStays(cfg: Config, db: Db, step: Step, i: Id)
    requires Sound(cfg, db) && Enabled(cfg, db, step) && i in db.outbox && db.outbox[i].status.Failed?
    ensures i in Next(cfg, db, step).outbox && Next(cfg, db, step).outbox[i] == db.outbox[i]
  {
    hide Handle, AfterFailure, Sound, Priced, AllStocked, ValidRequest;
    match step {
      case EventHandled(j, forced, ch) => HandlerConfined(db, Delivered(db, j, forced), ch);
      case DeliveryFailed(j, ch) =>
        FailureIsClean(cfg, db, j, ch);
        FailureWrites(cfg, db, j, ch);
      case _ =>
    }
  }

  ghost predicate RowsStay(a: Db, b: Db) {
    forall i | i in a.outbox ::
      && i in b.outbox && b.outbox[i].event == a.outbox[i].event
      && (a.outbox[i].status.Failed? ==> b.outbox[i].status.Failed?)
  }

  lemma StepRowsStay(cfg: Config, db: Db, step: Step)
    requires Sound(cfg, db) && Enabled(cfg, db, step)
    ensures RowsStay(db, Next(cfg, db, step))
  {
    hide Sound, Enabled, Next;
    StepKeeps(cfg, db, step);
    forall i | i in db.outbox && db.outbox[i].status.Failed?
      ensures i in Next(cfg, db, step).outbox && Next(cfg, db, step).outbox[i].status.Failed?
    {
      GivenUpStays(cfg, db, step, i);
    }
  }

  /** Two steps that write no status of an order that was there, and no marker of a last row. */
  lemma AlikeKept(cfg: Config, a: Db, b: Db, a': Db, b': Db, added: set<(Consumer, Id)>)
    requires Alike(cfg, a, b) && RowsStay(a, a') && b' == Patched(a', b'.orders, b'.inbox) && SameLines(a', b')
    requires a'.inbox == a.inbox + added && b'.inbox == b.inbox + added
    requires forall m | m in added :: m.1 in a.outbox && !Ends(a.outbox[m.1].event.etype)
    requires forall o | o in b.orders :: o in b'.orders && b'.orders[o] == b.orders[o]
    ensures Alike(cfg, a', b')
  {
    forall i | i in b'.outbox && Processed(ShapeOf(b'), i) && Ends(b'.outbox[i].event.etype)
      ensures Shown(b', b'.outbox[i].event)
    {
      assert (ConsumerOf(b'.outbox[i].event.etype), i) in b.inbox;
      assert Processed(ShapeOf(b), i);
    }
  }

  /** Handling a last row shows its order's status; given up, it has no part in the shadow. */
  lemma EndedShows(cfg: Config, a: Db, b: Db, i: Id)
    requires Shadows(cfg, a, b) && i in b.outbox && Ends(b.outbox[i].event.etype)
    requires b.outbox[i].event.order in b.orders
    ensures EndsShown(Ended(b, i)) && SameLines(b, Ended(b, i))
  {
    hide Sound;
    var after, event := Ended(b, i), b.outbox[i].event;
    forall j | j in after.outbox && Processed(ShapeOf(after), j) && Ends(after.outbox[j].event.etype)
      ensures Shown(after, after.outbox[j].event)
    {
      if j != i {
        assert Processed(ShapeOf(b), j);
        if b.outbox[j].event.order == event.order {
          SameEnding(cfg, a, i, j);
        }
      }
    }
  }

  lemma GivenUpCall(cfg: Config, a: Db, b: Db, i: Id, forced: bool, ch: Choice)
    requires Shadows(cfg, a, b) && MayHandle(cfg, b, i, forced, ch)
    requires b.outbox[i].status.Failed? && Ends(b.outbox[i].event.etype)
    ensures Shadows(cfg, a, HandledDb(b, Delivered(b, i, forced), ch))
  {
    hide Sound, Handle, HandledDb, Payloads, EndsShown;
    if Processed(ShapeOf(b), i) {
      Redelivered(b, Delivered(b, i, forced), ch);
    } else {
      ShadowPayloads(cfg, a, b, i);
      EndingCall(cfg, b, i, forced, ch);
      EndedShows(cfg, a, b, i);
    }
  }

  lemma LiveCall(cfg: Config, a: Db, b: Db, i: Id, forced: bool, ch: Choice)
    requires Shadows(cfg, a, b) && Enabled(cfg, b, EventHandled(i, forced, ch))
    ensures Enabled(cfg, a, EventHandled(i, forced, ch))
    ensures Alike(cfg, Next(cfg, a, EventHandled(i, forced, ch)), Next(cfg, b, EventHandled(i, forced, ch)))
  {
    hide Sound, Handle, HandledDb, Alike, Body;
    ShadowsAgree(cfg, a, b);
    if Processed(ShapeOf(b), i) {
      Redelivered(a, Delivered(a, i, forced), ch);
      Redelivered(b, Delivered(b, i, forced), ch);
    } else if Ends(b.outbox[i].event.etype) {
      LastCall(cfg, a, b, i, forced, ch);
    } else {
      LinkCall(cfg, a, b, i, forced, ch);
    }
  }

  lemma LastCall(cfg: Config, a: Db, b: Db, i: Id, forced: bool, ch: Choice)
    requires Shadows(cfg, a, b) && Enabled(cfg, b, EventHandled(i, forced, ch)) && !Processed(ShapeOf(b), i)
    requires Ends(b.outbox[i].event.etype)
    ensures Enabled(cfg, a, EventHandled(i, forced, ch))
    ensures Alike(cfg, Next(cfg, a, EventHandled(i, forced, ch)), Next(cfg, b, EventHandled(i, forced, ch)))
  {
    hide Sound, Handle, HandledDb, EndsShown;
    ShadowsAgree(cfg, a, b);
    SoundPayload(cfg, a, i);
    EndingCall(cfg, a, i, forced, ch);
    EndingCall(cfg, b, i, forced, ch);
    EndedShows(cfg, a, b, i);
  }

  lemma LinkCall(cfg: Config, a: Db, b: Db, i: Id, forced: bool, ch: Choice)
    requires Shadows(cfg, a, b) && Enabled(cfg, b, EventHandled(i, forced, ch)) && !Processed(ShapeOf(b), i)
    requires !Ends(b.outbox[i].event.etype)
    ensures Enabled(cfg, a, EventHandled(i, forced, ch))
    ensures Alike(cfg, Next(cfg, a, EventHandled(i, forced, ch)), Next(cfg, b, EventHandled(i, forced, ch)))
  {
    hide Sound, Body, Alike, Runnable;
    ShadowsAgree(cfg, a, b);
    var e, step := Delivered(a, i, forced), EventHandled(i, forced, ch);
    assert e == Delivered(b, i, forced);
    BodyPatched(a, b.orders, b.inbox, e, ch);
    BodyLeaves(a, e, ch);
    assert Enabled(cfg, a, step);
    HandledCases(cfg, a, i, forced, ch);
    StepRowsStay(cfg, a, step);
    MarkedAlike(cfg, a, b, Body(a, e, ch).db, e);
  }

  lemma MarkedAlike(cfg: Config, a: Db, b: Db, handled: Db, e: Envelope)
    requires Alike(cfg, a, b) && handled.orders == a.orders && handled.inbox == a.inbox
    requires RowsStay(a, Marked(handled, e))
    requires e.id in a.outbox && e.event.etype == a.outbox[e.id].event.etype && !Ends(e.event.etype)
    ensures Alike(cfg, Marked(handled, e), Marked(Patched(handled, b.orders, b.inbox), e))
  {
    AlikeKept(cfg, a, b, Marked(handled, e), Marked(Patched(handled, b.orders, b.inbox), e),
              {(ConsumerOf(e.event.etype), e.id)});
  }

  lemma FailedCall(cfg: Config, a: Db, b: Db, i: Id, ch: Choice)
    requires Shadows(cfg, a, b) && Enabled(cfg, b, DeliveryFailed(i, ch))
    ensures Enabled(cfg, a, DeliveryFailed(i, ch))
    ensures Alike(cfg, Next(cfg, a, DeliveryFailed(i, ch)), Next(cfg, b, DeliveryFailed(i, ch)))
  {
    hide Sound, Body, AfterFailure, HandleRow, Alike;
    ShadowsAgree(cfg, a, b);
    RaisesAlike(cfg, a, b, i, ch);
    FailureIsClean(cfg, a, i, ch);
    FailurePatched(cfg, a, b.orders, b.inbox, i, ch);
    StepRowsStay(cfg, a, DeliveryFailed(i, ch));
    FailureWrites(cfg, a, i, ch);
    BookkeptAlike(cfg, a, b, Next(cfg, a, DeliveryFailed(i, ch)));
  }

  lemma BookkeptAlike(cfg: Config, a: Db, b: Db, a': Db)
    requires Alike(cfg, a, b) && RowsStay(a, a')
    requires a' == a.(outbox := a'.outbox, attempts := a'.attempts, deadLetters := a'.deadLetters)
    ensures Alike(cfg, a', Patched(a', b.orders, b.inbox))
  {
    AlikeKept(cfg, a, b, a', Patched(a', b.orders, b.inbox), {});
  }

  lemma RaisesAlike(cfg: Config, a: Db, b: Db, i: Id, ch: Choice)
    requires Shadows(cfg, a, b) && i in b.outbox && !b.outbox[i].status.Failed? && HandleRow(cfg, b, i, ch).Raised?
    ensures i in a.outbox && HandleRow(cfg, a, i, ch).Raised? && HandleRow(cfg, b, i, ch) == Raised(b)
  {
    hide Sound, Body, Alike;
    ShadowsAgree(cfg, a, b);
    SoundPayload(cfg, a, i);
    ShadowPayloads(cfg, a, b, i);
    RaiseIsClean(cfg, b, i, ch);
    var e := EnvelopeOf(a, i);
    if e.event.etype in Routed(cfg) && !ch.fault && !Ends(e.event.etype) {
      BodyPatched(a, b.orders, b.inbox, e, ch);
    }
  }

  /** The steps that look neither at a status nor at the inbox. */
  lemma OtherStep(cfg: Config, a: Db, b: Db, step: Step)
    requires Shadows(cfg, a, b) && Enabled(cfg, b, step)
    requires !step.EventHandled? && !step.DeliveryFailed? && !step.OrderPlaced?
    ensures Enabled(cfg, a, step) && Alike(cfg, Next(cfg, a, step), Next(cfg, b, step))
  {
    hide Sound, EndsShown;
    ShadowsAgree(cfg, a, b);
    assert Enabled(cfg, a, step);
    StepRowsStay(cfg, a, step);
    AlikeKept(cfg, a, b, Next(cfg, a, step), Next(cfg, b, step), {});
  }

  lemma Placement(cfg: Config, a: Db, b: Db, step: Step)
    requires Shadows(cfg, a, b) && Enabled(cfg, b, step) && step.OrderPlaced?
    ensures Enabled(cfg, a, step) && Alike(cfg, Next(cfg, a, step), Next(cfg, b, step))
  {
    hide Sound, ValidRequest, Created, EndsShown, RowsStay;
    ShadowsAgree(cfg, a, b);
    StepRowsStay(cfg, a, step);
    var startA := if step.use.Some? then WithKey(a, step.use.value.key, step.use.value.hash, step.ch.now) else a;
    var startB := if step.use.Some? then WithKey(b, step.use.value.key, step.use.value.hash, step.ch.now) else b;
    assert startA == a.(keys := startA.keys) && startB == b.(keys := startA.keys);
    CreatedAlike(cfg, a, b, startA.keys, step.order, step.items, step.correlation, step.ch);
  }

  lemma CreatedAlike(cfg: Config, a: Db, b: Db, keys: map<string, KeyRow>, order: Id, items: seq<Item>,
                     correlation: Id, ch: Choice)
    requires Alike(cfg, a, b) && order !in a.orders && AllStocked(a.inventory, items)
    requires RowsStay(a, Created(a.(keys := keys), order, items, correlation, ch))
    ensures AllStocked(b.inventory, items)
    ensures Alike(cfg, Created(a.(keys := keys), order, items, correlation, ch),
                  Created(b.(keys := keys), order, items, correlation, ch))
  {
    hide Priced, EndsShown, RowsStay;
    var a' := Created(a.(keys := keys), order, items, correlation, ch);
    var b' := Created(b.(keys := keys), order, items, correlation, ch);
    AlikeKept(cfg, a, b, a', b', {});
  }

  // ----- whole runs -----

  /** Everything the code accepts but a call on a given-up row before the end of its chain. */
  predicate Careful(cfg: Config, db: Db, step: Step) {
    Accepts(cfg, db, step) && (HandlesGivenUp(db, step) ==> Ends(db.outbox[step.i].event.etype))
  }

  predicate CarefulRun(cfg: Config, db: Db, run: seq<Step>)
    requires AcceptedRun(cfg, db, run)
    decreases |run|
  {
    run != [] ==>
      var front := run[..|run| - 1];
      CarefulRun(cfg, db, front) && Careful(cfg, AcceptedAfter(cfg, db, front), run[|run| - 1])
  }

  lemma OneCarefulStep(cfg: Config, db: Db, step: Step)
    requires Careful(cfg, db, step)
    ensures AcceptedRun(cfg, db, [step]) && CarefulRun(cfg, db, [step])
    ensures AcceptedAfter(cfg, db, [step]) == AcceptedNext(cfg, db, step)
  {
    hide Accepts, AcceptedNext;
    assert [step][..0] == [];
  }

  lemma CarefulStep(cfg: Config, a: Db, b: Db, step: Step) returns (a': Db)
    requires Shadows(cfg, a, b) && Careful(cfg, b, step)
    ensures Shadows(cfg, a', AcceptedNext(cfg, b, step))
    ensures a' == a || (Enabled(cfg, a, step) && a' == Next(cfg, a, step))
  {
    hide Handle, HandledDb, Enabled, Next;
    if HandlesGivenUp(b, step) {
      GivenUpCall(cfg, a, b, step.i, step.forced, step.ch);
      a' := a;
    } else {
      SameStep(cfg, b, step);
      match step {
        case EventHandled(i, forced, ch) => LiveCall(cfg, a, b, i, forced, ch);
        case DeliveryFailed(i, ch) => FailedCall(cfg, a, b, i, ch);
        case OrderPlaced(_, _, _, _, _) => Placement(cfg, a, b, step);
        case _ => OtherStep(cfg, a, b, step);
      }
      a' := Next(cfg, a, step);
      assert Sound(cfg, a) by { ShadowsAgree(cfg, a, b); }
      StepKeepsSound(cfg, a, step);
    }
  }

  lemma {:induction false} CarefulRunIsShadowed(cfg: Config, a: Db, b: Db, run: seq<Step>) returns (a': Db)
    requires Shadows(cfg, a, b) && AcceptedRun(cfg, b, run) && CarefulRun(cfg, b, run)
    ensures Shadows(cfg, a', AcceptedAfter(cfg, b, run))
    decreases |run|
  {
    hide Shadows, Careful, Accepts, AcceptedNext;
    if run == [] {
      a' := a;
    } else {
      var front := run[..|run| - 1];
      var mid := CarefulRunIsShadowed(cfg, a, b, front);
      a' := CarefulStep(cfg, mid, AcceptedAfter(cfg, b, front), run[|run| - 1]);
    }
  }
}
