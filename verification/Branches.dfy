/** The branch at the payment: what decides it, and where each branch leads. */
module Branches {
  import opened Tables
  import opened Lines
  import opened EventsRepository
  import opened Inbox
  import opened Dispatcher
  import opened Idempotency
  import opened Orders
  import opened Saga
  import opened Chain
  import opened Business
  import opened Soundness
  import opened Guarantees
  import opened Conservation

  /** What the payment step emits, by the flag on the delivered envelope. */
  function Branch(forced: bool): EventType {
    if forced then PaymentFailed else PaymentAuthorized
  }

  /** The first call for a reserved order writes one payment, of the order's total, authorized unless the envelope was
      forced; and PaymentFailed if and only if it was, PaymentAuthorized otherwise. */
  lemma PaymentDecides(cfg: Config, db: Db, i: Id, forced: bool, ch: Choice)
    requires Sound(cfg, db) && MayHandle(cfg, db, i, forced, ch) && !Processed(ShapeOf(db), i)
    requires db.outbox[i].event.etype.InventoryReserved?
    ensures var after, order := HandledDb(db, Delivered(db, i, forced), ch), db.outbox[i].event.order;
            && order in db.orders && ch.eventId in after.outbox && ch.recordId !in db.payments
            && (after.outbox[ch.eventId].event.etype == PaymentFailed <==> forced)
            && (after.outbox[ch.eventId].event.etype == PaymentAuthorized <==> !forced)
            && after.payments == db.payments[ch.recordId := Payment(order, !forced, OrderTotal(db.orders[order].lines))]
  {
    hide AmountCents, OrderTotal, Raw, Chained, OrdersOk, RecordsCited, Projected;
    assert PayloadOk(db, db.outbox[i].event);
    AmountIsOrderTotal(db.orders[db.outbox[i].event.order].lines);
  }

  // ----- over runs -----

  /** A handler call on a reserved order's row that has not been handled. */
  predicate PayingCall(db: Db, step: Step, o: Id) {
    && step.EventHandled? && step.i in db.outbox && !Processed(ShapeOf(db), step.i)
    && db.outbox[step.i].event.order == o && db.outbox[step.i].event.etype == InventoryReserved
  }

  /** Every event of b was there in a, or starts an order. */
  ghost predicate OnlyStarts(a: Db, b: Db) {
    && (forall i | i in a.outbox :: i in b.outbox && b.outbox[i].event == a.outbox[i].event)
    && (forall i | i in b.outbox ::
          b.outbox[i].event.etype.OrderCreated? || exists j :: j in a.outbox && a.outbox[j].event == b.outbox[i].event)
  }

  lemma OtherStepsOnlyStart(cfg: Config, db: Db, step: Step)
    requires Sound(cfg, db) && Enabled(cfg, db, step) && !step.EventHandled?
    ensures OnlyStarts(db, Next(cfg, db, step))
  {
    hide Handle, AfterFailure, Created, ValidRequest, Sound;
    match step {
      case OrderPlaced(order, items, correlation, use, ch) =>
        var start := if use.Some? then WithKey(db, use.value.key, use.value.hash, ch.now) else db;
        PlacementOnlyStarts(db, start, order, items, correlation, ch);
      case DeliveryFailed(i, ch) => FailureOnlyStarts(cfg, db, i, ch);
      case LetterReplayed(d, ch) => LettersHaveEvents(cfg, db, d);
      case _ =>
    }
  }

  lemma PlacementOnlyStarts(db: Db, start: Db, order: Id, items: seq<Item>, correlation: Id, ch: Choice)
    requires AllStocked(start.inventory, items) && ch.eventId !in db.outbox && start == db.(keys := start.keys)
    ensures OnlyStarts(db, Created(start, order, items, correlation, ch))
  {
    hide Priced;
  }

  lemma FailureOnlyStarts(cfg: Config, db: Db, i: Id, ch: Choice)
    requires Sound(cfg, db) && Enabled(cfg, db, DeliveryFailed(i, ch))
    ensures OnlyStarts(db, Next(cfg, db, DeliveryFailed(i, ch)))
  {
    hide Handle, AfterFailure, Sound, NextAttemptNumber, ConsumerForFailure;
    FailureIsClean(cfg, db, i, ch);
    FailureWrites(cfg, db, i, ch);
  }

  lemma LettersHaveEvents(cfg: Config, db: Db, d: Id)
    requires Sound(cfg, db) && d in db.deadLetters
    ensures db.deadLetters[d].eventId in db.outbox
    ensures db.outbox[db.deadLetters[d].eventId].event == db.deadLetters[d].event
  {
  }

  /** The only step that settles an order's payment is the paying call, and its flag says how. */
  lemma StepSettles(cfg: Config, db: Db, step: Step, o: Id, t: EventType)
    requires Sound(cfg, db) && Enabled(cfg, db, step) && (t.PaymentAuthorized? || t.PaymentFailed?)
    ensures Emitted(Next(cfg, db, step), o, t) <==>
            Emitted(db, o, t) || (PayingCall(db, step, o) && t == Branch(step.forced))
  {
    hide Sound, Handle, Next, LinkAdded, Runnable, Emitted;
    if step.EventHandled? {
      CallSettles(cfg, db, step.i, step.forced, step.ch, o, t);
    } else {
      OtherStepsOnlyStart(cfg, db, step);
      EmittedSame(db, Next(cfg, db, step), o, t);
    }
  }

  lemma CallSettles(cfg: Config, db: Db, i: Id, forced: bool, ch: Choice, o: Id, t: EventType)
    requires Sound(cfg, db) && Enabled(cfg, db, EventHandled(i, forced, ch))
    requires t.PaymentAuthorized? || t.PaymentFailed?
    ensures Emitted(Next(cfg, db, EventHandled(i, forced, ch)), o, t) <==>
            Emitted(db, o, t) || (PayingCall(db, EventHandled(i, forced, ch), o) && t == Branch(forced))
  {
    hide Sound, Handle, HandledDb, Emitted, Runnable, LinkAdded;
    var after, event := Next(cfg, db, EventHandled(i, forced, ch)), db.outbox[i].event;
    HandledCases(cfg, db, i, forced, ch);
    if !Processed(ShapeOf(db), i) {
      if Ends(event.etype) {
        HandlerFinishes(cfg, db, i, forced, ch);
        EmittedSame(db, after, o, t);
      } else {
        LinkEmits(cfg, db, after, i, ch, o, t);
        LinkFollows(db, after, i, ch);
        if event.etype.InventoryReserved? {
          PaymentDecides(cfg, db, i, forced, ch);
        }
      }
    }
  }

  lemma LinkFollows(a: Db, b: Db, i: Id, ch: Choice)
    requires i in a.outbox && a.outbox[i].event.order in a.orders && LinkAdded(a, b, i, ch)
    ensures ch.eventId in b.outbox && Follows(b.outbox[ch.eventId].event.etype, a.outbox[i].event.etype)
  {
  }

  /** The n-th step of the run is the order's paying call, forced or not. */
  predicate PaysAt(cfg: Config, db: Db, run: seq<Step>, n: nat, o: Id, forced: bool) {
    && n < |run| && Valid(cfg, db, run[..n]) && PayingCall(After(cfg, db, run[..n]), run[n], o)
    && run[n].forced == forced
  }

  /** In every run from an empty system an order has a failed payment exactly when its paying call was forced, and an
      authorized one exactly when it was not. */
  lemma {:induction false} BranchIffForced(cfg: Config, db: Db, run: seq<Step>, o: Id, forced: bool)
    requires Initial(db) && Valid(cfg, db, run)
    ensures Emitted(After(cfg, db, run), o, Branch(forced)) <==> exists n :: PaysAt(cfg, db, run, n, o, forced)
    decreases |run|
  {
    hide Sound, Enabled, Next, PayingCall;
    if run != [] {
      var last := |run| - 1;
      var front := run[..last];
      BranchIffForced(cfg, db, front, o, forced);
      InitialIsSound(cfg, db);
      ReachableIsSound(cfg, db, front);
      StepSettles(cfg, After(cfg, db, front), run[last], o, Branch(forced));
      forall n | 0 <= n < last ensures PaysAt(cfg, db, front, n, o, forced) <==> PaysAt(cfg, db, run, n, o, forced) {
        assert front[..n] == run[..n];
      }
      if Emitted(After(cfg, db, run), o, Branch(forced)) && !Emitted(After(cfg, db, front), o, Branch(forced)) {
        PayingCallIsCall(After(cfg, db, front), run[last], o);
        assert PaysAt(cfg, db, run, last, o, forced);
      }
    }
  }

  lemma PayingCallIsCall(db: Db, step: Step, o: Id)
    requires PayingCall(db, step, o)
    ensures step.EventHandled?
  {
  }
}
