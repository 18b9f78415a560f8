/** Stock: every unit is available or held by exactly one order, and distinct SKUs are never oversold. */
module Conservation {
  import opened Tables
  import opened Lines
  import opened Sums
  import opened EventsRepository
  import opened Inbox
  import opened Dispatcher
  import opened Idempotency
  import opened Orders
  import opened Saga
  import opened Chain
  import opened Business
  import opened Soundness
  import opened Guarantees

  ghost predicate Emitted(db: Db, o: Id, t: EventType) {
    exists i :: i in db.outbox && db.outbox[i].event.order == o && db.outbox[i].event.etype == t
  }

  /** Reserved and not released. */
  ghost predicate Holding(db: Db, o: Id) {
    Emitted(db, o, InventoryReserved) && !Emitted(db, o, InventoryReleased)
  }

  ghost function HeldBy(db: Db, o: Id, s: Sku): int
    requires o in db.orders
  {
    if Holding(db, o) then UnitsOrdered(db.orders[o].lines, s) else 0
  }

  ghost function Holdings(db: Db, s: Sku): map<Id, int> {
    map o | o in db.orders :: HeldBy(db, o, s)
  }

  /** Units of `s` available plus units held by orders. */
  ghost function Stock(db: Db, s: Sku): int
    requires s in db.inventory
  {
    db.inventory[s].available + Total(Holdings(db, s))
  }

  lemma EmittedSame(a: Db, b: Db, o: Id, t: EventType)
    requires forall i | i in a.outbox :: i in b.outbox && b.outbox[i].event == a.outbox[i].event
    requires forall i | i in b.outbox && b.outbox[i].event.etype == t && b.outbox[i].event.order == o ::
               exists j :: j in a.outbox && a.outbox[j].event == b.outbox[i].event
    ensures Emitted(b, o, t) <==> Emitted(a, o, t)
  {
    if Emitted(a, o, t) {
      var i :| i in a.outbox && a.outbox[i].event.order == o && a.outbox[i].event.etype == t;
      assert i in b.outbox;
    }
    if Emitted(b, o, t) {
      var i :| i in b.outbox && b.outbox[i].event.order == o && b.outbox[i].event.etype == t;
      var j :| j in a.outbox && a.outbox[j].event == b.outbox[i].event;
    }
  }

  /** Bookkeeping steps add no event, so no holding changes. */
  lemma ProgressKeepsHoldings(a: Db, b: Db, n: Id, s: Sku)
    requires OnlyProgress(a, b, n)
    ensures Holdings(b, s) == Holdings(a, s)
  {
    forall o, t | o in a.orders ensures Emitted(b, o, t) <==> Emitted(a, o, t) {
      EmittedSame(a, b, o, t);
    }
  }

  /** What extending a chain does to the events an order has. */
  lemma LinkEmits(cfg: Config, a: Db, b: Db, i: Id, ch: Choice, o: Id, t: EventType)
    requires i in a.outbox && a.outbox[i].event.order in a.orders && LinkAdded(a, b, i, ch)
    ensures Emitted(b, o, t) <==>
            Emitted(a, o, t) || (o == a.outbox[i].event.order && t == b.outbox[ch.eventId].event.etype)
  {
    hide PayloadOk, Grown, StockMoved, OnlyCitedAdded;
    var n := ch.eventId;
    if o == a.outbox[i].event.order && t == b.outbox[n].event.etype {
      assert b.outbox[n].event.order == o;
    } else {
      EmittedSame(a, b, o, t);
    }
  }

  /** What the stage of a live unprocessed row says about its order's holding. */
  lemma HoldingAtFront(cfg: Config, db: Db, i: Id)
    requires Sound(cfg, db) && i in db.outbox && !db.outbox[i].status.Failed? && !Processed(ShapeOf(db), i)
    ensures db.outbox[i].event.etype.OrderCreated? ==>
              !Emitted(db, db.outbox[i].event.order, InventoryReserved)
              && !Emitted(db, db.outbox[i].event.order, InventoryReleased)
    ensures db.outbox[i].event.etype.PaymentFailed? ==>
              Emitted(db, db.outbox[i].event.order, InventoryReserved)
              && !Emitted(db, db.outbox[i].event.order, InventoryReleased)
  {
    var s, event := ShapeOf(db), db.outbox[i].event;
    forall j | j in db.outbox && db.outbox[j].event.order == event.order
      ensures Stage(db.outbox[j].event.etype) != Stage(event.etype) + 1
    {
      NextStageEmpty(s, i, j);
    }
    forall j | j in db.outbox && Stage(db.outbox[j].event.etype) >= 2 && db.outbox[j].event.order == event.order
      ensures Emitted(db, event.order, InventoryReserved)
    {
      ReservedBefore(s, Routed(cfg), j);
    }
  }

  /** A reservation starts a holding, a release ends it, nothing else touches it. */
  lemma LinkMovesHolding(cfg: Config, a: Db, b: Db, i: Id, ch: Choice, o: Id, s: Sku)
    requires Sound(cfg, a) && i in a.outbox && a.outbox[i].event.order in a.orders && LinkAdded(a, b, i, ch)
    requires o in a.orders && !a.outbox[i].status.Failed?
    ensures o in b.orders
    ensures var emitted, demand := b.outbox[ch.eventId].event.etype, UnitsOrdered(a.orders[o].lines, s);
            HeldBy(b, o, s) == HeldBy(a, o, s) +
            if o != a.outbox[i].event.order then 0
            else if emitted.InventoryReserved? then demand
            else if emitted.InventoryReleased? then -demand
            else 0
  {
    hide PayloadOk, Grown, StockMoved, OnlyCitedAdded, Emitted;
    LinkEmits(cfg, a, b, i, ch, o, InventoryReserved);
    LinkEmits(cfg, a, b, i, ch, o, InventoryReleased);
    HoldingAtFront(cfg, a, i);
  }

  lemma LinkMovesStock(cfg: Config, a: Db, b: Db, i: Id, ch: Choice, s: Sku)
    requires Sound(cfg, a) && i in a.outbox && a.outbox[i].event.order in a.orders && !a.outbox[i].status.Failed?
    requires LinkAdded(a, b, i, ch) && s in a.inventory
    ensures s in b.inventory && Stock(b, s) == Stock(a, s)
  {
    hide PayloadOk, Extended, OnlyCitedAdded, HeldBy, Sound;
    var order := a.outbox[i].event.order;
    forall o | o in a.orders ensures o != order ==> HeldBy(b, o, s) == HeldBy(a, o, s) {
      LinkMovesHolding(cfg, a, b, i, ch, o, s);
    }
    LinkMovesHolding(cfg, a, b, i, ch, order, s);
    UnitsMoved(a.inventory, a.orders[order].lines);
    assert Holdings(b, s) == Holdings(a, s)[order := HeldBy(b, order, s)];
    TotalUpdate(Holdings(a, s), order, HeldBy(b, order, s));
  }

  lemma CreationMovesStock(a: Db, order: Id, items: seq<Item>, correlation: Id, ch: Choice, s: Sku)
    requires Linked(ShapeOf(a)) && order !in a.orders && FreshIds(a, ch)
    requires AllStocked(a.inventory, items) && s in a.inventory
    ensures Stock(Created(a, order, items, correlation, ch), s) == Stock(a, s)
  {
    hide Demand, Emitted, Linked;
    var b := Created(a, order, items, correlation, ch);
    forall o | o in a.orders ensures HeldBy(b, o, s) == HeldBy(a, o, s) {
      CreationEmits(a, order, items, correlation, ch, o, InventoryReserved);
      CreationEmits(a, order, items, correlation, ch, o, InventoryReleased);
    }
    CreationEmits(a, order, items, correlation, ch, order, InventoryReserved);
    OrderHasNoEvents(a, order, InventoryReserved);
    assert Holdings(b, s) == Holdings(a, s)[order := 0];
    TotalUpdate(Holdings(a, s), order, 0);
  }

  lemma CreationEmits(a: Db, order: Id, items: seq<Item>, correlation: Id, ch: Choice, o: Id, t: EventType)
    requires AllStocked(a.inventory, items) && ch.eventId !in a.outbox && !t.OrderCreated?
    ensures Emitted(Created(a, order, items, correlation, ch), o, t) <==> Emitted(a, o, t)
  {
    hide Priced;
    EmittedSame(a, Created(a, order, items, correlation, ch), o, t);
  }

  lemma OrderHasNoEvents(a: Db, order: Id, t: EventType)
    requires Linked(ShapeOf(a)) && order !in a.orders
    ensures !Emitted(a, order, t)
  {
    forall i | i in a.outbox ensures a.outbox[i].event.order != order {
      assert LinkedRow(ShapeOf(a), a.outbox[i].event);
    }
  }

  /** Steps that leave orders and events alone leave holdings alone. */
  lemma SameOrdersSameHoldings(a: Db, b: Db, s: Sku)
    requires a.orders.Keys == b.orders.Keys && a.outbox == b.outbox
    requires forall o | o in a.orders :: b.orders[o].lines == a.orders[o].lines
    ensures Holdings(b, s) == Holdings(a, s)
  {
    forall o | o in a.orders ensures HeldBy(b, o, s) == HeldBy(a, o, s) {
      EmittedSame(a, b, o, InventoryReserved);
      EmittedSame(a, b, o, InventoryReleased);
    }
  }

  lemma HandledMovesStock(cfg: Config, db: Db, i: Id, forced: bool, ch: Choice, s: Sku)
    requires Sound(cfg, db) && Enabled(cfg, db, EventHandled(i, forced, ch)) && s in db.inventory
    ensures var after := Next(cfg, db, EventHandled(i, forced, ch));
            s in after.inventory && Stock(after, s) == Stock(db, s)
  {
    hide Handle, LinkAdded, Runnable, Sound, Stock;
    var after := Next(cfg, db, EventHandled(i, forced, ch));
    HandledCases(cfg, db, i, forced, ch);
    if !Processed(ShapeOf(db), i) {
      if Ends(db.outbox[i].event.etype) {
        FinishKeepsStock(cfg, db, i, forced, ch, s);
      } else {
        LinkMovesStock(cfg, db, after, i, ch, s);
      }
    }
  }

  lemma FinishKeepsStock(cfg: Config, a: Db, i: Id, forced: bool, ch: Choice, s: Sku)
    requires Runnable(cfg, a, i, forced, ch) && Ends(a.outbox[i].event.etype) && s in a.inventory
    ensures var b := HandledDb(a, Delivered(a, i, forced), ch);
            s in b.inventory && Stock(b, s) == Stock(a, s)
  {
    hide Handle;
    HandlerFinishes(cfg, a, i, forced, ch);
    SameOrdersSameHoldings(a, HandledDb(a, Delivered(a, i, forced), ch), s);
  }

  lemma FailureKeepsStock(cfg: Config, db: Db, i: Id, ch: Choice, s: Sku)
    requires Sound(cfg, db) && Enabled(cfg, db, DeliveryFailed(i, ch)) && s in db.inventory
    ensures var after := Next(cfg, db, DeliveryFailed(i, ch));
            s in after.inventory && Stock(after, s) == Stock(db, s)
  {
    hide Handle, AfterFailure;
    FailureIsClean(cfg, db, i, ch);
    BookkeepingShape(cfg, db, i, ch);
    ProgressKeepsHoldings(db, AfterFailure(cfg, db, i, ch), i, s);
  }

  lemma ReplayKeepsStock(cfg: Config, db: Db, d: Id, ch: Choice, s: Sku)
    requires Sound(cfg, db) && Enabled(cfg, db, LetterReplayed(d, ch)) && s in db.inventory
    ensures Stock(WithReplay(db, d, ch.now, ch.eventId), s) == Stock(db, s)
  {
    var after := WithReplay(db, d, ch.now, ch.eventId);
    assert db.outbox[db.deadLetters[d].eventId].event == after.outbox[ch.eventId].event;
    ProgressKeepsHoldings(db, after, ch.eventId, s);
  }

  /** Every step conserves every SKU. */
  lemma StepConservesStock(cfg: Config, db: Db, step: Step, s: Sku)
    requires Sound(cfg, db) && Enabled(cfg, db, step) && s in db.inventory
    ensures var after := Next(cfg, db, step); s in after.inventory && Stock(after, s) == Stock(db, s)
  {
    hide Handle, AfterFailure, Stock, Sound;
    match step {
      case StockAdded(sku, item) => StockAddedElsewhere(db, sku, item, s);
      case OrderPlaced(order, items, correlation, use, ch) =>
        PlacementKeepsStock(cfg, db, order, items, correlation, use, ch, s);
      case ResponseStored(_, _, _) => KeysKeepStock(db, Next(cfg, db, step).keys, s);
      case EventHandled(i, forced, ch) => HandledMovesStock(cfg, db, i, forced, ch, s);
      case EventPublished(i) => PublishKeepsStock(db, i, s);
      case DeliveryFailed(i, ch) => FailureKeepsStock(cfg, db, i, ch, s);
      case LetterReplayed(d, ch) => ReplayKeepsStock(cfg, db, d, ch, s);
    }
  }

  lemma StockAddedElsewhere(db: Db, sku: Sku, item: StockItem, s: Sku)
    requires s in db.inventory && sku !in db.inventory
    ensures Stock(db.(inventory := db.inventory[sku := item]), s) == Stock(db, s)
  {
    SameOrdersSameHoldings(db, db.(inventory := db.inventory[sku := item]), s);
  }

  lemma KeysKeepStock(db: Db, keys: map<string, KeyRow>, s: Sku)
    requires s in db.inventory
    ensures Stock(db.(keys := keys), s) == Stock(db, s)
  {
    SameOrdersSameHoldings(db, db.(keys := keys), s);
  }

  lemma PublishKeepsStock(db: Db, i: Id, s: Sku)
    requires i in db.outbox && s in db.inventory
    ensures Stock(WithPublished(db, i), s) == Stock(db, s)
  {
    ProgressKeepsHoldings(db, WithPublished(db, i), i, s);
  }

  lemma PlacementKeepsStock(cfg: Config, db: Db, order: Id, items: seq<Item>, correlation: Id, use: Option<KeyUse>,
                            ch: Choice, s: Sku)
    requires Sound(cfg, db) && Enabled(cfg, db, OrderPlaced(order, items, correlation, use, ch)) && s in db.inventory
    ensures Stock(Next(cfg, db, OrderPlaced(order, items, correlation, use, ch)), s) == Stock(db, s)
  {
    hide Stock;
    var start := if use.Some? then WithKey(db, use.value.key, use.value.hash, ch.now) else db;
    KeysKeepStock(db, start.keys, s);
    assert start == db.(keys := start.keys);
    CreationMovesStock(start, order, items, correlation, ch, s);
  }

  /** Over whole runs, from any sound state: available plus held is constant for every SKU there was. */
  lemma {:induction false} StockConserved(cfg: Config, db: Db, run: seq<Step>, s: Sku)
    requires Sound(cfg, db) && Valid(cfg, db, run) && s in db.inventory
    ensures s in After(cfg, db, run).inventory && Stock(After(cfg, db, run), s) == Stock(db, s)
    decreases |run|
  {
    hide Stock, Sound, Enabled, Next;
    if run != [] {
      var front := run[..|run| - 1];
      StockConserved(cfg, db, front, s);
      ReachableIsSound(cfg, db, front);
      StepConservesStock(cfg, After(cfg, db, front), run[|run| - 1], s);
    }
  }

  /** Before the first order nothing is held, so the law is about the stock the shop began with. */
  lemma NothingHeldInitially(db: Db, s: Sku)
    requires Initial(db) && s in db.inventory
    ensures Stock(db, s) == db.inventory[s].available
  {
  }
}
