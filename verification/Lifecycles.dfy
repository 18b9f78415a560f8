/** Where an order can get to: both ends of its path are reached, and what stock it leaves behind. */
module Lifecycles {
  import opened Tables
  import opened Lines
  import opened Inbox
  import opened Dispatcher
  import opened Orders
  import opened Saga
  import opened Chain
  import opened Business
  import opened Soundness
  import opened Guarantees
  import opened Deliveries
  import opened Boundaries
  import opened Branches
  import opened Requests

  /** A live row nobody has handled, of a type the dispatcher routes. */
  predicate Awaiting(cfg: Config, db: Db, i: Id) {
    && i in db.outbox && db.outbox[i].status.Pending? && !Processed(ShapeOf(db), i)
    && db.outbox[i].event.etype in Routed(cfg) && !db.outbox[i].event.etype.InventoryReservationFailed?
  }

  /** What the chain carries is never refused. */
  lemma SoundIsNotRefused(cfg: Config, db: Db, i: Id, forced: bool)
    requires Sound(cfg, db) && i in db.outbox && !db.outbox[i].event.etype.InventoryReservationFailed?
    ensures !Refused(db, Delivered(db, i, forced).event)
  {
    hide Chained, RecordsCited, Projected, OrderTotal;
    assert PayloadOk(db, db.outbox[i].event);
  }

  lemma CallReturns(cfg: Config, db: Db, i: Id, forced: bool, ch: Choice)
    requires Sound(cfg, db) && Awaiting(cfg, db, i) && FreshIds(db, ch) && !ch.fault
    ensures Enabled(cfg, db, EventHandled(i, forced, ch))
  {
    hide Sound, Body;
    RefusedIff(db, Delivered(db, i, forced), ch);
    SoundIsNotRefused(cfg, db, i, forced);
  }

  /** One call on the row: the next row waits in its place. */
  lemma CallHandsOn(cfg: Config, a: Db, i: Id, forced: bool) returns (b: Db, ch: Choice)
    requires Sound(cfg, a) && Awaiting(cfg, a, i) && !Ends(a.outbox[i].event.etype)
    ensures FreshIds(a, ch) && Enabled(cfg, a, EventHandled(i, forced, ch))
    ensures b == Next(cfg, a, EventHandled(i, forced, ch)) && Sound(cfg, b) && Reaches(cfg, a, b)
    ensures a.outbox[i].event.order in a.orders && LinkAdded(a, b, i, ch) && !Processed(ShapeOf(b), ch.eventId)
    ensures b.outbox[ch.eventId].event.order == a.outbox[i].event.order && b.outbox[ch.eventId].status.Pending?
    ensures Follows(b.outbox[ch.eventId].event.etype, a.outbox[i].event.etype) && b.orders == a.orders
  {
    hide Sound, Handle, Next, Enabled, LinkAdded, Runnable, Reaches;
    var env := QuietEnvironment(a);
    assert FreshIds(a, At(env, 0)) && !At(env, 0).fault;
    ch := At(env, 0);
    CallReturns(cfg, a, i, forced, ch);
    b := Next(cfg, a, EventHandled(i, forced, ch));
    StepKeepsSound(cfg, a, EventHandled(i, forced, ch));
    ReachesStep(cfg, a, EventHandled(i, forced, ch));
    HandledCases(cfg, a, i, forced, ch);
    NewRowWaits(cfg, a, b, i, ch);
  }

  lemma NewRowWaits(cfg: Config, a: Db, b: Db, i: Id, ch: Choice)
    requires Sound(cfg, a) && i in a.outbox && a.outbox[i].event.order in a.orders && LinkAdded(a, b, i, ch)
    requires ch.eventId !in a.outbox
    ensures !Processed(ShapeOf(b), ch.eventId) && b.outbox[ch.eventId].status.Pending? && b.orders == a.orders
    ensures b.outbox[ch.eventId].event.order == a.outbox[i].event.order
    ensures Follows(b.outbox[ch.eventId].event.etype, a.outbox[i].event.etype)
  {
    hide PayloadOk, Grown, StockMoved, OnlyCitedAdded, Payloads, RecordsCited, Projected, Linear, OneLive, HasLive;
  }

  /** How an order ends once its payment is settled, and the stock it leaves. */
  function EndOf(t: EventType): OrderStatus {
    if t.PaymentFailed? || t.InventoryReleased? then OrderCancelled else OrderCompleted
  }

  function StockAtEnd(inv: Inventory, t: EventType, lines: seq<Line>): Inventory {
    if t.PaymentFailed? then Put(inv, Raw(lines)) else inv
  }

  ghost predicate EndsAs(a: Db, b: Db, o: Id, t: EventType) {
    && o in a.orders && o in b.orders && b.orders[o] == Order(EndOf(t), a.orders[o].lines)
    && b.inventory == StockAtEnd(a.inventory, t, a.orders[o].lines)
  }

  /** From the settled payment on, each call brings the order one stage closer to its end. */
  lemma {:induction false} DriveToEnd(cfg: Config, a: Db, i: Id) returns (b: Db)
    requires Sound(cfg, a) && Awaiting(cfg, a, i) && Routed(cfg) == DEFAULT_HANDLERS
    requires Stage(a.outbox[i].event.etype) >= 2
    ensures Sound(cfg, b) && Reaches(cfg, a, b)
    ensures EndsAs(a, b, a.outbox[i].event.order, a.outbox[i].event.etype)
    decreases 4 - Stage(a.outbox[i].event.etype)
  {
    hide Sound, LinkAdded, Reaches, Put, Enabled, Next, FreshIds;
    var t, o := a.outbox[i].event.etype, a.outbox[i].event.order;
    if Ends(t) {
      b := FinalCall(cfg, a, i);
    } else {
      var mid, ch := CallHandsOn(cfg, a, i, false);
      LinkStock(a, mid, i, ch);
      b := DriveToEnd(cfg, mid, ch.eventId);
      ReachesTrans(cfg, a, mid, b);
    }
  }

  lemma LinkStock(a: Db, b: Db, i: Id, ch: Choice)
    requires i in a.outbox && a.outbox[i].event.order in a.orders && LinkAdded(a, b, i, ch)
    ensures ch.eventId in b.outbox
    ensures StockMoved(a, b, a.outbox[i].event, b.outbox[ch.eventId].event.etype)
  {
  }

  lemma FinalCall(cfg: Config, a: Db, i: Id) returns (b: Db)
    requires Sound(cfg, a) && Awaiting(cfg, a, i) && Ends(a.outbox[i].event.etype)
    ensures Sound(cfg, b) && Reaches(cfg, a, b)
    ensures EndsAs(a, b, a.outbox[i].event.order, a.outbox[i].event.etype)
  {
    hide Sound, Handle, Next, Enabled, LinkAdded, Reaches, HandledDb;
    var env := QuietEnvironment(a);
    assert FreshIds(a, At(env, 0)) && !At(env, 0).fault;
    var step := EventHandled(i, false, At(env, 0));
    CallReturns(cfg, a, i, false, At(env, 0));
    b := Next(cfg, a, step);
    StepKeepsSound(cfg, a, step);
    ReachesStep(cfg, a, step);
    HandledCases(cfg, a, i, false, At(env, 0));
    HandlerFinishes(cfg, a, i, false, At(env, 0));
    assert b == HandledDb(a, Delivered(a, i, false), At(env, 0)) by { CallIsHandling(cfg, a, i, At(env, 0)); }
  }

  lemma CallIsHandling(cfg: Config, a: Db, i: Id, ch: Choice)
    requires Enabled(cfg, a, EventHandled(i, false, ch))
    ensures Next(cfg, a, EventHandled(i, false, ch)) == HandledDb(a, Delivered(a, i, false), ch)
  {
    hide Handle;
  }

  // ----- from nothing -----

  /** Every line of the request alone fits the stock. */
  predicate FitsRequest(inv: Inventory, items: seq<Item>) {
    forall item | item in items :: item.sku in inv && item.quantity <= inv[item.sku].available
  }

  /** What is left of the stock: all of it if the order was cancelled, all but its items if it was completed. */
  ghost predicate Leaves(a: Db, b: Db, order: Id, forced: bool) {
    && order in b.orders && b.orders[order].status == (if forced then OrderCancelled else OrderCompleted)
    && b.inventory.Keys == a.inventory.Keys
    && forall s | s in a.inventory ::
         b.inventory[s] == a.inventory[s].(
           available := a.inventory[s].available - if forced then 0 else UnitsOrdered(b.orders[order].lines, s))
  }

  lemma PlaceOrder(cfg: Config, a: Db, order: Id, items: seq<Item>, correlation: Id) returns (b: Db, i: Id)
    requires Sound(cfg, a) && Initial(a) && ValidRequest(items) && FitsRequest(a.inventory, items)
    requires OrderCreated in Routed(cfg)
    ensures Sound(cfg, b) && Reaches(cfg, a, b) && Awaiting(cfg, b, i)
    ensures b.inventory == a.inventory && order in b.orders
    ensures b.outbox[i].event.etype.OrderCreated? && b.outbox[i].event.order == order
    ensures AsRequested(a.inventory, items, b.orders[order].lines)
  {
    hide Sound, Reaches;
    var ch := Choice(0, 0, 0, false);
    var step := OrderPlaced(order, items, correlation, None, ch);
    assert Enabled(cfg, a, step);
    b, i := Next(cfg, a, step), 0;
    StepKeepsSound(cfg, a, step);
    ReachesStep(cfg, a, step);
  }

  lemma RequestFits(inv: Inventory, items: seq<Item>, lines: seq<Line>)
    requires AsRequested(inv, items, lines) && FitsRequest(inv, items)
    ensures FitsLines(inv, lines)
  {
    forall line | line in lines ensures line.sku in inv && line.quantity <= inv[line.sku].available {
      var k :| 0 <= k < |lines| && lines[k] == line;
      assert items[k] in items;
    }
  }

  /** In an empty system with enough of every requested SKU, an order can be taken to the end of either branch: forced,
      it is CANCELLED and its stock is back; not forced, it is COMPLETED and its items are gone. */
  lemma BothEndsAreReached(cfg: Config, db: Db, order: Id, items: seq<Item>, correlation: Id, forced: bool)
    returns (b: Db)
    requires Initial(db) && ValidRequest(items) && FitsRequest(db.inventory, items)
    requires cfg.handlers == {} || cfg.handlers == DEFAULT_HANDLERS
    ensures Reaches(cfg, db, b) && Leaves(db, b, order, forced)
    ensures AsRequested(db.inventory, items, b.orders[order].lines)
  {
    hide Sound, Reaches, LinkAdded, Take, Put, FitsLines, Enabled, Next;
    InitialIsSound(cfg, db);
    var placed, c := PlaceOrder(cfg, db, order, items, correlation);
    var lines := placed.orders[order].lines;
    RequestFits(db.inventory, items, lines);
    var reserved, ch1 := CallHandsOn(cfg, placed, c, false);
    LinkStock(placed, reserved, c, ch1);
    var paid, ch2 := CallHandsOn(cfg, reserved, ch1.eventId, forced);
    LinkStock(reserved, paid, ch1.eventId, ch2);
    PaymentBranches(cfg, reserved, ch1.eventId, forced, ch2);
    b := DriveToEnd(cfg, paid, ch2.eventId);
    ReachesTrans(cfg, placed, reserved, paid);
    ReachesTrans(cfg, placed, paid, b);
    ReachesTrans(cfg, db, placed, b);
    UnitsMoved(db.inventory, lines);
    UnitsMoved(reserved.inventory, lines);
  }

  lemma PaymentBranches(cfg: Config, db: Db, i: Id, forced: bool, ch: Choice)
    requires Sound(cfg, db) && Awaiting(cfg, db, i) && Enabled(cfg, db, EventHandled(i, forced, ch))
    requires db.outbox[i].event.etype.InventoryReserved?
    ensures var after := Next(cfg, db, EventHandled(i, forced, ch));
            ch.eventId in after.outbox && after.outbox[ch.eventId].event.etype == Branch(forced)
  {
    hide Sound, Handle, HandledDb;
    PaymentDecides(cfg, db, i, forced, ch);
  }
}
