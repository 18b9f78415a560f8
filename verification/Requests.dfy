/** What a request asked for is what the order stores, what its events trace and what is charged for it. */
module Requests {
  import opened Tables
  import opened Lines
  import opened Inbox
  import opened Dispatcher
  import opened Orders
  import opened Saga
  import opened Chain
  import opened Business
  import opened Soundness
  import opened Guarantees

  // ----- prices -----

  /** No SKU goes away and no price changes. */
  predicate PricesStay(a: Inventory, b: Inventory) {
    forall s | s in a :: s in b && b[s].unitPrice == a[s].unitPrice
  }

  lemma LinkKeepsPrices(a: Db, b: Db, i: Id, ch: Choice)
    requires i in a.outbox && a.outbox[i].event.order in a.orders && LinkAdded(a, b, i, ch)
    ensures PricesStay(a.inventory, b.inventory)
  {
    hide PayloadOk, Extended, OnlyCitedAdded, Grown;
    UnitsMoved(a.inventory, a.orders[a.outbox[i].event.order].lines);
  }

  lemma StepKeepsPrices(cfg: Config, db: Db, step: Step)
    requires Sound(cfg, db) && Enabled(cfg, db, step)
    ensures PricesStay(db.inventory, Next(cfg, db, step).inventory)
  {
    hide Handle, AfterFailure, LinkAdded, Runnable, Sound;
    match step {
      case EventHandled(i, forced, ch) =>
        HandledCases(cfg, db, i, forced, ch);
        if !Processed(ShapeOf(db), i) {
          if Ends(db.outbox[i].event.etype) {
            HandlerFinishes(cfg, db, i, forced, ch);
          } else {
            LinkKeepsPrices(db, Next(cfg, db, step), i, ch);
          }
        }
      case DeliveryFailed(i, ch) =>
        FailureIsClean(cfg, db, i, ch);
        FailureWrites(cfg, db, i, ch);
      case _ =>
    }
  }

  // ----- lines -----

  /** Line k has the SKU and the quantity of item k, at the price the inventory has for it. */
  predicate AsRequested(inv: Inventory, items: seq<Item>, lines: seq<Line>) {
    && |lines| == |items|
    && forall k | 0 <= k < |items| ::
         && items[k].sku in inv && lines[k].sku == items[k].sku && lines[k].quantity == items[k].quantity
         && lines[k].unitPrice == inv[items[k].sku].unitPrice
  }

  predicate Stored(db: Db, step: Step)
    requires step.OrderPlaced?
  {
    step.order in db.orders && AsRequested(db.inventory, step.items, db.orders[step.order].lines)
  }

  lemma PlacingStores(cfg: Config, db: Db, step: Step)
    requires step.OrderPlaced? && Enabled(cfg, db, step)
    ensures Stored(Next(cfg, db, step), step)
  {
    hide ValidRequest;
  }

  lemma StoredStays(cfg: Config, db: Db, placed: Step, step: Step)
    requires Sound(cfg, db) && Enabled(cfg, db, step) && placed.OrderPlaced? && Stored(db, placed)
    ensures Stored(Next(cfg, db, step), placed)
  {
    hide Sound, Enabled, Next;
    StepKeeps(cfg, db, step);
    StepKeepsPrices(cfg, db, step);
  }

  /** In every run, at any time after its placement, an order's lines are the items of its request, at the prices
      the inventory still has. */
  lemma {:induction false} LinesAsRequested(cfg: Config, db: Db, run: seq<Step>, n: nat)
    requires Sound(cfg, db) && Valid(cfg, db, run) && n < |run| && run[n].OrderPlaced?
    ensures Stored(After(cfg, db, run), run[n])
    decreases |run|
  {
    hide Sound, Enabled, Next, Stored;
    var front, last := run[..|run| - 1], |run| - 1;
    ReachableIsSound(cfg, db, front);
    if n == last {
      PlacingStores(cfg, After(cfg, db, front), run[n]);
    } else {
      LinesAsRequested(cfg, db, front, n);
      StoredStays(cfg, After(cfg, db, front), run[n], run[last]);
    }
  }

  // ----- what is charged -----

  /** Item quantity times inventory price, over the request. */
  function RequestTotal(inv: Inventory, items: seq<Item>): int
    requires AllStocked(inv, items)
  {
    if items == [] then 0
    else
      var n := |items| - 1;
      RequestTotal(inv, items[..n]) + items[n].quantity * inv[items[n].sku].unitPrice
  }

  lemma {:induction false} TotalAsRequested(inv: Inventory, items: seq<Item>, lines: seq<Line>)
    requires AsRequested(inv, items, lines)
    ensures AllStocked(inv, items) && OrderTotal(lines) == RequestTotal(inv, items)
  {
    if items != [] {
      var n := |items| - 1;
      TotalAsRequested(inv, items[..n], lines[..n]);
      assert items == items[..n] + [items[n]];
    }
  }

  /** The step placed the order, and the amount is what its items cost. */
  predicate Costs(db: Db, step: Step, order: Id, amount: int) {
    && step.OrderPlaced? && step.order == order
    && AllStocked(db.inventory, step.items) && amount == RequestTotal(db.inventory, step.items)
  }

  ghost predicate Charged(db: Db, run: seq<Step>, order: Id, amount: int) {
    exists step :: step in run && Costs(db, step, order, amount)
  }

  /** Orders come from requests only. */
  lemma {:induction false} PlacedBy(cfg: Config, db: Db, run: seq<Step>, o: Id) returns (n: nat)
    requires Initial(db) && Valid(cfg, db, run) && o in After(cfg, db, run).orders
    ensures n < |run| && run[n].OrderPlaced? && run[n].order == o
    decreases |run|
  {
    hide Sound, Enabled, Next;
    assert run != [];
    var front, last := run[..|run| - 1], |run| - 1;
    if o in After(cfg, db, front).orders {
      n := PlacedBy(cfg, db, front, o);
    } else {
      InitialIsSound(cfg, db);
      ReachableIsSound(cfg, db, front);
      NewOrderIsPlaced(cfg, After(cfg, db, front), run[last], o);
      n := last;
    }
  }

  lemma NewOrderIsPlaced(cfg: Config, db: Db, step: Step, o: Id)
    requires Sound(cfg, db) && Enabled(cfg, db, step) && o !in db.orders && o in Next(cfg, db, step).orders
    ensures step.OrderPlaced? && step.order == o
  {
    hide Handle, AfterFailure, Runnable, Sound, ValidRequest, Priced;
    match step {
      case EventHandled(i, forced, ch) =>
        HandledCases(cfg, db, i, forced, ch);
        if !Processed(ShapeOf(db), i) && Ends(db.outbox[i].event.etype) {
          HandlerFinishes(cfg, db, i, forced, ch);
        }
      case DeliveryFailed(i, ch) =>
        FailureIsClean(cfg, db, i, ch);
        FailureWrites(cfg, db, i, ch);
      case _ =>
    }
  }

  lemma OrderIsCharged(cfg: Config, db: Db, run: seq<Step>, o: Id)
    requires Initial(db) && Valid(cfg, db, run) && o in After(cfg, db, run).orders
    ensures Charged(After(cfg, db, run), run, o, OrderTotal(After(cfg, db, run).orders[o].lines))
  {
    hide Sound, Valid, After;
    InitialIsSound(cfg, db);
    var n := PlacedBy(cfg, db, run, o);
    LinesAsRequested(cfg, db, run, n);
    var after := After(cfg, db, run);
    TotalAsRequested(after.inventory, run[n].items, after.orders[o].lines);
    assert run[n] in run && Costs(after, run[n], o, OrderTotal(after.orders[o].lines));
  }

  /** In every run from an empty system, whatever is paid, invoiced or notified is the sum of item quantity times
      inventory price over the request that placed the order. */
  lemma ChargedAsRequested(cfg: Config, db: Db, run: seq<Step>)
    requires Initial(db) && Valid(cfg, db, run)
    ensures var after := After(cfg, db, run);
            && (forall p | p in after.payments ::
                  Charged(after, run, after.payments[p].order, after.payments[p].amount))
            && (forall v | v in after.invoices ::
                  Charged(after, run, after.invoices[v].order, after.invoices[v].amount))
            && (forall n | n in after.notifications ::
                  && after.notifications[n].amount.Some?
                  && Charged(after, run, after.notifications[n].order, after.notifications[n].amount.value))
  {
    hide Sound, Valid, After, Charged;
    InitialIsSound(cfg, db);
    ReachableIsSound(cfg, db, run);
    var after := After(cfg, db, run);
    AmountsCarried(cfg, after);
    forall o | o in after.orders ensures Charged(after, run, o, OrderTotal(after.orders[o].lines)) {
      OrderIsCharged(cfg, db, run, o);
    }
  }

  // ----- correlation -----

  ghost predicate Traces(db: Db, o: Id, correlation: Id) {
    forall i | i in db.outbox && db.outbox[i].event.order == o :: db.outbox[i].event.correlation == correlation
  }

  /** Every event of an order, replays included, carries the correlation id its request was given. */
  lemma {:induction false} CorrelationOfRequest(cfg: Config, db: Db, run: seq<Step>, n: nat)
    requires Sound(cfg, db) && Valid(cfg, db, run) && n < |run| && run[n].OrderPlaced?
    ensures exists i :: i in After(cfg, db, run).outbox && After(cfg, db, run).outbox[i].event.order == run[n].order
    ensures Traces(After(cfg, db, run), run[n].order, run[n].correlation)
    decreases |run|
  {
    hide Sound, Enabled, Next;
    var front, last := run[..|run| - 1], |run| - 1;
    ReachableIsSound(cfg, db, front);
    ReachableIsSound(cfg, db, run);
    if n == last {
      PlacingTraces(cfg, After(cfg, db, front), run[n]);
    } else {
      CorrelationOfRequest(cfg, db, front, n);
      StepKeeps(cfg, After(cfg, db, front), run[last]);
      SameCorrelation(cfg, After(cfg, db, front), After(cfg, db, run), run[n].order, run[n].correlation);
    }
  }

  lemma PlacingTraces(cfg: Config, db: Db, step: Step)
    requires Sound(cfg, db) && step.OrderPlaced? && Enabled(cfg, db, step)
    ensures var after := Next(cfg, db, step);
            && step.ch.eventId in after.outbox && after.outbox[step.ch.eventId].event.order == step.order
            && Traces(after, step.order, step.correlation)
  {
    hide ValidRequest, Priced, Linear, OneLive, HasLive, Statuses, Letters, HandedOn, Payloads, RecordsCited, Projected;
    forall i | i in db.outbox ensures db.outbox[i].event.order in db.orders {
      assert LinkedRow(ShapeOf(db), db.outbox[i].event);
    }
  }

  lemma SameCorrelation(cfg: Config, a: Db, b: Db, o: Id, correlation: Id)
    requires Sound(cfg, b) && Keeps(a, b) && Traces(a, o, correlation)
    requires exists i :: i in a.outbox && a.outbox[i].event.order == o
    ensures exists i :: i in b.outbox && b.outbox[i].event.order == o
    ensures Traces(b, o, correlation)
  {
    hide Linked, Linear, OneLive, HasLive, Statuses, Letters, HandedOn, Payloads, RecordsCited, Projected, Grown;
    var i :| i in a.outbox && a.outbox[i].event.order == o;
    assert i in b.outbox && b.outbox[i].event == a.outbox[i].event;
  }
}
