/** Nothing lost, order by order: an order is pending exactly as long as one event of it is still to be handled. */
module Progress {
  import opened Tables
  import opened Inbox
  import opened Dispatcher
  import opened Orders
  import opened Saga
  import opened Chain
  import opened Business
  import opened Soundness
  import opened Guarantees
  import opened Conservation

  /** Every committed order has its OrderCreated event. */
  ghost predicate EveryOrderRooted(db: Db) {
    forall o | o in db.orders :: Emitted(db, o, OrderCreated)
  }

  /** Only placements add orders, each with its event. */
  lemma NewOrderIsRooted(cfg: Config, db: Db, step: Step, o: Id)
    requires Sound(cfg, db) && Enabled(cfg, db, step) && o in Next(cfg, db, step).orders && o !in db.orders
    ensures Emitted(Next(cfg, db, step), o, OrderCreated)
  {
    hide Handle, AfterFailure, Sound;
    match step {
      case OrderPlaced(order, items, correlation, _, ch) =>
        PlacementIsRooted(cfg, db, step);
      case EventHandled(i, forced, ch) =>
        HandlingAddsNoOrder(cfg, db, i, forced, ch);
      case DeliveryFailed(i, ch) =>
        FailureIsClean(cfg, db, i, ch);
        FailureWrites(cfg, db, i, ch);
      case _ =>
    }
  }

  lemma PlacementIsRooted(cfg: Config, db: Db, step: Step)
    requires step.OrderPlaced? && Enabled(cfg, db, step)
    ensures Next(cfg, db, step).orders.Keys == db.orders.Keys + {step.order}
    ensures Emitted(Next(cfg, db, step), step.order, OrderCreated)
  {
    hide Priced, ValidRequest;
    var after := Next(cfg, db, step);
    assert after.outbox[step.ch.eventId].event.order == step.order;
  }

  lemma HandlingAddsNoOrder(cfg: Config, db: Db, i: Id, forced: bool, ch: Choice)
    requires Sound(cfg, db) && Enabled(cfg, db, EventHandled(i, forced, ch))
    ensures Next(cfg, db, EventHandled(i, forced, ch)).orders.Keys == db.orders.Keys
  {
    hide Handle, Runnable, Sound, Finished;
    HandledCases(cfg, db, i, forced, ch);
    if !Processed(ShapeOf(db), i) && Ends(db.outbox[i].event.etype) {
      HandlerFinishes(cfg, db, i, forced, ch);
    }
  }

  /** Over runs: no order is ever without its event. */
  lemma {:induction false} OrdersStayRooted(cfg: Config, db: Db, run: seq<Step>)
    requires Sound(cfg, db) && EveryOrderRooted(db) && Valid(cfg, db, run)
    ensures EveryOrderRooted(After(cfg, db, run))
    decreases |run|
  {
    hide Sound, Enabled, Next;
    if run != [] {
      var front, step := run[..|run| - 1], run[|run| - 1];
      var before, after := After(cfg, db, front), After(cfg, db, run);
      OrdersStayRooted(cfg, db, front);
      ReachableIsSound(cfg, db, front);
      StepKeeps(cfg, before, step);
      forall o | o in after.orders ensures Emitted(after, o, OrderCreated) {
        if o !in before.orders {
          NewOrderIsRooted(cfg, before, step, o);
        }
      }
    }
  }

  // ----- what is still to be handled -----

  /** A pending row not yet handled, or an unreplayed dead letter, of the order. */
  predicate ToHandle(db: Db, o: Id, rep: Rep) {
    && Live(ShapeOf(db), rep) && Represented(ShapeOf(db), rep).order == o
    && (rep.RowRep? ==> !Processed(ShapeOf(db), rep.i))
  }

  lemma RowOfRep(cfg: Config, db: Db, rep: Rep) returns (i: Id)
    requires Sound(cfg, db) && Live(ShapeOf(db), rep)
    ensures i in db.outbox && db.outbox[i].event == Represented(ShapeOf(db), rep)
    ensures rep.RowRep? ==> i == rep.i
  {
    if rep.RowRep? {
      i := rep.i;
    } else {
      LiveHasRow(ShapeOf(db), rep);
      i :| i in db.outbox && db.outbox[i].event == Represented(ShapeOf(db), rep);
    }
  }

  /** A row handled at its stage is the representative itself. */
  lemma HandledThere(cfg: Config, db: Db, rep: Rep, a: Id)
    requires Sound(cfg, db) && Live(ShapeOf(db), rep) && Processed(ShapeOf(db), a)
    requires SameStage(db.outbox[a].event, Represented(ShapeOf(db), rep))
    ensures rep == RowRep(a)
  {
    assert Live(ShapeOf(db), RowRep(a));
  }

  lemma AtMostOneToHandle(cfg: Config, db: Db, o: Id, r: Rep, s: Rep)
    requires Sound(cfg, db) && ToHandle(db, o, r) && ToHandle(db, o, s)
    requires Stage(Represented(ShapeOf(db), r).etype) <= Stage(Represented(ShapeOf(db), s).etype)
    ensures r == s
  {
    var i := RowOfRep(cfg, db, s);
    var a := Ancestor(ShapeOf(db), Routed(cfg), i, Stage(Represented(ShapeOf(db), r).etype));
    if Processed(ShapeOf(db), a) {
      HandledThere(cfg, db, r, a);
    }
  }

  /** From any event of a pending order the chain leads to something still to be handled. */
  lemma {:induction false} SomethingToHandle(cfg: Config, db: Db, i: Id) returns (rep: Rep)
    requires Sound(cfg, db) && i in db.outbox
    requires db.outbox[i].event.order in db.orders && db.orders[db.outbox[i].event.order].status.OrderPending?
    ensures ToHandle(db, db.outbox[i].event.order, rep)
    decreases 4 - Stage(db.outbox[i].event.etype)
  {
    assert HasRep(ShapeOf(db), db.outbox[i].event);
    rep :| LiveFor(ShapeOf(db), rep, db.outbox[i].event);
    if rep.RowRep? && Processed(ShapeOf(db), rep.i) {
      var r := rep.i;
      if Ends(db.outbox[r].event.etype) {
        EndedOrder(cfg, db, r);
      } else {
        var j := NextOf(cfg, db, r);
        rep := SomethingToHandle(cfg, db, j);
      }
    }
  }

  /** A finished order has nothing left to handle. */
  lemma NothingLeft(cfg: Config, db: Db, o: Id, rep: Rep)
    requires Sound(cfg, db) && o in db.orders && ToHandle(db, o, rep)
    ensures db.orders[o].status.OrderPending?
  {
    var i := RowOfRep(cfg, db, rep);
    var stage := Stage(db.outbox[i].event.etype);
    if !db.orders[o].status.OrderPending? {
      var j := LastRow(cfg, db, o);
      if stage <= Stage(db.outbox[j].event.etype) {
        var a := Ancestor(ShapeOf(db), Routed(cfg), j, stage);
        HandledThere(cfg, db, rep, a);
      } else {
        BranchesExclude(ShapeOf(db), Routed(cfg), i, j);
      }
    }
  }

  lemma LastRow(cfg: Config, db: Db, o: Id) returns (j: Id)
    requires Sound(cfg, db) && o in db.orders && !db.orders[o].status.OrderPending?
    ensures Processed(ShapeOf(db), j) && db.outbox[j].event.order == o && Ends(db.outbox[j].event.etype)
  {
    var t := if db.orders[o].status.OrderCompleted? then NotificationSent else InventoryReleased;
    assert Reached(db, o, t);
    j :| Processed(ShapeOf(db), j) && db.outbox[j].event.order == o && db.outbox[j].event.etype == t;
  }

  /** Nothing is lost and nothing doubled, order by order: an order is PENDING if and only if exactly one pending row
      or unreplayed dead letter of it is still to be handled. */
  lemma PendingIffOneToHandle(cfg: Config, db: Db, o: Id)
    requires Sound(cfg, db) && EveryOrderRooted(db) && o in db.orders
    ensures db.orders[o].status.OrderPending? <==>
            exists rep :: ToHandle(db, o, rep) && forall other | ToHandle(db, o, other) :: other == rep
  {
    hide Sound, ToHandle;
    if db.orders[o].status.OrderPending? {
      assert Emitted(db, o, OrderCreated);
      var i :| i in db.outbox && db.outbox[i].event.order == o && db.outbox[i].event.etype.OrderCreated?;
      var rep := SomethingToHandle(cfg, db, i);
      forall other | ToHandle(db, o, other) ensures other == rep {
        OneToHandle(cfg, db, o, rep, other);
      }
    }
    if rep :| ToHandle(db, o, rep) {
      NothingLeft(cfg, db, o, rep);
    }
  }

  lemma OneToHandle(cfg: Config, db: Db, o: Id, r: Rep, s: Rep)
    requires Sound(cfg, db) && ToHandle(db, o, r) && ToHandle(db, o, s)
    ensures r == s
  {
    hide Sound;
    if Stage(Represented(ShapeOf(db), r).etype) <= Stage(Represented(ShapeOf(db), s).etype) {
      AtMostOneToHandle(cfg, db, o, r, s);
    } else {
      AtMostOneToHandle(cfg, db, o, s, r);
    }
  }

  /** From an empty system this holds in every state of every run. */
  lemma NothingLost(cfg: Config, db: Db, run: seq<Step>, o: Id)
    requires Initial(db) && Valid(cfg, db, run) && o in After(cfg, db, run).orders
    ensures var after := After(cfg, db, run);
            && Emitted(after, o, OrderCreated)
            && (after.orders[o].status.OrderPending? <==>
                exists rep :: ToHandle(after, o, rep) && forall other | ToHandle(after, o, other) :: other == rep)
  {
    hide Sound, Valid, After, ToHandle;
    InitialIsSound(cfg, db);
    ReachableIsSound(cfg, db, run);
    OrdersStayRooted(cfg, db, run);
    PendingIffOneToHandle(cfg, After(cfg, db, run), o);
  }
}
