/** Causation: an order's events, each counted once however often it was replayed, lie on one of three saga paths. */
module Causation {
  import opened Tables
  import opened Dispatcher
  import opened Chain
  import opened Business
  import opened Conservation

  const COMPLETING: seq<EventType> :=
    [OrderCreated, InventoryReserved, PaymentAuthorized, InvoiceCreated, NotificationSent]
  const CANCELLING: seq<EventType> := [OrderCreated, InventoryReserved, PaymentFailed, InventoryReleased]
  const REJECTING: seq<EventType> := [OrderCreated, InventoryReservationFailed]

  ghost predicate LiesOn(db: Db, o: Id, path: seq<EventType>, n: nat) {
    && n <= |path|
    && (forall k | 0 <= k < |path| :: Emitted(db, o, path[k]) <==> k < n)
    && (forall t :: Emitted(db, o, t) ==> t in path)
  }

  /** The cause of a row is a processed row of the same order, correlation and chain, one stage back: causation has
      no cycle, and only an OrderCreated event is without a cause. */
  lemma CauseIsOneStageBack(cfg: Config, db: Db, i: Id)
    requires Sound(cfg, db) && i in db.outbox
    ensures var e := db.outbox[i].event;
            && (e.causation.None? <==> e.etype.OrderCreated?)
            && (e.causation.Some? ==>
                  var c := e.causation.value;
                  && c in db.outbox && c != i && Processed(ShapeOf(db), c) && !db.outbox[c].status.Failed?
                  && Stage(e.etype) == Stage(db.outbox[c].event.etype) + 1
                  && db.outbox[c].event.order == e.order && db.outbox[c].event.correlation == e.correlation)
  {
    assert LinkedRow(ShapeOf(db), db.outbox[i].event);
    if db.outbox[i].event.causation.Some? {
      FollowsIsNextStage(db.outbox[i].event.etype, db.outbox[db.outbox[i].event.causation.value].event.etype);
    }
  }

  /** Whoever was emitted has a predecessor that was emitted. */
  lemma EmittedBefore(cfg: Config, db: Db, o: Id, t: EventType) returns (before: EventType)
    requires Sound(cfg, db) && Emitted(db, o, t) && !t.OrderCreated?
    ensures Emitted(db, o, before) && Follows(t, before)
  {
    var i :| i in db.outbox && db.outbox[i].event.order == o && db.outbox[i].event.etype == t;
    assert LinkedRow(ShapeOf(db), db.outbox[i].event);
    before := db.outbox[db.outbox[i].event.causation.value].event.etype;
  }

  /** One type per stage. */
  lemma OneTypePerStage(cfg: Config, db: Db, o: Id, t: EventType, u: EventType)
    requires Sound(cfg, db) && Emitted(db, o, t) && Emitted(db, o, u) && Stage(t) == Stage(u)
    ensures t == u
  {
    var i :| i in db.outbox && db.outbox[i].event.order == o && db.outbox[i].event.etype == t;
    var j :| j in db.outbox && db.outbox[j].event.order == o && db.outbox[j].event.etype == u;
    assert SameStage(db.outbox[i].event, db.outbox[j].event);
  }

  ghost predicate DownClosed(db: Db, o: Id) {
    && (Emitted(db, o, InventoryReserved) ==>
          Emitted(db, o, OrderCreated) && !Emitted(db, o, InventoryReservationFailed))
    && (Emitted(db, o, InventoryReservationFailed) ==> Emitted(db, o, OrderCreated))
    && (Emitted(db, o, PaymentAuthorized) ==> Emitted(db, o, InventoryReserved) && !Emitted(db, o, PaymentFailed))
    && (Emitted(db, o, PaymentFailed) ==> Emitted(db, o, InventoryReserved))
    && (Emitted(db, o, InvoiceCreated) ==> Emitted(db, o, PaymentAuthorized))
    && (Emitted(db, o, NotificationSent) ==> Emitted(db, o, InvoiceCreated))
    && (Emitted(db, o, InventoryReleased) ==> Emitted(db, o, PaymentFailed))
  }

  lemma PathsAreDownClosed(cfg: Config, db: Db, o: Id)
    requires Sound(cfg, db)
    ensures DownClosed(db, o)
  {
    hide Sound, Emitted;
    forall t | Emitted(db, o, t) && !t.OrderCreated?
      ensures exists before :: Emitted(db, o, before) && Follows(t, before)
    {
      var before := EmittedBefore(cfg, db, o, t);
    }
    if Emitted(db, o, InventoryReserved) && Emitted(db, o, InventoryReservationFailed) {
      OneTypePerStage(cfg, db, o, InventoryReserved, InventoryReservationFailed);
    }
    if Emitted(db, o, PaymentAuthorized) && Emitted(db, o, PaymentFailed) {
      OneTypePerStage(cfg, db, o, PaymentAuthorized, PaymentFailed);
    }
  }

  lemma LiesOnCancelling(db: Db, o: Id, n: nat)
    requires DownClosed(db, o) && Emitted(db, o, PaymentFailed)
    requires n == if Emitted(db, o, InventoryReleased) then 4 else 3
    ensures LiesOn(db, o, CANCELLING, n)
  {
    hide Emitted;
    var path := CANCELLING;
    assert path[0] == OrderCreated && path[1] == InventoryReserved && path[2] == PaymentFailed
           && path[3] == InventoryReleased;
    forall t | Emitted(db, o, t) ensures t in path {
      assert t == path[0] || t == path[1] || t == path[2] || t == path[3];
    }
  }

  lemma LiesOnCompleting(db: Db, o: Id, n: nat)
    requires DownClosed(db, o) && !Emitted(db, o, InventoryReservationFailed) && !Emitted(db, o, PaymentFailed)
    requires n == if Emitted(db, o, NotificationSent) then 5
                  else if Emitted(db, o, InvoiceCreated) then 4
                  else if Emitted(db, o, PaymentAuthorized) then 3
                  else if Emitted(db, o, InventoryReserved) then 2
                  else if Emitted(db, o, OrderCreated) then 1 else 0
    ensures LiesOn(db, o, COMPLETING, n)
  {
    hide Emitted;
    var path := COMPLETING;
    assert path[0] == OrderCreated && path[1] == InventoryReserved && path[2] == PaymentAuthorized;
    assert path[3] == InvoiceCreated && path[4] == NotificationSent;
    forall t | Emitted(db, o, t) ensures t in path {
      assert t == path[0] || t == path[1] || t == path[2] || t == path[3] || t == path[4];
    }
  }

  /** The events of an order are exactly a prefix of one of the three paths. */
  lemma OnePathPerOrder(cfg: Config, db: Db, o: Id) returns (path: seq<EventType>, n: nat)
    requires Sound(cfg, db)
    ensures path == COMPLETING || path == CANCELLING || path == REJECTING
    ensures LiesOn(db, o, path, n)
  {
    PathsAreDownClosed(cfg, db, o);
    hide Sound, Emitted, LiesOn, DownClosed;
    if Emitted(db, o, InventoryReservationFailed) {
      path, n := REJECTING, 2;
    } else if Emitted(db, o, PaymentFailed) {
      path, n := CANCELLING, if Emitted(db, o, InventoryReleased) then 4 else 3;
      LiesOnCancelling(db, o, n);
    } else {
      path := COMPLETING;
      n := if Emitted(db, o, NotificationSent) then 5
           else if Emitted(db, o, InvoiceCreated) then 4
           else if Emitted(db, o, PaymentAuthorized) then 3
           else if Emitted(db, o, InventoryReserved) then 2
           else if Emitted(db, o, OrderCreated) then 1 else 0;
      LiesOnCompleting(db, o, n);
    }
  }
}
