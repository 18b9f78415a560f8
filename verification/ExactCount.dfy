/** How many events dispatch_until_idle reports: five for every order that finds its stock. */
module ExactCount {
  import opened Tables
  import opened Sums
  import opened EventsRepository
  import opened Inbox
  import opened Dispatcher
  import opened Saga
  import opened Chain
  import opened Business
  import opened Guarantees
  import opened Conservation
  import opened RetryLedger
  import opened Deliveries
  import opened Termination
  import opened Allocator
  import opened AllocatorRuns

  /** Deliveries an undisturbed run owes for a row and for what follows it. */
  function Owed(row: Row, processed: bool): int {
    if !row.status.Pending? then 0 else if processed then 1 else Weight(row.event.etype)
  }

  ghost function OwedRows(db: Db): map<Id, int> {
    map i | i in db.outbox :: Owed(db.outbox[i], Processed(ShapeOf(db), i))
  }

  ghost function Load(db: Db): int {
    Total(OwedRows(db))
  }

  /** Every waiting order finds its stock when its turn comes, no earlier rejection is still being retried, and
      nothing is backing off. */
  ghost predicate AllAccepted(start: Db, first: int) {
    var q := Queue(start);
    && (forall n | 0 <= n < |q| && MovesOf(start, q)[n].Reservation? ::
          GreedyAccepts(start.inventory, MovesOf(start, q), n))
    && (forall i | i in start.outbox && start.outbox[i].status.Pending? ::
          !Rejection(start.outbox[i]) && Ready(start.outbox[i], first))
  }

  /** A rejection the run has emitted has a waiting order behind it, and the reference rejected that order. */
  lemma RejectedByReference(cfg: Config, start: Db, db: Db, q: seq<Id>, k: nat, first: int, i: Id) returns (n: nat)
    requires q == Queue(start) && Along(cfg, start, db, q, k, first)
    requires i in db.outbox && i !in start.outbox && Rejection(db.outbox[i])
    ensures n < |q| && MovesOf(start, q)[n].Reservation? && !GreedyAccepts(start.inventory, MovesOf(start, q), n)
  {
    hide Ledger, GreedyAccepts, Settled, Sound;
    assert CalmNew(start, db.outbox[i]);
    var c := db.outbox[i].event.causation.value;
    CauseOfRejection(cfg, db, i, c);
    assert c in start.outbox && Queued(start, c);
    assert c in q;
    n :| 0 <= n < |q| && q[n] == c;
    assert Emitted(db, start.outbox[q[n]].event.order, InventoryReservationFailed);
    assert VerdictShown(start, db, q, n);
  }

  lemma CauseOfRejection(cfg: Config, db: Db, i: Id, c: Id)
    requires Sound(cfg, db) && i in db.outbox && Rejection(db.outbox[i]) && db.outbox[i].event.causation == Some(c)
    ensures Processed(ShapeOf(db), c) && db.outbox[c].event.etype.OrderCreated?
    ensures db.outbox[c].event.order == db.outbox[i].event.order
  {
    assert LinkedRow(ShapeOf(db), db.outbox[i].event);
  }

  lemma NoPendingRejection(cfg: Config, start: Db, db: Db, q: seq<Id>, k: nat, first: int, i: Id)
    requires q == Queue(start) && Along(cfg, start, db, q, k, first) && AllAccepted(start, first)
    requires i in db.outbox && db.outbox[i].status.Pending?
    ensures !Rejection(db.outbox[i])
  {
    hide GreedyAccepts, MovesOf, Queue, Sound, Ledger, QueueAt, AllocatedTo, Settled;
    if Rejection(db.outbox[i]) && i !in start.outbox {
      var n := RejectedByReference(cfg, start, db, q, k, first, i);
    }
  }

  /** A processed row that is not a chain's end has handed on, to the row added with its mark. */
  lemma HandsOn(cfg: Config, a: Db, b: Db, i: Id, n: Id)
    requires Sound(cfg, a) && Sound(cfg, b) && i in a.outbox && !Processed(ShapeOf(a), i) && Processed(ShapeOf(b), i)
    requires b.outbox.Keys <= a.outbox.Keys + {n}
    requires forall j | j in a.outbox && j in b.outbox :: b.outbox[j].event == a.outbox[j].event
    requires !Ends(b.outbox[i].event.etype)
    ensures n in b.outbox
  {
    assert HasNext(ShapeOf(b), i);
    var j :| j in b.outbox && b.outbox[j].event.causation == Some(i);
    if j in a.outbox {
      CauseOfRow(cfg, a, j, i);
    }
  }

  lemma LoadDrops(cfg: Config, start: Db, db: Db, q: seq<Id>, k: nat, k': nat, first: int, i: Id, ch: Choice)
    requires q == Queue(start) && AllAccepted(start, first)
    requires Along(cfg, start, db, q, k, first) && Deliverable(cfg, db, i, ch)
    requires Along(cfg, start, Deliver(cfg, db, i, ch), q, k', first)
    ensures Load(Deliver(cfg, db, i, ch)) == Load(db) - 1
  {
    hide Handle, Deliver, HandleRow, Sound, Ledger, Along, AllAccepted, Queue, Keeps, Load;
    AlongSound(cfg, start, db, q, k, first);
    NoPendingRejection(cfg, start, db, q, k, first, i);
    OnlyRejectionsFail(cfg, db, i, ch);
    match HandleRow(cfg, db, i, ch) {
      case Raised(_) =>
      case Skipped => SkipDrops(cfg, db, i, ch);
      case Applied(_) => CallDrops(cfg, start, db, q, k, k', first, i, ch);
    }
  }

  lemma SkipDrops(cfg: Config, db: Db, i: Id, ch: Choice)
    requires i in db.outbox && Ready(db.outbox[i], ch.now) && FreshIds(db, ch) && HandleRow(cfg, db, i, ch).Skipped?
    ensures Load(Deliver(cfg, db, i, ch)) == Load(db) - 1
  {
    TotalMoves(OwedRows(db), OwedRows(Deliver(cfg, db, i, ch)), i, ch.eventId);
  }

  lemma CallDrops(cfg: Config, start: Db, db: Db, q: seq<Id>, k: nat, k': nat, first: int, i: Id, ch: Choice)
    requires q == Queue(start) && AllAccepted(start, first) && i in db.outbox && !Rejection(db.outbox[i])
    requires Along(cfg, start, db, q, k, first) && Deliverable(cfg, db, i, ch) && HandleRow(cfg, db, i, ch).Applied?
    requires Along(cfg, start, Deliver(cfg, db, i, ch), q, k', first)
    ensures Load(Deliver(cfg, db, i, ch)) == Load(db) - 1
  {
    hide Handle, Deliver, HandleRow, Sound, Ledger, Along, AllAccepted, Follows, Queue, Keeps, Weight;
    var after, n := Deliver(cfg, db, i, ch), ch.eventId;
    AlongSound(cfg, start, db, q, k, first);
    AlongSound(cfg, start, after, q, k', first);
    SuccessShape(cfg, db, i, ch);
    DeliveryConfined(cfg, db, i, ch);
    TotalMoves(OwedRows(db), OwedRows(after), i, n);
    if n in after.outbox {
      NoPendingRejection(cfg, start, after, q, k', first, n);
      NewMovesNothing(cfg, start, db, after, q, k, k', first, n);
      OneLighter(after.outbox[n].event.etype, db.outbox[i].event.etype);
    } else {
      EndWeighsOne(cfg, db, after, i, n);
    }
  }

  /** What a delivery adds is no failed payment. */
  lemma NewMovesNothing(cfg: Config, start: Db, db: Db, after: Db, q: seq<Id>, k: nat, k': nat, first: int, n: Id)
    requires Along(cfg, start, db, q, k, first) && Along(cfg, start, after, q, k', first)
    requires n in after.outbox && n !in db.outbox
    ensures !after.outbox[n].event.etype.PaymentFailed?
  {
    hide Sound, Ledger, QueueAt, AllocatedTo, Settled, Grown;
  }

  lemma OneLighter(next: EventType, t: EventType)
    requires Follows(next, t) && !next.InventoryReservationFailed? && !next.PaymentFailed?
    ensures Weight(next) == Weight(t) - 1
  {
  }

  lemma EndWeighsOne(cfg: Config, db: Db, after: Db, i: Id, n: Id)
    requires Sound(cfg, db) && Sound(cfg, after) && i in db.outbox && !Processed(ShapeOf(db), i)
    requires i in after.outbox && after.outbox[i].status.Published? && after.outbox[i].event == db.outbox[i].event
    requires after.outbox.Keys <= db.outbox.Keys + {n} && n !in after.outbox
    requires forall j | j in db.outbox && j in after.outbox :: after.outbox[j].event == db.outbox[j].event
    ensures Weight(db.outbox[i].event.etype) == 1
  {
    if !Ends(db.outbox[i].event.etype) {
      HandsOn(cfg, db, after, i, n);
    }
  }

  // ----- batches and whole runs -----

  lemma {:induction false} BatchLoad(cfg: Config, start: Db, fetched: Db, q: seq<Id>, kF: nat, first: int, limit: nat,
                                     env: nat -> Choice, at: nat, j: nat)
    requires CalmBatch(cfg, start, fetched, q, kF, first, env, at) && AllAccepted(start, first)
    requires j <= |Fetch(fetched, At(env, at).now, limit)|
    ensures Load(DeliverAll(cfg, fetched, Fetch(fetched, At(env, at).now, limit)[..j], env, at)) == Load(fetched) - j
    decreases j
  {
    hide Deliver, DeliverAll, Fetch, Along, FreshFrom, Monotone, CalmEnv, Queue, AllAccepted, Load, Commits, CommitsAll,
         QueueBatch, Deliverable;
    var ids := Fetch(fetched, At(env, at).now, limit);
    if j == 0 {
      assert ids[..0] == [];
      NothingDelivered(cfg, fetched, env, at);
    } else {
      var prev := j - 1;
      BatchLoad(cfg, start, fetched, q, kF, first, limit, env, at, prev);
      var k := AlongBatch(cfg, start, fetched, q, kF, first, limit, env, at, prev);
      var k' := AlongBatch(cfg, start, fetched, q, kF, first, limit, env, at, j);
      OneMore(cfg, fetched, ids, env, at, prev);
      BatchStillDeliverable(cfg, start, fetched, q, kF, first, limit, env, at, prev);
      LoadDrops(cfg, start, DeliverAll(cfg, fetched, ids[..prev], env, at), q, k, k', first, ids[prev],
                At(env, at + prev));
    }
  }

  lemma OwedBounds(db: Db)
    ensures 0 <= Load(db)
  {
    TotalBounds(OwedRows(db), 5);
  }

  /** Idle and no rejection pending: nothing is owed. */
  lemma IdleLoad(cfg: Config, start: Db, db: Db, q: seq<Id>, k: nat, first: int, now: int, limit: nat)
    requires q == Queue(start) && Along(cfg, start, db, q, k, first) && AllAccepted(start, first) && first <= now
    requires limit >= 1 && Fetch(db, now, limit) == []
    ensures Load(db) == 0
  {
    hide Along, AllAccepted, Fetch, Queue;
    IdleMeansNothingReady(db, now, limit);
    QueueIsServed(cfg, start, db, q, k, first, now);
    forall i | i in db.outbox ensures OwedRows(db)[i] == 0 {
      if db.outbox[i].status.Pending? {
        NoPendingRejection(cfg, start, db, q, k, first, i);
        StartRowsReady(cfg, start, db, q, k, first, i);
        RestingRow(cfg, start, db, q, first, now, i);
      }
    }
    TotalBounds(OwedRows(db), 0);
  }

  lemma StartRowsReady(cfg: Config, start: Db, db: Db, q: seq<Id>, k: nat, first: int, i: Id)
    requires Along(cfg, start, db, q, k, first) && AllAccepted(start, first)
    requires i in db.outbox && db.outbox[i].status.Pending?
    ensures Unhindered(start, i, first)
  {
    hide Sound, Ledger, QueueAt, AllocatedTo, Settled, Queue, GreedyAccepts, MovesOf;
  }

  /** A run reports exactly the load it starts with. */
  lemma {:induction false} CountsLoad(cfg: Config, start: Db, db: Db, q: seq<Id>, k: nat, first: int, limit: nat,
                                      env: nat -> Choice, done: nat, batches: nat)
    requires CalmBatch(cfg, start, db, q, k, first, env, done) && AllAccepted(start, first) && limit >= 1
    requires Load(db) < batches
    ensures var run := UntilIdle(cfg, db, limit, env, done, batches); run.idle && run.total == done + Load(db)
    decreases batches
  {
    hide Deliver, DeliverAll, Fetch, CalmBatch, AllAccepted, Load, UntilIdle, Along, Queue;
    OwedBounds(db);
    var ids := Fetch(db, At(env, done).now, limit);
    if ids == [] {
      IdleIsOwedNothing(cfg, start, db, q, k, first, limit, env, done);
      NothingDelivered(cfg, db, env, done);
      OneBatch(UntilIdle(cfg, db, limit, env, done, batches), cfg, db, limit, env, done, batches, ids, db, done,
               batches - 1);
    } else {
      var after, next, left := DeliverAll(cfg, db, ids, env, done), done + |ids|, batches - 1;
      var head := AlongWholeBatch(cfg, start, db, q, k, first, limit, env, done, next);
      BatchLoad(cfg, start, db, q, k, first, limit, env, done, |ids|);
      assert ids[..|ids|] == ids;
      CountsLoad(cfg, start, after, q, head, first, limit, env, next, left);
      OneBatch(UntilIdle(cfg, db, limit, env, done, batches), cfg, db, limit, env, done, batches, ids, after, next,
               left);
    }
  }

  lemma IdleIsOwedNothing(cfg: Config, start: Db, db: Db, q: seq<Id>, k: nat, first: int, limit: nat,
                          env: nat -> Choice, done: nat)
    requires CalmBatch(cfg, start, db, q, k, first, env, done) && AllAccepted(start, first) && limit >= 1
    requires Fetch(db, At(env, done).now, limit) == []
    ensures Load(db) == 0
  {
    hide Along, AllAccepted, Fetch, Queue, FreshFrom, Monotone, CalmEnv, Load;
    IdleLoad(cfg, start, db, q, k, first, At(env, done).now, limit);
  }

  /** An order nothing has handled yet. */
  ghost predicate WaitingOrder(db: Db, i: Id) {
    Queued(db, i) && db.outbox[i].event.etype.OrderCreated?
  }

  ghost function WaitingOrders(db: Db): (ids: set<Id>)
    ensures ids <= db.outbox.Keys
  {
    set i | i in db.outbox && WaitingOrder(db, i)
  }

  /** Owed for rows that are under way already: all but the waiting orders. */
  ghost function InFlightRows(db: Db): map<Id, int> {
    map i | i in db.outbox :: if WaitingOrder(db, i) then 0 else Owed(db.outbox[i], Processed(ShapeOf(db), i))
  }

  ghost function InFlight(db: Db): int {
    Total(InFlightRows(db))
  }

  ghost function WaitingRows(db: Db): map<Id, int> {
    map i | i in db.outbox :: if WaitingOrder(db, i) then 5 else 0
  }

  /** Five for every waiting order, and what the rows under way still need. */
  lemma LoadSplits(db: Db)
    ensures Load(db) == 5 * |WaitingOrders(db)| + InFlight(db)
  {
    TotalOfSum(OwedRows(db), WaitingRows(db), InFlightRows(db));
    TotalConstant(WaitingRows(db), WaitingOrders(db), 5);
  }

  /** A call that rejects nothing dispatches exactly five events for every waiting order and what the rows under way
      owe, given more batches than that. */
  lemma ExactlyWhatIsOwed(cfg: Config, start: Db, limit: nat, env: nat -> Choice, batches: nat)
    requires CalmCall(cfg, start, limit, env) && AllAccepted(start, At(env, 0).now)
    requires 5 * |WaitingOrders(start)| + InFlight(start) < batches
    ensures var run := UntilIdle(cfg, start, limit, env, 0, batches);
            && run.idle && run.total == 5 * |WaitingOrders(start)| + InFlight(start)
            && GreedyOutcome(start, run.db, At(env, 0).now)
  {
    hide UntilIdle, Fetch, FreshFrom, Monotone, CalmEnv, Sound, Ledger,
         GreedyOutcome, AllAccepted, Load, Along, Settled, Queue, InFlight;
    AlongFromStart(cfg, start, At(env, 0).now);
    LoadSplits(start);
    CountsLoad(cfg, start, start, Queue(start), 0, At(env, 0).now, limit, env, 0, batches);
    IdleRefinesGreedy(cfg, start, limit, env, batches);
  }

  /** With nothing under way: five for every order. */
  lemma FiveDeliveriesEach(cfg: Config, start: Db, limit: nat, env: nat -> Choice, batches: nat)
    requires CalmCall(cfg, start, limit, env) && AllAccepted(start, At(env, 0).now)
    requires 5 * |WaitingOrders(start)| < batches
    requires forall i | i in start.outbox && start.outbox[i].status.Pending? :: WaitingOrder(start, i)
    ensures var run := UntilIdle(cfg, start, limit, env, 0, batches);
            && run.idle && run.total == 5 * |WaitingOrders(start)|
            && GreedyOutcome(start, run.db, At(env, 0).now)
  {
    hide UntilIdle, CalmCall, GreedyOutcome, AllAccepted;
    TotalBounds(InFlightRows(start), 0);
    ExactlyWhatIsOwed(cfg, start, limit, env, batches);
  }
}
