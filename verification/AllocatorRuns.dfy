/** dispatch_until_idle refines the greedy allocator. */
module AllocatorRuns {
  import opened Tables
  import opened EventsRepository
  import opened Inbox
  import opened Dispatcher
  import opened Chain
  import opened Business
  import opened Guarantees
  import opened Conservation
  import opened RetryLedger
  import opened Deliveries
  import opened Termination
  import opened Allocator

  /** An undisturbed environment: default handlers, no raising bodies. */
  ghost predicate CalmEnv(cfg: Config, env: nat -> Choice) {
    forall n: nat :: Undisturbed(cfg, At(env, n))
  }

  ghost function Head(k: nat, db: Db, i: Id): nat {
    if Queued(db, i) then k + 1 else k
  }

  lemma AlongDelivery(cfg: Config, start: Db, db: Db, q: seq<Id>, k: nat, now: int, i: Id, ch: Choice)
    requires Along(cfg, start, db, q, k, now) && Deliverable(cfg, db, i, ch)
    requires Queued(db, i) ==> k < |q| && i == q[k]
    ensures Along(cfg, start, Deliver(cfg, db, i, ch), q, Head(k, db, i), now)
  {
    hide Handle, Deliver, Sound, Ledger, QueueAt, Calm, AllocatedTo, Reaches, HandleRow, Commits, Keeps, Queued;
    DeliveryReaches(cfg, db, i, ch);
    ReachedIsSound(cfg, db, Deliver(cfg, db, i, ch));
    DeliveryKeeps(cfg, db, i, ch);
    KeepsOn(start, db, Deliver(cfg, db, i, ch));
    if Queued(db, i) {
      HeadDelivery(cfg, start, db, q, k, now, ch);
    } else {
      match HandleRow(cfg, db, i, ch) {
        case Raised(_) => RejectedDelivery(cfg, start, db, q, k, now, i, ch);
        case Skipped => SkippedDelivery(cfg, start, db, q, k, now, i, ch);
        case Applied(_) =>
          if Ends(db.outbox[i].event.etype) {
            LastDelivery(cfg, start, db, q, k, now, i, ch);
          } else {
            SideDelivery(cfg, start, db, q, k, now, i, ch);
          }
      }
    }
  }

  /** A batch in flight, seen from the queue: order events already delivered are published. */
  ghost predicate QueueBatch(q: seq<Id>, db: Db, ids: seq<Id>, j: nat) {
    j <= |ids| && forall p | 0 <= p < j && ids[p] in q && ids[p] in db.outbox :: db.outbox[ids[p]].status.Published?
  }

  /** The next order event of a batch is the head of the queue: rows before it in the queue were fetched with it,
      and come earlier in the batch. */
  lemma NextIsHead(cfg: Config, start: Db, fetched: Db, db: Db, q: seq<Id>, kF: nat, k: nat, first: int, now: int,
                   limit: nat, j: nat)
    requires q == Queue(start) && first <= now
    requires Along(cfg, start, fetched, q, kF, first) && Along(cfg, start, db, q, k, first) && kF <= k
    requires var ids := Fetch(fetched, now, limit); QueueBatch(q, db, ids, j) && j < |ids| && Queued(db, ids[j])
    ensures k < |q| && Fetch(fetched, now, limit)[j] == q[k]
  {
    hide Sound, Ledger, AllocatedTo, Fetch, Keeps, Settled;
    var ids := Fetch(fetched, now, limit);
    assert ids[j] in q;
    var n :| 0 <= n < |q| && q[n] == ids[j];
    assert n >= k;
    if n != k {
      HeadWasFetched(cfg, start, fetched, q, kF, k, n, first, now, limit, j);
    }
  }

  lemma HeadWasFetched(cfg: Config, start: Db, fetched: Db, q: seq<Id>, kF: nat, k: nat, n: nat, first: int, now: int,
                       limit: nat, j: nat)
    requires q == Queue(start) && QueueAt(start, fetched, q, kF) && Settled(start, first) && first <= now
    requires kF <= k < n < |q|
    requires j < |Fetch(fetched, now, limit)| && Fetch(fetched, now, limit)[j] == q[n]
    ensures exists p :: 0 <= p < j && Fetch(fetched, now, limit)[p] == q[k]
  {
    hide Fetch;
    assert Before(start.outbox, q[k], q[n]);
    assert fetched.outbox[q[k]] == start.outbox[q[k]];
    EarlierReadyIsFetched(fetched, now, limit, q[k], j);
  }

  /** The first j rows of the batch fetched from `fetched` are delivered, and the head of the queue is k. */
  ghost predicate AlongAt(cfg: Config, start: Db, fetched: Db, q: seq<Id>, kF: nat, first: int, limit: nat,
                          env: nat -> Choice, at: nat, j: nat, k: nat)
  {
    var ids := Fetch(fetched, At(env, at).now, limit);
    && j <= |ids| && kF <= k
    && Along(cfg, start, DeliverAll(cfg, fetched, ids[..j], env, at), q, k, first)
    && QueueBatch(q, DeliverAll(cfg, fetched, ids[..j], env, at), ids, j)
  }

  /** What a batch in a calm run is given. */
  ghost predicate CalmBatch(cfg: Config, start: Db, fetched: Db, q: seq<Id>,
                            kF: nat, first: int, env: nat -> Choice, at: nat)
  {
    && q == Queue(start) && Along(cfg, start, fetched, q, kF, first) && first <= At(env, at).now
    && FreshFrom(env, at, fetched) && Monotone(env) && CalmEnv(cfg, env)
  }

  lemma {:induction false} AlongBatch(cfg: Config, start: Db, fetched: Db, q: seq<Id>, kF: nat, first: int, limit: nat,
                                      env: nat -> Choice, at: nat, j: nat) returns (k: nat)
    requires CalmBatch(cfg, start, fetched, q, kF, first, env, at)
    requires j <= |Fetch(fetched, At(env, at).now, limit)|
    ensures AlongAt(cfg, start, fetched, q, kF, first, limit, env, at, j, k)
    decreases j
  {
    hide Fetch;
    if j == 0 {
      k := kF;
    } else {
      var prev := j - 1;
      var before := AlongBatch(cfg, start, fetched, q, kF, first, limit, env, at, prev);
      k := AlongOneMore(cfg, start, fetched, q, kF, first, limit, env, at, prev, j, before);
    }
  }

  lemma AlongOneMore(cfg: Config, start: Db, fetched: Db, q: seq<Id>, kF: nat, first: int, limit: nat,
                     env: nat -> Choice, at: nat, prev: nat, j: nat, before: nat) returns (k: nat)
    requires CalmBatch(cfg, start, fetched, q, kF, first, env, at)
    requires j == prev + 1 && j <= |Fetch(fetched, At(env, at).now, limit)|
    requires AlongAt(cfg, start, fetched, q, kF, first, limit, env, at, prev, before)
    ensures AlongAt(cfg, start, fetched, q, kF, first, limit, env, at, j, k)
  {
    hide Deliver, DeliverAll, Fetch, Along, FreshFrom, Monotone,
         CalmEnv, Queue, QueueBatch, Commits, CommitsAll, Deliverable;
    var ids, now := Fetch(fetched, At(env, at).now, limit), At(env, at).now;
    OneMore(cfg, fetched, ids, env, at, prev);
    BatchStillDeliverable(cfg, start, fetched, q, kF, first, limit, env, at, prev);
    var part := DeliverAll(cfg, fetched, ids[..prev], env, at);
    k := AlongNext(cfg, start, fetched, part, q, kF, before, first, now, limit, prev, At(env, at + prev));
  }

  lemma BatchStillDeliverable(cfg: Config, start: Db, fetched: Db, q: seq<Id>, kF: nat, first: int, limit: nat,
                              env: nat -> Choice, at: nat, j: nat)
    requires CalmBatch(cfg, start, fetched, q, kF, first, env, at)
    requires j < |Fetch(fetched, At(env, at).now, limit)|
    ensures var ids := Fetch(fetched, At(env, at).now, limit);
            Deliverable(cfg, DeliverAll(cfg, fetched, ids[..j], env, at), ids[j], At(env, at + j))
  {
    hide Deliver, DeliverAll, Fetch, Along, FreshFrom, Monotone, InBatch, Sound, Ledger, Queue;
    var ids, now := Fetch(fetched, At(env, at).now, limit), At(env, at).now;
    AlongSound(cfg, start, fetched, q, kF, first);
    FetchStartsBatch(cfg, fetched, limit, env, at);
    BatchReaches(cfg, fetched, ids, env, at, j, now);
    DeliverableInBatch(cfg, DeliverAll(cfg, fetched, ids[..j], env, at), ids, env, at, j, now);
    assert Undisturbed(cfg, At(env, at + j));
  }

  lemma AlongSound(cfg: Config, start: Db, db: Db, q: seq<Id>, k: nat, first: int)
    requires Along(cfg, start, db, q, k, first)
    ensures Sound(cfg, start) && Sound(cfg, db) && Ledger(cfg, db) && Keeps(start, db)
  {
  }

  /** One delivery of a batch. */
  lemma AlongNext(cfg: Config, start: Db, fetched: Db, db: Db, q: seq<Id>, kF: nat, k: nat, first: int, now: int,
                  limit: nat, j: nat, ch: Choice) returns (k': nat)
    requires q == Queue(start) && first <= now
    requires Along(cfg, start, fetched, q, kF, first) && Along(cfg, start, db, q, k, first) && kF <= k
    requires var ids := Fetch(fetched, now, limit);
             && QueueBatch(q, db, ids, j) && j < |ids| && Deliverable(cfg, db, ids[j], ch)
    ensures var ids := Fetch(fetched, now, limit);
            && kF <= k' && Along(cfg, start, Deliver(cfg, db, ids[j], ch), q, k', first)
            && QueueBatch(q, Deliver(cfg, db, ids[j], ch), ids, j + 1)
  {
    hide Deliver, Fetch, Sound, Ledger, QueueAt, Calm, AllocatedTo, Along, Queue, Queued, Keeps;
    var ids := Fetch(fetched, now, limit);
    var i := ids[j];
    if Queued(db, i) {
      NextIsHead(cfg, start, fetched, db, q, kF, k, first, now, limit, j);
    }
    AlongDelivery(cfg, start, db, q, k, first, i, ch);
    k' := Head(k, db, i);
    AlongSound(cfg, start, db, q, k, first);
    DeliveryConfined(cfg, db, i, ch);
    QueueRowsExist(cfg, start, db, q, k, first);
    forall p | 0 <= p < j + 1 && ids[p] in q && ids[p] in Deliver(cfg, db, i, ch).outbox
      ensures Deliver(cfg, db, i, ch).outbox[ids[p]].status.Published?
    {
      if ids[p] == i {
        PendingQueueRow(cfg, start, db, q, k, first, i);
        HeadPublished(cfg, start, Deliver(cfg, db, i, ch), q, k', first, k);
      }
    }
  }

  lemma QueueRowsExist(cfg: Config, start: Db, db: Db, q: seq<Id>, k: nat, first: int)
    requires Along(cfg, start, db, q, k, first)
    ensures forall i | i in q :: i in db.outbox
  {
  }

  lemma PendingQueueRow(cfg: Config, start: Db, db: Db, q: seq<Id>, k: nat, first: int, i: Id)
    requires Along(cfg, start, db, q, k, first) && i in q && i in db.outbox && db.outbox[i].status.Pending?
    ensures Queued(db, i)
  {
    hide Sound, Ledger, Keeps, AllocatedTo, Settled;
  }

  lemma HeadPublished(cfg: Config, start: Db, db: Db, q: seq<Id>, k: nat, first: int, n: nat)
    requires Along(cfg, start, db, q, k, first) && n < k
    ensures n < |q| && q[n] in db.outbox && db.outbox[q[n]].status.Published?
  {
  }

  // ----- whole runs of batches -----

  /** A run of batches, stopped wherever it is: the queue has been served up to some head. */
  ghost predicate ServedTo(cfg: Config, start: Db, q: seq<Id>, first: int,
                           limit: nat, env: nat -> Choice, run: IdleRun, k: nat)
  {
    && Along(cfg, start, run.db, q, k, first) && FreshFrom(env, run.total, run.db) && At(env, run.total).now >= first
    && (run.idle ==> Fetch(run.db, At(env, run.total).now, limit) == [])
  }

  lemma {:induction false} AlongUntilIdle(cfg: Config, start: Db, db: Db, q: seq<Id>, k: nat, first: int, limit: nat,
                                          env: nat -> Choice, done: nat, batches: nat) returns (k': nat)
    requires CalmBatch(cfg, start, db, q, k, first, env, done)
    ensures ServedTo(cfg, start, q, first, limit, env, UntilIdle(cfg, db, limit, env, done, batches), k')
    decreases batches
  {
    hide Deliver, DeliverAll;
    var ids := Fetch(db, At(env, done).now, limit);
    if batches == 0 || ids == [] {
      k' := k;
    } else {
      var after, next, left := DeliverAll(cfg, db, ids, env, done), done + |ids|, batches - 1;
      var head := AlongWholeBatch(cfg, start, db, q, k, first, limit, env, done, next);
      k' := AlongUntilIdle(cfg, start, after, q, head, first, limit, env, next, left);
      OneBatch(UntilIdle(cfg, db, limit, env, done, batches), cfg, db, limit, env, done, batches, ids, after, next,
               left);
    }
  }

  lemma AlongWholeBatch(cfg: Config, start: Db, db: Db, q: seq<Id>, k: nat, first: int, limit: nat, env: nat -> Choice,
                        done: nat, next: nat) returns (k': nat)
    requires CalmBatch(cfg, start, db, q, k, first, env, done)
    requires next == done + |Fetch(db, At(env, done).now, limit)|
    ensures var after := DeliverAll(cfg, db, Fetch(db, At(env, done).now, limit), env, done);
            CalmBatch(cfg, start, after, q, k', first, env, next)
  {
    hide Deliver, DeliverAll, Fetch, Along, FreshFrom, CalmEnv,
         Queue, QueueBatch, CommitsAll, Sound, Ledger, Reaches, Keeps;
    var ids := Fetch(db, At(env, done).now, limit);
    AlongSound(cfg, start, db, q, k, first);
    BatchIsRun(cfg, db, limit, env, done);
    k' := AlongBatch(cfg, start, db, q, k, first, limit, env, done, |ids|);
    assert ids[..|ids|] == ids;
    assert At(env, done).now <= At(env, next).now;
  }

  lemma AlongFromStart(cfg: Config, start: Db, first: int)
    requires Sound(cfg, start) && Ledger(cfg, start) && Settled(start, first)
    ensures Along(cfg, start, start, Queue(start), 0, first)
  {
    hide Sound, Ledger, Settled;
    var q := Queue(start);
    KeepsItself(start);
    assert forall n | 0 <= n < |q| :: q[n] in q;
  }

  // ----- what idleness means -----

  lemma IdleMeansNothingReady(db: Db, now: int, limit: nat)
    requires Fetch(db, now, limit) == [] && limit >= 1
    ensures forall i | i in db.outbox :: !Ready(db.outbox[i], now)
  {
    FetchIsOldestReady(db, now, limit);
    hide Fetch;
    forall i | i in db.outbox ensures !Ready(db.outbox[i], now) {
      assert i !in ReadyIds(db, now);
    }
  }

  /** The run of batches is over: nothing is ready any more. */
  ghost predicate AtRest(cfg: Config, start: Db, db: Db, q: seq<Id>, first: int, now: int) {
    Along(cfg, start, db, q, |q|, first) && first <= now && forall i | i in db.outbox :: !Ready(db.outbox[i], now)
  }

  /** Rows the run can have no reason to leave: new ones, and those that were ready when it began. */
  predicate Unhindered(start: Db, i: Id, first: int) {
    i in start.outbox ==> Ready(start.outbox[i], first)
  }

  /** In a calm run nothing but rejections is ever asked to wait, so idle means published. */
  lemma RestingRow(cfg: Config, start: Db, db: Db, q: seq<Id>, first: int, now: int, i: Id)
    requires AtRest(cfg, start, db, q, first, now) && i in db.outbox && !Rejection(db.outbox[i])
    requires Unhindered(start, i, first)
    ensures db.outbox[i].status.Published?
  {
    hide QueueAt, AllocatedTo, Ledger, Sound, Keeps, Settled;
  }

  lemma QueueIsServed(cfg: Config, start: Db, db: Db, q: seq<Id>, k: nat, first: int, now: int)
    requires Along(cfg, start, db, q, k, first) && first <= now
    requires forall i | i in db.outbox :: !Ready(db.outbox[i], now)
    ensures k == |q|
  {
    hide AllocatedTo, Ledger, Sound, Keeps;
    if k < |q| {
      HeadIsReady(cfg, start, db, q, k, first, now);
    }
  }

  lemma HeadIsReady(cfg: Config, start: Db, db: Db, q: seq<Id>, k: nat, first: int, now: int)
    requires Along(cfg, start, db, q, k, first) && k < |q| && first <= now
    ensures q[k] in db.outbox && Ready(db.outbox[q[k]], now)
  {
    hide AllocatedTo, Ledger, Sound, Keeps;
  }

  lemma RestingHandedRow(cfg: Config, start: Db, db: Db, q: seq<Id>, first: int, now: int, i: Id)
    requires AtRest(cfg, start, db, q, first, now) && i in db.outbox && !Rejection(db.outbox[i])
    requires Unhindered(start, i, first)
    ensures Processed(ShapeOf(db), i) && db.outbox[i].event.order in db.orders
  {
    RestingRow(cfg, start, db, q, first, now, i);
    hide QueueAt, AllocatedTo, Ledger, Settled, Keeps, Calm;
    assert LinkedRow(ShapeOf(db), db.outbox[i].event);
  }

  /** What follows an unhandled row is new. */
  lemma NextIsHanded(cfg: Config, start: Db, db: Db, i: Id, j: Id)
    requires Sound(cfg, start) && Keeps(start, db) && Handed(start, i)
    requires j in db.outbox && db.outbox[j].event.causation == Some(i)
    ensures j !in start.outbox
  {
    if j in start.outbox {
      CauseOfRow(cfg, start, j, i);
    }
  }

  lemma CauseOfRow(cfg: Config, db: Db, j: Id, i: Id)
    requires Sound(cfg, db) && j in db.outbox && db.outbox[j].event.causation == Some(i)
    ensures i in db.outbox && Processed(ShapeOf(db), i)
  {
    assert LinkedRow(ShapeOf(db), db.outbox[j].event);
  }

  /** How an order ends whose event of this type nobody interferes with any more. */
  function Ending(t: EventType): OrderStatus {
    if t.PaymentFailed? || t.InventoryReleased? then OrderCancelled else OrderCompleted
  }

  /** With nothing left to do, every order under way has travelled to the end of its path. */
  lemma {:induction false} HandedFinishes(cfg: Config, start: Db, db: Db, q: seq<Id>, first: int, now: int, i: Id)
    requires AtRest(cfg, start, db, q, first, now) && i in db.outbox && Handed(start, i)
    requires Unhindered(start, i, first)
    requires !db.outbox[i].event.etype.OrderCreated? && !Rejection(db.outbox[i])
    ensures db.outbox[i].event.order in db.orders
    ensures db.orders[db.outbox[i].event.order].status == Ending(db.outbox[i].event.etype)
    decreases 4 - Stage(db.outbox[i].event.etype)
  {
    RestingHandedRow(cfg, start, db, q, first, now, i);
    hide QueueAt, AllocatedTo, Ledger, Settled, Keeps, AtRest, Sound;
    if Ends(db.outbox[i].event.etype) {
      EndedOrder(cfg, db, i);
    } else {
      var j := NextOf(cfg, db, i);
      NextIsHanded(cfg, start, db, i, j);
      RestIsCalm(cfg, start, db, q, first, now, j);
      HandedFinishes(cfg, start, db, q, first, now, j);
    }
  }

  lemma RestIsCalm(cfg: Config, start: Db, db: Db, q: seq<Id>, first: int, now: int, j: Id)
    requires AtRest(cfg, start, db, q, first, now) && j in db.outbox && j !in start.outbox
    ensures CalmNew(start, db.outbox[j])
  {
  }

  /** The final status of a waiting order is the reference's verdict. */
  lemma VerdictOfOrder(cfg: Config, start: Db, db: Db, q: seq<Id>, first: int, now: int, n: nat)
    requires AtRest(cfg, start, db, q, first, now) && n < |q|
    ensures GreedyVerdict(start, q, db, n)
  {
    hide GreedyAccepts, Ledger, Sound, Keeps;
    assert VerdictShown(start, db, q, n) && Queued(start, q[n]);
    var o := start.outbox[q[n]].event.order;
    if start.outbox[q[n]].event.etype.PaymentFailed? {
      HandedFinishes(cfg, start, db, q, first, now, q[n]);
    } else if GreedyAccepts(start.inventory, MovesOf(start, q), n) {
      assert Emitted(db, o, InventoryReserved);
      var i :| i in db.outbox && db.outbox[i].event.order == o && db.outbox[i].event.etype.InventoryReserved?;
      ReservationIsNew(cfg, start, db, q[n], i);
      HandedFinishes(cfg, start, db, q, first, now, i);
    } else {
      assert Emitted(db, o, InventoryReservationFailed);
      var i :| i in db.outbox && db.outbox[i].event.order == o && db.outbox[i].event.etype.InventoryReservationFailed?;
      RejectedStaysPending(cfg, db, i);
    }
  }

  /** The reservation of an order that was waiting is not among the rows the run started from. */
  lemma ReservationIsNew(cfg: Config, start: Db, db: Db, head: Id, i: Id)
    requires Sound(cfg, start) && Keeps(start, db) && Queued(start, head)
    requires start.outbox[head].event.etype.OrderCreated?
    requires i in db.outbox && db.outbox[i].event.etype.InventoryReserved?
    requires db.outbox[i].event.order == start.outbox[head].event.order
    ensures i !in start.outbox
  {
    if i in start.outbox {
      NextStageEmpty(ShapeOf(start), head, i);
    }
  }

  /** The outcome the reference predicts: its stock, its verdict on every waiting order, the end of its path for
      every order found under way and ready at `first`. */
  ghost predicate GreedyOutcome(start: Db, db: Db, first: int) {
    var q := Queue(start);
    && db.inventory == GreedyStock(start.inventory, MovesOf(start, q))
    && (forall n | 0 <= n < |q| :: GreedyVerdict(start, q, db, n))
    && (forall i | i in start.outbox :: InFlightVerdict(start, db, i, first))
  }

  ghost predicate GreedyVerdict(start: Db, q: seq<Id>, db: Db, n: nat)
    requires n < |q|
  {
    var moves := MovesOf(start, q);
    && q[n] in start.outbox && start.outbox[q[n]].event.order in db.orders
    && db.orders[start.outbox[q[n]].event.order].status
       == if moves[n].Compensation? then OrderCancelled
          else if GreedyAccepts(start.inventory, moves, n) then OrderCompleted else OrderPending
  }

  ghost predicate InFlightVerdict(start: Db, db: Db, i: Id, first: int)
    requires i in start.outbox
  {
    var row := start.outbox[i];
    Ready(row, first) && !Processed(ShapeOf(start), i) && !row.event.etype.OrderCreated? && !Rejection(row) ==>
      row.event.order in db.orders && db.orders[row.event.order].status == Ending(row.event.etype)
  }

  lemma InFlightFinishes(cfg: Config, start: Db, db: Db, q: seq<Id>, first: int, now: int, i: Id)
    requires AtRest(cfg, start, db, q, first, now) && i in start.outbox
    ensures InFlightVerdict(start, db, i, first)
  {
    hide QueueAt, AllocatedTo, Ledger, Sound, Settled;
    var row := start.outbox[i];
    if Ready(row, first) && !Processed(ShapeOf(start), i) && !row.event.etype.OrderCreated? && !Rejection(row) {
      HandedFinishes(cfg, start, db, q, first, now, i);
    }
  }

  /** Where the call may start - any database the system can be in, without a back-off on a waiting row - and what the
      call is given. */
  ghost predicate CalmCall(cfg: Config, start: Db, limit: nat, env: nat -> Choice) {
    && Sound(cfg, start) && Ledger(cfg, start) && Settled(start, At(env, 0).now)
    && FreshFrom(env, 0, start) && Monotone(env) && CalmEnv(cfg, env) && limit >= 1
  }

  lemma IdleIsRest(cfg: Config, start: Db, limit: nat, env: nat -> Choice, batches: nat)
    requires CalmCall(cfg, start, limit, env) && UntilIdle(cfg, start, limit, env, 0, batches).idle
    ensures var run := UntilIdle(cfg, start, limit, env, 0, batches);
            AtRest(cfg, start, run.db, Queue(start), At(env, 0).now, At(env, run.total).now)
  {
    hide UntilIdle, Fetch, FreshFrom, Monotone, CalmEnv, Queue, Sound, Ledger, Along, Ready, Settled;
    var q, run, first := Queue(start), UntilIdle(cfg, start, limit, env, 0, batches), At(env, 0).now;
    AlongFromStart(cfg, start, first);
    var k := AlongUntilIdle(cfg, start, start, q, 0, first, limit, env, 0, batches);
    var now := At(env, run.total).now;
    IdleMeansNothingReady(run.db, now, limit);
    QueueIsServed(cfg, start, run.db, q, k, first, now);
  }

  /** A call that ends idle has done what the greedy allocator does over the waiting orders, whatever the batch limit
      and however the stages of different orders interleaved, and has finished what it found under way. */
  lemma IdleRefinesGreedy(cfg: Config, start: Db, limit: nat, env: nat -> Choice, batches: nat)
    requires CalmCall(cfg, start, limit, env) && UntilIdle(cfg, start, limit, env, 0, batches).idle
    ensures GreedyOutcome(start, UntilIdle(cfg, start, limit, env, 0, batches).db, At(env, 0).now)
  {
    hide UntilIdle, Fetch, FreshFrom, Monotone, CalmEnv, Queue, Sound, Ledger, MovesOf, GreedyAccepts, AtRest,
         GreedyVerdict, InFlightVerdict, Settled;
    var q, run, first := Queue(start), UntilIdle(cfg, start, limit, env, 0, batches), At(env, 0).now;
    var now := At(env, run.total).now;
    IdleIsRest(cfg, start, limit, env, batches);
    ServedStock(cfg, start, run.db, q, first, now);
    forall n | 0 <= n < |q| ensures GreedyVerdict(start, q, run.db, n) {
      VerdictOfOrder(cfg, start, run.db, q, first, now, n);
    }
    forall i | i in start.outbox ensures InFlightVerdict(start, run.db, i, first) {
      InFlightFinishes(cfg, start, run.db, q, first, now, i);
    }
  }

  lemma ServedStock(cfg: Config, start: Db, db: Db, q: seq<Id>, first: int, now: int)
    requires AtRest(cfg, start, db, q, first, now)
    ensures db.inventory == GreedyStock(start.inventory, MovesOf(start, q))
  {
    hide GreedyStock, Sound, Ledger, Calm, QueueAt, Keeps;
    var moves := MovesOf(start, q);
    assert moves[..|q|] == moves;
  }

  /** With a budget above the measure it does end idle. */
  lemma RefinesGreedy(cfg: Config, start: Db, limit: nat, env: nat -> Choice, batches: nat)
    requires CalmCall(cfg, start, limit, env) && Measure(cfg, start) < batches
    ensures var run := UntilIdle(cfg, start, limit, env, 0, batches);
            run.idle && GreedyOutcome(start, run.db, At(env, 0).now)
  {
    hide UntilIdle, Fetch, FreshFrom, Monotone, CalmEnv, Sound, Ledger, Measure, Reaches, GreedyOutcome, Settled;
    UntilIdleReturns(cfg, start, limit, env, 0, batches);
    IdleRefinesGreedy(cfg, start, limit, env, batches);
  }
}
