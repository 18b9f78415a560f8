/** Why dispatch_until_idle stops: a measure that every completed delivery lowers. */
module Termination {
  import opened Tables
  import opened Sums
  import opened EventsRepository
  import opened Inbox
  import opened Dispatcher
  import opened Saga
  import opened Chain
  import opened Business
  import opened Soundness
  import opened Guarantees
  import opened RetryLedger
  import opened Deliveries

  /** How many deliveries the event and what follows it can still need. */
  function Weight(t: EventType): nat {
    match t
    case OrderCreated => 5
    case InventoryReserved => 4
    case PaymentAuthorized => 3
    case InvoiceCreated => 2
    case PaymentFailed => 2
    case _ => 1
  }

  /** A pending row's share: its weight times the attempts allowed, less the attempts used. */
  function Share(cfg: Config, row: Row, processed: bool): int {
    if !row.status.Pending? then 0
    else (if processed then 1 else Weight(row.event.etype)) * Allowed(cfg) - row.failureCount
  }

  ghost function Shares(cfg: Config, db: Db): map<Id, int> {
    map i | i in db.outbox :: Share(cfg, db.outbox[i], Processed(ShapeOf(db), i))
  }

  ghost function Measure(cfg: Config, db: Db): int {
    Total(Shares(cfg, db))
  }

  lemma ShareBounds(cfg: Config, db: Db, i: Id)
    requires Ledger(cfg, db) && i in db.outbox
    ensures 0 <= Share(cfg, db.outbox[i], Processed(ShapeOf(db), i)) <= 5 * Allowed(cfg)
    ensures db.outbox[i].status.Pending? ==> Share(cfg, db.outbox[i], Processed(ShapeOf(db), i)) >= 1
  {
    hide Ledger, Allowed;
    FailuresLeft(cfg, db, i);
    var w := if Processed(ShapeOf(db), i) then 1 else Weight(db.outbox[i].event.etype);
    Scale(w, Allowed(cfg));
  }

  lemma FailuresLeft(cfg: Config, db: Db, i: Id)
    requires Ledger(cfg, db) && i in db.outbox
    ensures 1 <= Allowed(cfg)
    ensures db.outbox[i].status.Pending? ==> 0 <= db.outbox[i].failureCount < Allowed(cfg)
  {
    hide AttemptsOf;
    assert RowLedger(cfg, db.outbox[i], Own(cfg, db, i));
  }

  lemma Scale(w: nat, m: nat)
    requires 1 <= w <= 5
    ensures m <= w * m <= 5 * m
  {
  }

  lemma MeasureBounds(cfg: Config, db: Db)
    requires Ledger(cfg, db)
    ensures 0 <= Measure(cfg, db) <= |db.outbox| * (5 * Allowed(cfg))
  {
    hide Ledger, Share;
    forall i | i in db.outbox ensures 0 <= Shares(cfg, db)[i] <= 5 * Allowed(cfg) {
      ShareBounds(cfg, db, i);
    }
    TotalBounds(Shares(cfg, db), 5 * Allowed(cfg));
    assert Shares(cfg, db).Keys == db.outbox.Keys;
    assert |Shares(cfg, db)| == |db.outbox|;
  }

  /** Only row i and possibly one new row changed. */
  lemma MeasureMoves(cfg: Config, a: Db, b: Db, i: Id, n: Id, share: int, newShare: int)
    requires i in a.outbox && i in b.outbox && n !in a.outbox
    requires b.outbox.Keys == a.outbox.Keys || b.outbox.Keys == a.outbox.Keys + {n}
    requires forall j | j in a.outbox && j != i :: b.outbox[j] == a.outbox[j]
    requires forall j | j in a.outbox && j != i :: Processed(ShapeOf(b), j) <==> Processed(ShapeOf(a), j)
    requires share == Share(cfg, b.outbox[i], Processed(ShapeOf(b), i))
    requires newShare == if n in b.outbox then Share(cfg, b.outbox[n], Processed(ShapeOf(b), n)) else 0
    ensures Measure(cfg, b) == Measure(cfg, a) + share + newShare - Share(cfg, a.outbox[i], Processed(ShapeOf(a), i))
  {
    hide Share;
    TotalMoves(Shares(cfg, a), Shares(cfg, b), i, n);
  }

  lemma FailureLowers(cfg: Config, db: Db, i: Id, ch: Choice)
    requires Sound(cfg, db) && Ledger(cfg, db) && i in db.outbox && Ready(db.outbox[i], ch.now) && FreshIds(db, ch)
    requires HandleRow(cfg, db, i, ch).Raised?
    ensures Measure(cfg, Deliver(cfg, db, i, ch)) <= Measure(cfg, db) - 1
  {
    hide AfterFailure, Handle, Ledger, Sound, Measure;
    FailureIsClean(cfg, db, i, ch);
    FailureWrites(cfg, db, i, ch);
    ShareBounds(cfg, db, i);
    var after := AfterFailure(cfg, db, i, ch);
    MeasureMoves(cfg, db, after, i, ch.eventId, Share(cfg, after.outbox[i], Processed(ShapeOf(after), i)), 0);
  }

  lemma RedeliveryLowers(cfg: Config, db: Db, i: Id, ch: Choice)
    requires Ledger(cfg, db) && i in db.outbox && Ready(db.outbox[i], ch.now) && FreshIds(db, ch)
    requires HandleRow(cfg, db, i, ch).Skipped?
    ensures Measure(cfg, Deliver(cfg, db, i, ch)) <= Measure(cfg, db) - 1
  {
    hide Handle, Ledger, Measure;
    ShareBounds(cfg, db, i);
    MeasureMoves(cfg, db, WithPublished(db, i), i, ch.eventId, 0, 0);
  }

  lemma SuccessLowers(cfg: Config, db: Db, i: Id, ch: Choice)
    requires Sound(cfg, db) && Ledger(cfg, db) && i in db.outbox && Ready(db.outbox[i], ch.now) && FreshIds(db, ch)
    requires HandleRow(cfg, db, i, ch).Applied?
    ensures Measure(cfg, Deliver(cfg, db, i, ch)) <= Measure(cfg, db) - 1
  {
    hide Handle, Ledger, Measure, LinkAdded, Runnable, Sound;
    AfterHandler(cfg, db, i, ch);
    HandledCases(cfg, db, i, false, ch);
    SuccessShape(cfg, db, i, ch);
    ShareBounds(cfg, db, i);
    var after, n := Deliver(cfg, db, i, ch), ch.eventId;
    if n in after.outbox {
      MeasureMoves(cfg, db, after, i, n, Share(cfg, after.outbox[i], Processed(ShapeOf(after), i)),
                   Share(cfg, after.outbox[n], Processed(ShapeOf(after), n)));
      NewRowIsLighter(cfg, db.outbox[i], after.outbox[n], Own(cfg, db, i)) by { RowOfLedger(cfg, db, i); }
    } else {
      MeasureMoves(cfg, db, after, i, n, Share(cfg, after.outbox[i], Processed(ShapeOf(after), i)), 0);
    }
  }

  lemma RowOfLedger(cfg: Config, db: Db, i: Id)
    requires Ledger(cfg, db) && i in db.outbox
    ensures RowLedger(cfg, db.outbox[i], Own(cfg, db, i))
  {
  }

  lemma NewRowIsLighter(cfg: Config, row: Row, next: Row, own: seq<Attempt>)
    requires row.status.Pending? && RowLedger(cfg, row, own) && Weight(next.event.etype) <= Weight(row.event.etype) - 1
    requires next.status.Pending? && next.failureCount == 0
    ensures Share(cfg, next, false) <= Share(cfg, row, false) - 1
  {
    var m, w, v := Allowed(cfg), Weight(row.event.etype), Weight(next.event.etype);
    Spread(v, w, m);
  }

  lemma {:induction false} Spread(v: nat, w: nat, m: nat)
    requires v + 1 <= w
    ensures v * m + m <= w * m
    decreases w
  {
    assert w * m == (w - 1) * m + m;
    if v + 1 < w {
      Spread(v, w - 1, m);
    }
  }

  /** After a successful delivery: row i published, at most one new row, pending and unprocessed, one stage on. */
  lemma SuccessShape(cfg: Config, db: Db, i: Id, ch: Choice)
    requires Sound(cfg, db) && i in db.outbox && Ready(db.outbox[i], ch.now) && FreshIds(db, ch)
    requires HandleRow(cfg, db, i, ch).Applied?
    ensures var after, n := Deliver(cfg, db, i, ch), ch.eventId;
            && !Processed(ShapeOf(db), i) && i in after.outbox && after.outbox[i].status.Published?
            && (after.outbox.Keys == db.outbox.Keys || after.outbox.Keys == db.outbox.Keys + {n})
            && (forall j | j in db.outbox && j != i :: after.outbox[j] == db.outbox[j])
            && (forall j | j in db.outbox && j != i :: Processed(ShapeOf(after), j) <==> Processed(ShapeOf(db), j))
            && (n in after.outbox ==>
                  && !Processed(ShapeOf(after), n) && after.outbox[n].status.Pending?
                  && after.outbox[n].failureCount == 0
                  && Follows(after.outbox[n].event.etype, db.outbox[i].event.etype))
  {
    hide Handle, LinkAdded, Runnable, Sound, Finished;
    AfterHandler(cfg, db, i, ch);
    HandledCases(cfg, db, i, false, ch);
    InboxRowsExist(cfg, db);
    if Ends(db.outbox[i].event.etype) {
      HandlerFinishes(cfg, db, i, false, ch);
    } else {
      LinkShape(db, HandledDb(db, Delivered(db, i, false), ch), i, ch);
    }
  }

  lemma InboxRowsExist(cfg: Config, db: Db)
    requires Sound(cfg, db)
    ensures forall m | m in db.inbox :: m.1 in db.outbox
  {
  }

  lemma LinkShape(a: Db, b: Db, i: Id, ch: Choice)
    requires i in a.outbox && a.outbox[i].event.order in a.orders && LinkAdded(a, b, i, ch)
    ensures Extended(ShapeOf(a), ShapeOf(b), i, ch.eventId, b.outbox[ch.eventId])
    ensures b.outbox[ch.eventId] == Row(b.outbox[ch.eventId].event, ch.now, Pending, None, 0)
  {
  }

  /** Every delivery that is not interrupted lowers the measure. */
  lemma DeliveryLowers(cfg: Config, db: Db, i: Id, ch: Choice)
    requires Sound(cfg, db) && Ledger(cfg, db) && i in db.outbox && Ready(db.outbox[i], ch.now) && FreshIds(db, ch)
    ensures Measure(cfg, Deliver(cfg, db, i, ch)) <= Measure(cfg, db) - 1
  {
    hide Deliver, HandleRow, Sound, Ledger, Measure;
    match HandleRow(cfg, db, i, ch) {
      case Raised(_) => FailureLowers(cfg, db, i, ch);
      case Skipped => RedeliveryLowers(cfg, db, i, ch);
      case Applied(_) => SuccessLowers(cfg, db, i, ch);
    }
  }

  lemma {:induction false} BatchLowers(cfg: Config, db: Db, ids: seq<Id>, env: nat -> Choice, k: nat, j: nat, now: int)
    requires InBatch(cfg, db, ids, env, k, 0, now) && j <= |ids| && Monotone(env) && At(env, k).now >= now
    requires forall i | i in ids :: i in db.outbox
    ensures Measure(cfg, DeliverAll(cfg, db, ids[..j], env, k)) <= Measure(cfg, db) - j
    decreases j
  {
    hide Deliver, Measure, Sound, Ledger, InBatch, DeliverAll, Monotone, Commits, CommitsAll, Reaches;
    if j == 0 {
      assert ids[..0] == [];
      NothingDelivered(cfg, db, env, k);
    } else {
      var prev := j - 1;
      BatchLowers(cfg, db, ids, env, k, prev, now);
      BatchReaches(cfg, db, ids, env, k, prev, now);
      OneMore(cfg, db, ids, env, k, prev);
      var part := DeliverAll(cfg, db, ids[..prev], env, k);
      DeliverableInBatch(cfg, part, ids, env, k, prev, now);
      DeliveryLowers(cfg, part, ids[prev], At(env, k + prev));
    }
  }

  lemma DeliverableInBatch(cfg: Config, db: Db, ids: seq<Id>, env: nat -> Choice, k: nat, j: nat, now: int)
    requires InBatch(cfg, db, ids, env, k, j, now) && j < |ids| && Monotone(env) && At(env, k).now >= now
    ensures Sound(cfg, db) && Ledger(cfg, db) && ids[j] in db.outbox
    ensures Ready(db.outbox[ids[j]], At(env, k + j).now) && FreshIds(db, At(env, k + j))
  {
  }

  /** How a run of batches that started at `db` with `done` events behind it has ended. */
  ghost predicate EndsIdle(cfg: Config, db: Db, limit: nat, env: nat -> Choice, done: nat, run: IdleRun) {
    && run.idle && done <= run.total <= done + Measure(cfg, db)
    && Sound(cfg, run.db) && Ledger(cfg, run.db) && Reaches(cfg, db, run.db)
    && FreshFrom(env, run.total, run.db)
    && Fetch(run.db, At(env, run.total).now, limit) == []
  }

  /** dispatch_until_idle returns, and dispatches no more events than the measure, whenever the batch budget
      exceeds the measure: a raise means the budget was too small, never that the work does not end. */
  lemma {:induction false} UntilIdleReturns(cfg: Config, db: Db, limit: nat,
                                            env: nat -> Choice, done: nat, batches: nat)
    requires Sound(cfg, db) && Ledger(cfg, db) && FreshFrom(env, done, db) && Monotone(env)
    requires Measure(cfg, db) < batches
    ensures EndsIdle(cfg, db, limit, env, done, UntilIdle(cfg, db, limit, env, done, batches))
    decreases batches
  {
    hide Deliver, Measure, Sound, Ledger, Fetch, DeliverAll, Reaches,
         FreshFrom, Monotone, UntilIdle, EndsIdle, CommitsAll;
    MeasureBounds(cfg, db);
    var ids := Fetch(db, At(env, done).now, limit);
    if ids == [] {
      AlreadyIdle(cfg, db, limit, env, done, batches);
    } else {
      var after, next, left := DeliverAll(cfg, db, ids, env, done), done + |ids|, batches - 1;
      WholeBatchLowers(cfg, db, limit, env, done);
      BatchIsRun(cfg, db, limit, env, done);
      UntilIdleReturns(cfg, after, limit, env, next, left);
      OneBatch(UntilIdle(cfg, db, limit, env, done, batches), cfg, db, limit, env, done, batches, ids, after, next,
               left);
      EndsIdleEarlier(cfg, db, limit, env, done, after, next, UntilIdle(cfg, after, limit, env, next, left));
    }
  }

  lemma AlreadyIdle(cfg: Config, db: Db, limit: nat, env: nat -> Choice, done: nat, batches: nat)
    requires Sound(cfg, db) && Ledger(cfg, db) && FreshFrom(env, done, db) && batches > 0 && Measure(cfg, db) >= 0
    requires Fetch(db, At(env, done).now, limit) == []
    ensures EndsIdle(cfg, db, limit, env, done, UntilIdle(cfg, db, limit, env, done, batches))
  {
    hide Deliver, Measure, Sound, Ledger, Fetch, DeliverAll, Reaches, FreshFrom;
    ReachesRefl(cfg, db);
  }

  lemma EndsIdleEarlier(cfg: Config, db: Db, limit: nat, env: nat -> Choice,
                        done: nat, after: Db, next: nat, run: IdleRun)
    requires done <= next && Measure(cfg, after) <= Measure(cfg, db) - (next - done) && Reaches(cfg, db, after)
    requires EndsIdle(cfg, after, limit, env, next, run)
    ensures EndsIdle(cfg, db, limit, env, done, run)
  {
    hide Measure, Sound, Ledger, Fetch, Reaches, FreshFrom;
    ReachesTrans(cfg, db, after, run.db);
  }

  lemma WholeBatchLowers(cfg: Config, db: Db, limit: nat, env: nat -> Choice, k: nat)
    requires Sound(cfg, db) && Ledger(cfg, db) && FreshFrom(env, k, db) && Monotone(env)
    ensures var ids := Fetch(db, At(env, k).now, limit);
            Measure(cfg, DeliverAll(cfg, db, ids, env, k)) <= Measure(cfg, db) - |ids|
  {
    hide Deliver, Measure, Sound, Ledger, InBatch, Fetch, DeliverAll, FreshFrom, Monotone;
    var ids := Fetch(db, At(env, k).now, limit);
    FetchStartsBatch(cfg, db, limit, env, k);
    BatchLowers(cfg, db, ids, env, k, |ids|, At(env, k).now);
    assert ids[..|ids|] == ids;
  }
}
