/** One dispatcher call after another: what happens between calls, and what a crash inside one leaves, is again a
    database the next call may start from. */
module DispatchCalls {
  import opened Tables
  import opened EventsRepository
  import opened Inbox
  import opened Dispatcher
  import opened Idempotency
  import opened Orders
  import opened Saga
  import opened Chain
  import opened Business
  import opened Soundness
  import opened Guarantees
  import opened RetryLedger
  import opened Deliveries
  import opened Termination
  import opened Allocator
  import opened AllocatorRuns

  // ----- steps that leave a database settled -----

  /** Every step but a failed delivery of a row that moves stock, which would set it back in the queue. */
  predicate CalmStep(db: Db, step: Step) {
    step.DeliveryFailed? && step.i in db.outbox ==> !MovesStock(db.outbox[step.i].event)
  }

  /** Rows that move stock are published or unchanged; at most one row is new, and may run at once. */
  ghost predicate Settling(a: Db, b: Db, n: Id) {
    && (forall j | j in a.outbox :: j in b.outbox && b.outbox[j].event == a.outbox[j].event)
    && (forall j | j in a.outbox && MovesStock(a.outbox[j].event) ::
          b.outbox[j] == a.outbox[j] || b.outbox[j].status.Published?)
    && (forall j | j in b.outbox && j !in a.outbox :: j == n && b.outbox[n].nextAttemptAt.None?)
    && a.inbox <= b.inbox
  }

  lemma SettlingKeeps(a: Db, b: Db, n: Id, now: int)
    requires Settled(a, now) && Settling(a, b, n)
    ensures Settled(b, now)
  {
    forall j | j in b.outbox && Queued(b, j) ensures Ready(b.outbox[j], now) {
      if j in a.outbox {
        assert Queued(a, j);
      }
    }
  }

  lemma HandlingSettles(cfg: Config, db: Db, i: Id, forced: bool, ch: Choice)
    requires Sound(cfg, db) && Enabled(cfg, db, EventHandled(i, forced, ch))
    ensures Settling(db, Next(cfg, db, EventHandled(i, forced, ch)), ch.eventId)
  {
    hide Handle, LinkAdded, Runnable, Sound, Finished;
    HandledCases(cfg, db, i, forced, ch);
    if !Processed(ShapeOf(db), i) {
      if Ends(db.outbox[i].event.etype) {
        HandlerFinishes(cfg, db, i, forced, ch);
      } else {
        LinkShape(db, Next(cfg, db, EventHandled(i, forced, ch)), i, ch);
      }
    }
  }

  lemma StepKeepsSettled(cfg: Config, db: Db, step: Step, now: int)
    requires Sound(cfg, db) && Enabled(cfg, db, step) && CalmStep(db, step) && Settled(db, now)
    ensures Settled(Next(cfg, db, step), now)
  {
    hide Handle, AfterFailure, Sound, Settled, Created;
    var after := Next(cfg, db, step);
    match step {
      case StockAdded(_, _) =>
      case ResponseStored(_, _, _) =>
      case OrderPlaced(_, _, _, _, ch) => PlacementSettles(cfg, db, step);
      case EventHandled(i, forced, ch) => HandlingSettles(cfg, db, i, forced, ch);
      case EventPublished(i) =>
      case DeliveryFailed(i, ch) => FailureSettles(cfg, db, i, ch);
      case LetterReplayed(d, ch) =>
    }
    var n := if step.OrderPlaced? || step.EventHandled? || step.LetterReplayed? then step.ch.eventId else 0;
    SettlingKeeps(db, after, n, now);
  }

  lemma PlacementSettles(cfg: Config, db: Db, step: Step)
    requires step.OrderPlaced? && Enabled(cfg, db, step)
    ensures Settling(db, Next(cfg, db, step), step.ch.eventId)
  {
    hide ValidRequest, Created, Settling;
    var start := if step.use.Some? then WithKey(db, step.use.value.key, step.use.value.hash, step.ch.now) else db;
    assert start == db.(keys := start.keys);
    CreationSettles(db, start, step.order, step.items, step.correlation, step.ch);
  }

  lemma CreationSettles(db: Db, start: Db, order: Id, items: seq<Item>, correlation: Id, ch: Choice)
    requires AllStocked(start.inventory, items) && ch.eventId !in db.outbox && start == db.(keys := start.keys)
    ensures Settling(db, Created(start, order, items, correlation, ch), ch.eventId)
  {
    hide Priced;
  }

  lemma FailureSettles(cfg: Config, db: Db, i: Id, ch: Choice)
    requires Sound(cfg, db) && Enabled(cfg, db, DeliveryFailed(i, ch)) && !MovesStock(db.outbox[i].event)
    ensures forall n :: Settling(db, Next(cfg, db, DeliveryFailed(i, ch)), n)
  {
    hide Handle, AfterFailure, Sound, NextAttemptNumber;
    FailureIsClean(cfg, db, i, ch);
    FailureWrites(cfg, db, i, ch);
  }

  // ----- calm runs -----

  /** Every step of the run is calm where it is taken. */
  predicate CalmRun(cfg: Config, db: Db, run: seq<Step>)
    requires Valid(cfg, db, run)
    decreases |run|
  {
    run != [] ==>
      var front := run[..|run| - 1];
      CalmRun(cfg, db, front) && CalmStep(After(cfg, db, front), run[|run| - 1])
  }

  lemma {:induction false} CalmRunKeepsSettled(cfg: Config, db: Db, run: seq<Step>, now: int)
    requires Sound(cfg, db) && Settled(db, now) && Valid(cfg, db, run) && CalmRun(cfg, db, run)
    ensures Settled(After(cfg, db, run), now)
    decreases |run|
  {
    hide Sound, Settled, Enabled, Next, CalmStep;
    if run != [] {
      var front := run[..|run| - 1];
      CalmRunKeepsSettled(cfg, db, front, now);
      ReachableIsSound(cfg, db, front);
      StepKeepsSettled(cfg, After(cfg, db, front), run[|run| - 1], now);
    }
  }

  ghost predicate CalmlyReaches(cfg: Config, a: Db, b: Db) {
    exists run :: CalmRunTo(cfg, a, run, b)
  }

  predicate CalmRunTo(cfg: Config, a: Db, run: seq<Step>, b: Db) {
    Valid(cfg, a, run) && CalmRun(cfg, a, run) && After(cfg, a, run) == b
  }

  lemma {:induction false} CalmRunsCompose(cfg: Config, a: Db, r1: seq<Step>, r2: seq<Step>)
    requires Valid(cfg, a, r1) && CalmRun(cfg, a, r1)
    requires Valid(cfg, After(cfg, a, r1), r2) && CalmRun(cfg, After(cfg, a, r1), r2)
    ensures Valid(cfg, a, r1 + r2) && CalmRun(cfg, a, r1 + r2)
    decreases |r2|
  {
    hide Enabled, Next, CalmStep;
    RunsCompose(cfg, a, r1, r2);
    if r2 == [] {
      assert r1 + r2 == r1;
    } else {
      var front := r2[..|r2| - 1];
      CalmRunsCompose(cfg, a, r1, front);
      RunsCompose(cfg, a, r1, front);
      assert (r1 + r2)[..|r1 + r2| - 1] == r1 + front;
    }
  }

  lemma CalmlyTrans(cfg: Config, a: Db, b: Db, c: Db)
    requires CalmlyReaches(cfg, a, b) && CalmlyReaches(cfg, b, c)
    ensures CalmlyReaches(cfg, a, c)
  {
    hide Valid, After, CalmRun;
    var r1 :| CalmRunTo(cfg, a, r1, b);
    var r2 :| CalmRunTo(cfg, b, r2, c);
    RunsCompose(cfg, a, r1, r2);
    CalmRunsCompose(cfg, a, r1, r2);
    assert CalmRunTo(cfg, a, r1 + r2, c);
  }

  lemma CalmlyRefl(cfg: Config, a: Db)
    ensures CalmlyReaches(cfg, a, a)
  {
    assert CalmRunTo(cfg, a, [], a);
  }

  /** What a calmly reached database inherits. */
  lemma CalmlyReachedIsSettled(cfg: Config, a: Db, b: Db, now: int, later: int)
    requires Sound(cfg, a) && Ledger(cfg, a) && Settled(a, now) && now <= later && CalmlyReaches(cfg, a, b)
    ensures Sound(cfg, b) && Ledger(cfg, b) && Settled(b, later)
  {
    hide Valid, After, CalmRun, Sound, Ledger;
    var run :| CalmRunTo(cfg, a, run, b);
    ReachableIsSound(cfg, a, run);
    ReachableLedger(cfg, a, run);
    CalmRunKeepsSettled(cfg, a, run, now);
  }

  // ----- a call is calm, wherever it stops -----

  /** The steps of an undisturbed delivery are calm: only rejections fail, and they move no stock. */
  lemma DeliveryIsCalm(cfg: Config, db: Db, i: Id, ch: Choice)
    requires Sound(cfg, db) && Deliverable(cfg, db, i, ch)
    ensures forall c | c in Commits(cfg, db, i, ch) :: CalmlyReaches(cfg, db, c)
    ensures CalmlyReaches(cfg, db, Deliver(cfg, db, i, ch))
  {
    hide Handle, Deliver, Commits, Valid, After, CalmRun, AfterFailure, CalmlyReaches;
    DeliveryIsRun(cfg, db, i, ch);
    OnlyRejectionsFail(cfg, db, i, ch);
    var steps, commits := DeliverySteps(cfg, db, i, ch), Commits(cfg, db, i, ch);
    forall n | 0 <= n < |steps| ensures CalmlyReaches(cfg, db, commits[n]) {
      var part := steps[..n + 1];
      assert LeadsTo(cfg, db, steps, n, commits[n]);
      StepsAreCalm(cfg, db, part, i);
      CalmRunReaches(cfg, db, part, commits[n]);
    }
    assert steps[..|steps|] == steps && |steps| > 0;
  }

  lemma CalmRunReaches(cfg: Config, a: Db, run: seq<Step>, b: Db)
    requires Valid(cfg, a, run) && CalmRun(cfg, a, run) && After(cfg, a, run) == b
    ensures CalmlyReaches(cfg, a, b)
  {
    hide Valid, After, CalmRun;
    assert CalmRunTo(cfg, a, run, b);
  }

  /** A run of at most two steps that fails nothing but, at once, a row that moves no stock. */
  lemma StepsAreCalm(cfg: Config, db: Db, run: seq<Step>, i: Id)
    requires Valid(cfg, db, run) && 1 <= |run| <= 2 && i in db.outbox
    requires |run| == 2 ==> !run[0].DeliveryFailed? && !run[1].DeliveryFailed?
    requires run[0].DeliveryFailed? ==> run[0].i == i && !MovesStock(db.outbox[i].event)
    ensures CalmRun(cfg, db, run)
  {
    hide Enabled, Next;
    NoSteps(cfg, db);
    assert run[..0] == [] && run[..1] == [run[0]] && run[..1][..0] == [];
    assert CalmRun(cfg, db, []);
    assert CalmRun(cfg, db, run[..1]);
    if |run| == 2 {
      assert run[..|run| - 1] == run[..1];
    } else {
      assert run == run[..1];
    }
  }

  lemma {:induction false} BatchIsCalm(cfg: Config, db: Db, ids: seq<Id>, env: nat -> Choice, k: nat, j: nat, now: int)
    requires InBatch(cfg, db, ids, env, k, 0, now) && j <= |ids| && Monotone(env) && At(env, k).now >= now
    requires CalmEnv(cfg, env) && forall i | i in ids :: i in db.outbox
    ensures CalmlyReaches(cfg, db, DeliverAll(cfg, db, ids[..j], env, k))
    ensures forall c | c in CommitsAll(cfg, db, ids[..j], env, k) :: CalmlyReaches(cfg, db, c)
    decreases j
  {
    hide Deliver, Commits, Sound, Ledger, CalmlyReaches, InBatch, DeliverAll, CommitsAll, Monotone, Reaches;
    if j == 0 {
      CalmlyRefl(cfg, db);
      assert ids[..0] == [];
      NothingDelivered(cfg, db, env, k);
    } else {
      var prev := j - 1;
      BatchIsCalm(cfg, db, ids, env, k, prev, now);
      BatchReaches(cfg, db, ids, env, k, prev, now);
      OneMore(cfg, db, ids, env, k, prev);
      var part := DeliverAll(cfg, db, ids[..prev], env, k);
      DeliverableInBatch(cfg, part, ids, env, k, prev, now);
      assert Undisturbed(cfg, At(env, k + prev));
      DeliveryIsCalm(cfg, part, ids[prev], At(env, k + prev));
      CalmlyTrans(cfg, db, part, DeliverAll(cfg, db, ids[..j], env, k));
      forall c | c in Commits(cfg, part, ids[prev], At(env, k + prev)) ensures CalmlyReaches(cfg, db, c) {
        CalmlyTrans(cfg, db, part, c);
      }
    }
  }

  /** Whatever an undisturbed call commits, and where it ends, idle or not, is reached by a calm run. */
  lemma {:induction false} CallIsCalm(cfg: Config, db: Db, limit: nat, env: nat -> Choice, total: nat, batches: nat)
    requires Sound(cfg, db) && Ledger(cfg, db) && FreshFrom(env, total, db) && Monotone(env) && CalmEnv(cfg, env)
    ensures CalmlyReaches(cfg, db, UntilIdle(cfg, db, limit, env, total, batches).db)
    ensures forall c | c in CallCommits(cfg, db, limit, env, total, batches) :: CalmlyReaches(cfg, db, c)
    decreases batches
  {
    hide Deliver, Sound, Ledger, CalmlyReaches, DeliverAll, CommitsAll,
         Fetch, FreshFrom, Monotone, CalmEnv, InBatch, Reaches;
    var ids := Fetch(db, At(env, total).now, limit);
    CalmlyRefl(cfg, db);
    if batches > 0 && ids != [] {
      var after, next, left := DeliverAll(cfg, db, ids, env, total), total + |ids|, batches - 1;
      FetchStartsBatch(cfg, db, limit, env, total);
      BatchIsCalm(cfg, db, ids, env, total, |ids|, At(env, total).now);
      assert ids[..|ids|] == ids;
      BatchIsRun(cfg, db, limit, env, total);
      CallIsCalm(cfg, after, limit, env, next, left);
      CalmlyTrans(cfg, db, after, UntilIdle(cfg, after, limit, env, next, left).db);
      forall c | c in CallCommits(cfg, after, limit, env, next, left) ensures CalmlyReaches(cfg, db, c) {
        CalmlyTrans(cfg, db, after, c);
      }
    }
  }

  /** What a call can leave behind: where it ends, idle or out of batches, or after a crash any copy it committed, or
      the one it started from. */
  ghost predicate LeftBehind(cfg: Config, start: Db, limit: nat, env: nat -> Choice, batches: nat, left: Db) {
    || left == start || left in CallCommits(cfg, start, limit, env, 0, batches)
    || left == UntilIdle(cfg, start, limit, env, 0, batches).db
  }

  /** All of that is settled again, then and later. */
  lemma CallLeavesSettled(cfg: Config, start: Db, limit: nat, env: nat -> Choice, batches: nat, left: Db, later: int)
    requires CalmCall(cfg, start, limit, env) && LeftBehind(cfg, start, limit, env, batches, left)
    requires later >= At(env, 0).now
    ensures Sound(cfg, left) && Ledger(cfg, left) && Settled(left, later)
  {
    hide Sound, Ledger, Settled, CalmlyReaches, CallCommits, UntilIdle, FreshFrom, Monotone, CalmEnv;
    CallIsCalm(cfg, start, limit, env, 0, batches);
    CalmlyRefl(cfg, start);
    CalmlyReachedIsSettled(cfg, start, left, At(env, 0).now, later);
  }

  /** A crash at any commit, or a call that gave up: the next call starts from there and is greedy. */
  lemma RestartIsGreedy(cfg: Config, start: Db, limit: nat, env: nat -> Choice, batches: nat, left: Db,
                        limit': nat, env': nat -> Choice, batches': nat)
    requires CalmCall(cfg, start, limit, env) && LeftBehind(cfg, start, limit, env, batches, left)
    requires FreshFrom(env', 0, left) && Monotone(env') && CalmEnv(cfg, env') && limit' >= 1
    requires At(env', 0).now >= At(env, 0).now && UntilIdle(cfg, left, limit', env', 0, batches').idle
    ensures GreedyOutcome(left, UntilIdle(cfg, left, limit', env', 0, batches').db, At(env', 0).now)
  {
    hide Sound, Ledger, Settled, LeftBehind, UntilIdle, FreshFrom, Monotone, CalmEnv, GreedyOutcome;
    CallLeavesSettled(cfg, start, limit, env, batches, left, At(env', 0).now);
    IdleRefinesGreedy(cfg, left, limit', env', batches');
  }

  // ----- how far a call that stops has come -----

  /** The stock after some first part of the queue. */
  ghost predicate PartlyGreedy(start: Db, db: Db) {
    exists k :: ServedPrefix(start, db, k)
  }

  ghost predicate ServedPrefix(start: Db, db: Db, k: nat) {
    k <= |Queue(start)| && db.inventory == GreedyStock(start.inventory, MovesOf(start, Queue(start))[..k])
  }

  lemma AlongIsPartlyGreedy(cfg: Config, start: Db, db: Db, k: nat, first: int)
    requires Along(cfg, start, db, Queue(start), k, first)
    ensures PartlyGreedy(start, db)
  {
    hide GreedyStock, MovesOf, Queue, Sound, Ledger, Settled, Keeps, Calm;
    assert ServedPrefix(start, db, k);
  }

  lemma SameStockPartlyGreedy(start: Db, a: Db, b: Db)
    requires PartlyGreedy(start, a) && b.inventory == a.inventory
    ensures PartlyGreedy(start, b)
  {
    hide GreedyStock, MovesOf, Queue;
    var k :| ServedPrefix(start, a, k);
    assert ServedPrefix(start, b, k);
  }

  lemma {:induction false} BatchIsPartlyGreedy(cfg: Config, start: Db, fetched: Db, q: seq<Id>, kF: nat, first: int,
                                               limit: nat, env: nat -> Choice, at: nat, j: nat)
    requires CalmBatch(cfg, start, fetched, q, kF, first, env, at)
    requires j <= |Fetch(fetched, At(env, at).now, limit)|
    ensures forall c | c in CommitsAll(cfg, fetched, Fetch(fetched, At(env, at).now, limit)[..j], env, at) ::
              PartlyGreedy(start, c)
    decreases j
  {
    hide Fetch, CalmBatch, PartlyGreedy, CommitsAll, DeliverAll, AlongAt;
    var ids := Fetch(fetched, At(env, at).now, limit);
    if j == 0 {
      assert ids[..0] == [];
      NothingDelivered(cfg, fetched, env, at);
    } else {
      var prev := j - 1;
      BatchIsPartlyGreedy(cfg, start, fetched, q, kF, first, limit, env, at, prev);
      OneMore(cfg, fetched, ids, env, at, prev);
      var part, more := DeliverAll(cfg, fetched, ids[..prev], env, at), DeliverAll(cfg, fetched, ids[..j], env, at);
      var k := AlongBatch(cfg, start, fetched, q, kF, first, limit, env, at, j);
      BatchPartlyGreedy(cfg, start, fetched, q, kF, first, limit, env, at, j, k);
      forall c | c in Commits(cfg, part, ids[prev], At(env, at + prev)) ensures PartlyGreedy(start, c) {
        SameStockPartlyGreedy(start, more, c);
      }
    }
  }

  lemma BatchPartlyGreedy(cfg: Config, start: Db, fetched: Db, q: seq<Id>, kF: nat, first: int, limit: nat,
                          env: nat -> Choice, at: nat, j: nat, k: nat)
    requires CalmBatch(cfg, start, fetched, q, kF, first, env, at)
    requires AlongAt(cfg, start, fetched, q, kF, first, limit, env, at, j, k)
    ensures PartlyGreedy(start, DeliverAll(cfg, fetched, Fetch(fetched, At(env, at).now, limit)[..j], env, at))
  {
    hide Fetch, DeliverAll, Along, Queue, FreshFrom, Monotone, CalmEnv, PartlyGreedy;
    AlongIsPartlyGreedy(cfg, start,
                        DeliverAll(cfg, fetched, Fetch(fetched, At(env, at).now, limit)[..j], env, at), k, first);
  }

  lemma {:induction false} CallIsPartlyGreedy(cfg: Config, start: Db, db: Db, q: seq<Id>, k: nat, first: int,
                                              limit: nat, env: nat -> Choice, done: nat, batches: nat)
    requires CalmBatch(cfg, start, db, q, k, first, env, done)
    ensures forall c | c in CallCommits(cfg, db, limit, env, done, batches) :: PartlyGreedy(start, c)
    ensures PartlyGreedy(start, UntilIdle(cfg, db, limit, env, done, batches).db)
    decreases batches
  {
    hide Deliver, DeliverAll, Fetch, CalmBatch, PartlyGreedy, CommitsAll;
    var ids := Fetch(db, At(env, done).now, limit);
    BatchStartPartlyGreedy(cfg, start, db, q, k, first, env, done);
    if batches > 0 && ids != [] {
      var after, next, left := DeliverAll(cfg, db, ids, env, done), done + |ids|, batches - 1;
      var head := AlongWholeBatch(cfg, start, db, q, k, first, limit, env, done, next);
      BatchIsPartlyGreedy(cfg, start, db, q, k, first, limit, env, done, |ids|);
      assert ids[..|ids|] == ids;
      CallIsPartlyGreedy(cfg, start, after, q, head, first, limit, env, next, left);
    }
  }

  lemma BatchStartPartlyGreedy(cfg: Config, start: Db, db: Db, q: seq<Id>,
                               k: nat, first: int, env: nat -> Choice, at: nat)
    requires CalmBatch(cfg, start, db, q, k, first, env, at)
    ensures PartlyGreedy(start, db)
  {
    hide Along, Queue, FreshFrom, Monotone, CalmEnv, PartlyGreedy;
    AlongIsPartlyGreedy(cfg, start, db, k, first);
  }

  /** Wherever a call stops, it has served some first part of the queue as the reference does. */
  lemma LeftBehindIsPartlyGreedy(cfg: Config, start: Db, limit: nat, env: nat -> Choice, batches: nat, left: Db)
    requires CalmCall(cfg, start, limit, env) && LeftBehind(cfg, start, limit, env, batches, left)
    ensures PartlyGreedy(start, left)
  {
    hide Sound, Ledger, Settled, CallCommits, UntilIdle, FreshFrom, Monotone, CalmEnv, PartlyGreedy, Along, Queue;
    AlongFromStart(cfg, start, At(env, 0).now);
    BatchStartPartlyGreedy(cfg, start, start, Queue(start), 0, At(env, 0).now, env, 0);
    CallIsPartlyGreedy(cfg, start, start, Queue(start), 0, At(env, 0).now, limit, env, 0, batches);
  }

  // ----- one call after another -----

  /** What happens between two calls, what the next call is given, and what it leaves. */
  datatype Shift = Shift(between: seq<Step>, limit: nat, env: nat -> Choice, batches: nat, left: Db)

  ghost predicate ShiftOk(cfg: Config, db: Db, shift: Shift) {
    && Valid(cfg, db, shift.between)
    && var start := After(cfg, db, shift.between);
       && Settled(start, At(shift.env, 0).now)
       && FreshFrom(shift.env, 0, start) && Monotone(shift.env) && CalmEnv(cfg, shift.env) && shift.limit >= 1
       && LeftBehind(cfg, start, shift.limit, shift.env, shift.batches, shift.left)
  }

  /** The call returned, and what it left is where it ended. */
  ghost predicate ReturnedIdle(cfg: Config, start: Db, shift: Shift) {
    UntilIdle(cfg, start, shift.limit, shift.env, 0, shift.batches)
    == IdleRun(shift.left, TotalOf(cfg, start, shift), true)
  }

  ghost function TotalOf(cfg: Config, start: Db, shift: Shift): nat {
    UntilIdle(cfg, start, shift.limit, shift.env, 0, shift.batches).total
  }

  function StartOf(cfg: Config, db: Db, shift: Shift): Db
    requires Valid(cfg, db, shift.between)
  {
    After(cfg, db, shift.between)
  }

  ghost predicate Shifts(cfg: Config, db: Db, shifts: seq<Shift>)
    decreases |shifts|
  {
    shifts != [] ==>
      var front := shifts[..|shifts| - 1];
      Shifts(cfg, db, front) && ShiftOk(cfg, ShiftsEnd(db, front), shifts[|shifts| - 1])
  }

  function ShiftsEnd(db: Db, shifts: seq<Shift>): Db {
    if shifts == [] then db else shifts[|shifts| - 1].left
  }

  /** One shift: greedy as far as it comes, greedy to the end if the call returns, and fit to be followed by another. */
  ghost predicate ShiftOutcome(cfg: Config, db: Db, shift: Shift)
    requires Valid(cfg, db, shift.between)
  {
    var start, now := StartOf(cfg, db, shift), At(shift.env, 0).now;
    && PartlyGreedy(start, shift.left) && (ReturnedIdle(cfg, start, shift) ==> GreedyOutcome(start, shift.left, now))
    && forall later | later >= now :: Settled(shift.left, later)
  }

  lemma ShiftIsGreedy(cfg: Config, db: Db, shift: Shift)
    requires Sound(cfg, db) && Ledger(cfg, db) && ShiftOk(cfg, db, shift)
    ensures Sound(cfg, shift.left) && Ledger(cfg, shift.left) && ShiftOutcome(cfg, db, shift)
  {
    hide Sound, Ledger, GreedyOutcome, UntilIdle, Valid, After, FreshFrom, Monotone, CalmEnv, LeftBehind, PartlyGreedy;
    var start, now := StartOf(cfg, db, shift), At(shift.env, 0).now;
    ReachableIsSound(cfg, db, shift.between);
    ReachableLedger(cfg, db, shift.between);
    CallLeavesSettled(cfg, start, shift.limit, shift.env, shift.batches, shift.left, now);
    LeftBehindIsPartlyGreedy(cfg, start, shift.limit, shift.env, shift.batches, shift.left);
    if ReturnedIdle(cfg, start, shift) {
      IdleRefinesGreedy(cfg, start, shift.limit, shift.env, shift.batches);
    }
  }

  /** Anything at all and dispatcher calls in turn, from an empty system and for ever, calls that return, give up or
      crash at any commit: each is greedy over what it finds waiting as far as it comes. */
  lemma {:induction false} EveryShiftIsGreedy(cfg: Config, db: Db, shifts: seq<Shift>)
    requires Initial(db) && Shifts(cfg, db, shifts)
    ensures Sound(cfg, ShiftsEnd(db, shifts)) && Ledger(cfg, ShiftsEnd(db, shifts))
    ensures shifts != [] ==>
              var before, last := ShiftsEnd(db, shifts[..|shifts| - 1]), shifts[|shifts| - 1];
              Valid(cfg, before, last.between) && ShiftOutcome(cfg, before, last)
    decreases |shifts|
  {
    hide Sound, Ledger, ShiftOutcome;
    if shifts == [] {
      NoSteps(cfg, db);
      ReachableFromInitial(cfg, db, []);
    } else {
      var front := shifts[..|shifts| - 1];
      EveryShiftIsGreedy(cfg, db, front);
      ShiftIsGreedy(cfg, ShiftsEnd(db, front), shifts[|shifts| - 1]);
    }
  }

  /** The next call may start after any calm run, hence after anything but a failed delivery of a waiting row. */
  lemma NextCallMayStart(cfg: Config, db: Db, shift: Shift, between: seq<Step>, later: int)
    requires Sound(cfg, db) && Ledger(cfg, db) && ShiftOk(cfg, db, shift) && later >= At(shift.env, 0).now
    requires Valid(cfg, shift.left, between) && CalmRun(cfg, shift.left, between)
    ensures Settled(After(cfg, shift.left, between), later)
  {
    hide Sound, Ledger, Settled, ShiftOk, Valid, After, CalmRun, PartlyGreedy, ReturnedIdle, GreedyOutcome;
    assert Valid(cfg, db, shift.between) by { ShiftRuns(cfg, db, shift); }
    ShiftIsGreedy(cfg, db, shift);
    CalmRunKeepsSettled(cfg, shift.left, between, later);
  }

  lemma ShiftRuns(cfg: Config, db: Db, shift: Shift)
    requires ShiftOk(cfg, db, shift)
    ensures Valid(cfg, db, shift.between)
  {
  }

  predicate IsRequest(step: Step) {
    step.StockAdded? || step.OrderPlaced? || step.ResponseStored?
  }

  lemma {:induction false} RequestsAreCalm(cfg: Config, db: Db, run: seq<Step>)
    requires Valid(cfg, db, run) && forall step | step in run :: IsRequest(step)
    ensures CalmRun(cfg, db, run)
    decreases |run|
  {
    hide Enabled, Next;
    if run != [] {
      assert run[|run| - 1] in run;
      RequestsAreCalm(cfg, db, run[..|run| - 1]);
    }
  }

  /** The same as the dispatcher is run: with an empty mapping, and an environment without raising bodies. */
  lemma EmptyMappingIsGreedy(backoff: int, maxAttempts: int, start: Db, limit: nat, env: nat -> Choice, batches: nat)
    requires var cfg := Config({}, backoff, maxAttempts);
             Sound(cfg, start) && Ledger(cfg, start) && Measure(cfg, start) < batches
    requires Settled(start, At(env, 0).now) && FreshFrom(env, 0, start) && Monotone(env) && limit >= 1
    requires forall n: nat :: !At(env, n).fault
    ensures var run := UntilIdle(Config({}, backoff, maxAttempts), start, limit, env, 0, batches);
            run.idle && GreedyOutcome(start, run.db, At(env, 0).now)
  {
    hide Sound, Ledger, UntilIdle, FreshFrom, Monotone, Measure, GreedyOutcome, Settled;
    RefinesGreedy(Config({}, backoff, maxAttempts), start, limit, env, batches);
  }

  lemma EmptyMappingAfterRequests(backoff: int, maxAttempts: int, db: Db, run: seq<Step>, limit: nat,
                                  env: nat -> Choice, batches: nat)
    requires var cfg := Config({}, backoff, maxAttempts);
             && Initial(db) && Valid(cfg, db, run) && Measure(cfg, After(cfg, db, run)) < batches
             && FreshFrom(env, 0, After(cfg, db, run))
    requires (forall step | step in run :: IsRequest(step)) && Monotone(env) && limit >= 1
    requires forall n: nat :: !At(env, n).fault
    ensures var cfg := Config({}, backoff, maxAttempts);
            var start := After(cfg, db, run);
            var whole := UntilIdle(cfg, start, limit, env, 0, batches);
            whole.idle && GreedyOutcome(start, whole.db, At(env, 0).now)
  {
    hide UntilIdle, Valid, After, FreshFrom, Monotone, Measure, GreedyOutcome, IsRequest, Initial;
    PlacedThenDispatched(Config({}, backoff, maxAttempts), db, run, limit, env, batches);
  }

  /** The first call: requests place orders in an empty system, and a call with a budget above the measure ends idle
      with the greedy outcome. */
  lemma PlacedThenDispatched(cfg: Config, db: Db, run: seq<Step>, limit: nat, env: nat -> Choice, batches: nat)
    requires Initial(db) && Valid(cfg, db, run) && forall step | step in run :: IsRequest(step)
    requires FreshFrom(env, 0, After(cfg, db, run)) && Monotone(env) && CalmEnv(cfg, env)
    requires limit >= 1 && Measure(cfg, After(cfg, db, run)) < batches
    ensures var start := After(cfg, db, run);
            var whole := UntilIdle(cfg, start, limit, env, 0, batches);
            whole.idle && GreedyOutcome(start, whole.db, At(env, 0).now)
  {
    hide Sound, Ledger, UntilIdle, Valid, After, CalmRun, FreshFrom,
         Monotone, CalmEnv, Measure, GreedyOutcome, IsRequest;
    ReachableFromInitial(cfg, db, run);
    InitialIsSound(cfg, db);
    RequestsAreCalm(cfg, db, run);
    CalmRunKeepsSettled(cfg, db, run, At(env, 0).now);
    RefinesGreedy(cfg, After(cfg, db, run), limit, env, batches);
  }
}
