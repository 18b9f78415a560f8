/** Keyed order creation over whole runs: at most one order per key and validity window, and whose response a
    retry is given. */
module KeyedCreation {
  import opened Tables
  import opened EventsRepository
  import opened Inbox
  import opened Dispatcher
  import opened Idempotency
  import opened Orders
  import opened Saga
  import opened Business
  import opened Soundness
  import opened Guarantees

  /** How long a reservation is valid, in seconds. */
  const A_DAY := 86_400

  predicate Keyed(step: Step) {
    step.OrderPlaced? && step.use.Some?
  }

  predicate Uses(step: Step, key: string) {
    Keyed(step) && step.use.value.key == key
  }

  /** The request at step i is the last to have created an order under the key. */
  ghost predicate Holder(run: seq<Step>, key: string, i: nat) {
    i < |run| && Uses(run[i], key) && forall j | i < j < |run| :: !Uses(run[j], key)
  }

  /** The key row is the one the request wrote. */
  ghost predicate RowOf(db: Db, key: string, step: Step)
    requires Uses(step, key)
  {
    && key in db.keys && step.order in db.orders
    && db.keys[key].hash == step.use.value.hash && db.keys[key].expiresAt == step.ch.now + A_DAY
  }

  ghost predicate LastTaken(db: Db, run: seq<Step>, key: string) {
    exists i: nat :: Holder(run, key, i) && RowOf(db, key, run[i])
  }

  // ----- what a step does to the keys -----

  /** Only creations and stored responses write keys, and a stored response leaves hash and expiry alone. */
  lemma StepWritesKeys(cfg: Config, db: Db, step: Step)
    requires Enabled(cfg, db, step)
    ensures var after := Next(cfg, db, step);
            match step
            case OrderPlaced(order, _, _, use, ch) =>
              order in after.orders
              && after.keys == (if use.None? then db.keys
                                else db.keys[use.value.key := KeyRow(use.value.hash, ch.now + A_DAY, None)])
            case ResponseStored(key, order, _) =>
              order in db.orders && key in db.keys
              && after.keys == db.keys[key := db.keys[key].(
                   response := Some(OrderRead(order, Order(OrderPending, db.orders[order].lines))))]
            case _ => after.keys == db.keys
  {
    hide AfterFailure, Body;
    match step {
      case EventHandled(i, forced, ch) => BodyLeaves(db, Delivered(db, i, forced), ch);
      case DeliveryFailed(i, ch) =>
        BodyLeaves(db, EnvelopeOf(db, i), ch);
        FailureLeavesKeys(cfg, HandleRow(cfg, db, i, ch).db, i, ch);
      case _ =>
    }
  }

  lemma FailureLeavesKeys(cfg: Config, db: Db, i: Id, ch: Choice)
    requires i in db.outbox
    ensures AfterFailure(cfg, db, i, ch).keys == db.keys
  {
    hide AfterFailure, NextAttemptNumber;
    FailureWrites(cfg, db, i, ch);
  }

  lemma OrdersStay(cfg: Config, db: Db, step: Step)
    requires Sound(cfg, db) && Enabled(cfg, db, step)
    ensures forall o | o in db.orders ::
              o in Next(cfg, db, step).orders && Next(cfg, db, step).orders[o].lines == db.orders[o].lines
  {
    hide Next, Enabled, Sound;
    StepKeeps(cfg, db, step);
  }

  lemma HolderGrows(run: seq<Step>, key: string, i: nat)
    requires run != []
    requires var last := |run| - 1;
             if Uses(run[last], key) then i == last else Holder(run[..last], key, i)
    ensures Holder(run, key, i)
  {
  }

  // ----- every key row belongs to one creation -----

  /** A committed key row comes with its order: it is the row the last creation under the key wrote, in the
      transaction that wrote the order. */
  lemma {:induction false} KeysTellCreations(cfg: Config, db: Db, run: seq<Step>)
    requires Initial(db) && Valid(cfg, db, run)
    ensures forall key | key in After(cfg, db, run).keys :: LastTaken(After(cfg, db, run), run, key)
    decreases |run|
  {
    hide Enabled, Next, Sound, LastTaken;
    if run != [] {
      var n := |run| - 1;
      var front, step := run[..n], run[n];
      var before, after := After(cfg, db, front), After(cfg, db, run);
      KeysTellCreations(cfg, db, front);
      InitialIsSound(cfg, db);
      ReachableIsSound(cfg, db, front);
      OrdersStay(cfg, before, step);
      forall key | key in after.keys ensures LastTaken(after, run, key) {
        KeyStaysHeld(cfg, before, after, front, step, run, key);
      }
    }
  }

  /** A key that was used has a row. */
  lemma {:induction false} UsedKeyHasRow(cfg: Config, db: Db, run: seq<Step>, key: string, i: nat)
    requires Valid(cfg, db, run) && i < |run| && Uses(run[i], key)
    ensures key in After(cfg, db, run).keys
    decreases |run|
  {
    hide Enabled, Next;
    var n := |run| - 1;
    StepWritesKeys(cfg, After(cfg, db, run[..n]), run[n]);
    if i < n {
      UsedKeyHasRow(cfg, db, run[..n], key, i);
    }
  }

  lemma KeyStaysHeld(cfg: Config, before: Db, after: Db, front: seq<Step>, step: Step, run: seq<Step>, key: string)
    requires run == front + [step] && Enabled(cfg, before, step) && after == Next(cfg, before, step)
    requires key in after.keys && (key in before.keys ==> LastTaken(before, front, key))
    requires forall o | o in before.orders :: o in after.orders
    ensures LastTaken(after, run, key)
  {
    hide Enabled, Next;
    StepWritesKeys(cfg, before, step);
    assert run[..|run| - 1] == front;
    if Uses(step, key) {
      HolderGrows(run, key, |front|);
      assert RowOf(after, key, run[|front|]);
    } else {
      var i: nat :| Holder(front, key, i) && RowOf(before, key, front[i]);
      HolderGrows(run, key, i);
      assert RowOf(after, key, run[i]);
    }
  }

  // ----- at most once per window -----

  /** Two creations under one key are a whole validity period apart, crashes or not: the second is enabled only
      on an expired row. */
  lemma {:induction false} OncePerWindow(cfg: Config, db: Db, run: seq<Step>, key: string, i: nat, j: nat)
    requires Initial(db) && Valid(cfg, db, run) && i < j < |run| && Uses(run[i], key) && Uses(run[j], key)
    ensures run[j].ch.now >= run[i].ch.now + A_DAY
    decreases j - i
  {
    hide Next, Valid, After;
    OneStep(cfg, db, run, j);
    var part := run[..j];
    KeysTellCreations(cfg, db, part);
    assert part[i] == run[i];
    UsedKeyHasRow(cfg, db, part, key, i);
    var h: nat :| Holder(part, key, h) && RowOf(After(cfg, db, part), key, part[h]);
    assert part[h] == run[h];
    if h > i {
      OncePerWindow(cfg, db, run, key, i, h);
    }
  }

  /** No clock reading after step i is later than t. */
  predicate ReadBy(run: seq<Step>, i: nat, t: int) {
    forall j | i < j < |run| && ClockOf(run[j]).Some? :: ClockOf(run[j]).value <= t
  }

  lemma HolderInWindow(cfg: Config, db: Db, run: seq<Step>, key: string, i: nat, t: int)
    requires Initial(db) && Valid(cfg, db, run) && i < |run| && Uses(run[i], key)
    requires t < run[i].ch.now + A_DAY && ReadBy(run, i, t)
    ensures Holder(run, key, i) && RowOf(After(cfg, db, run), key, run[i])
  {
    hide Valid, After;
    forall j | i < j < |run| ensures !Uses(run[j], key) {
      if Uses(run[j], key) {
        OncePerWindow(cfg, db, run, key, i, j);
      }
    }
    KeysTellCreations(cfg, db, run);
    UsedKeyHasRow(cfg, db, run, key, i);
    var h: nat :| Holder(run, key, h) && RowOf(After(cfg, db, run), key, run[h]);
  }

  /** A retry within the window never creates: another body conflicts; the same body is told to wait until a
      response is stored and is given a stored response from then on. */
  lemma RetryInWindow(cfg: Config, db: Db, run: seq<Step>, key: string, i: nat, hash: int, t: int)
    requires Initial(db) && Valid(cfg, db, run) && i < |run| && Uses(run[i], key)
    requires t < run[i].ch.now + A_DAY && ReadBy(run, i, t)
    ensures var start := StartOutcome(After(cfg, db, run), key, hash, t);
            && (start.Conflict? <==> hash != run[i].use.value.hash) && !start.Reserved?
            && (start.Stored? <==> hash == run[i].use.value.hash && exists n :: i < n < |run| && StoresFor(run[n], key))
  {
    hide Valid, After;
    HolderInWindow(cfg, db, run, key, i, t);
    ResponseSince(cfg, db, run, key, i);
  }

  /** A request may create an order exactly when the last creation under its key, if any, is a whole day old. */
  lemma FreeIffWindowOver(cfg: Config, db: Db, run: seq<Step>, key: string, hash: int, t: int)
    requires Initial(db) && Valid(cfg, db, run)
    ensures StartOutcome(After(cfg, db, run), key, hash, t).Reserved?
            <==> forall i | 0 <= i < |run| && Uses(run[i], key) :: t >= run[i].ch.now + A_DAY
  {
    hide Valid, After;
    KeysTellCreations(cfg, db, run);
    if key in After(cfg, db, run).keys {
      var h: nat :| Holder(run, key, h) && RowOf(After(cfg, db, run), key, run[h]);
      forall i | 0 <= i < |run| && Uses(run[i], key) ensures run[i].ch.now <= run[h].ch.now {
        if i < h {
          OncePerWindow(cfg, db, run, key, i, h);
        }
      }
    } else {
      forall i | 0 <= i < |run| ensures !Uses(run[i], key) {
        if Uses(run[i], key) {
          UsedKeyHasRow(cfg, db, run, key, i);
        }
      }
    }
  }

  predicate StoresFor(step: Step, key: string) {
    step.ResponseStored? && step.key == key
  }

  /** The row carries a response exactly when one was stored since the creation that holds the key. */
  lemma {:induction false} ResponseSince(cfg: Config, db: Db, run: seq<Step>, key: string, i: nat)
    requires Initial(db) && Valid(cfg, db, run) && Holder(run, key, i)
    ensures key in After(cfg, db, run).keys
    ensures After(cfg, db, run).keys[key].response.Some? <==> exists n :: i < n < |run| && StoresFor(run[n], key)
    decreases |run|
  {
    hide Enabled, Next;
    var n := |run| - 1;
    StepWritesKeys(cfg, After(cfg, db, run[..n]), run[n]);
    if i < n {
      ResponseSince(cfg, db, run[..n], key, i);
      if m :| i < m < n && StoresFor(run[..n][m], key) {
        assert StoresFor(run[m], key);
      }
    }
  }

  // ----- whose response is stored -----

  /** Step n stores the response of the request that created its order at step i. */
  predicate Stores(run: seq<Step>, n: nat, i: nat) {
    i < n < |run| && run[n].ResponseStored? && Uses(run[i], run[n].key) && run[i].order == run[n].order
  }

  lemma {:induction false} CreatedStays(cfg: Config, db: Db, run: seq<Step>, i: nat)
    requires Initial(db) && Valid(cfg, db, run) && i < |run| && run[i].OrderPlaced?
    ensures run[i].order in After(cfg, db, run).orders
    decreases |run|
  {
    hide Enabled, Next, Sound;
    var n := |run| - 1;
    var before := After(cfg, db, run[..n]);
    InitialIsSound(cfg, db);
    ReachableIsSound(cfg, db, run[..n]);
    OrdersStay(cfg, before, run[n]);
    if i < n {
      CreatedStays(cfg, db, run[..n], i);
    } else {
      StepWritesKeys(cfg, before, run[n]);
    }
  }

  lemma CreationsDiffer(cfg: Config, db: Db, run: seq<Step>, i: nat, j: nat)
    requires Initial(db) && Valid(cfg, db, run) && i < j < |run| && run[i].OrderPlaced? && run[j].OrderPlaced?
    ensures run[i].order != run[j].order
  {
    hide Next, Valid, After;
    OneStep(cfg, db, run, j);
    assert run[..j][i] == run[i];
    CreatedStays(cfg, db, run[..j], i);
  }

  /** A store checks neither owner nor expiry. It answers for the creation that holds the key exactly when no other
      request has created an order under the key since its own creation. */
  lemma StoreHitsOwnRow(cfg: Config, db: Db, run: seq<Step>, n: nat, i: nat, h: nat)
    requires Initial(db) && Valid(cfg, db, run) && Stores(run, n, i) && n == |run| - 1 && Holder(run, run[n].key, h)
    ensures var after := After(cfg, db, run);
            && run[n].key in after.keys && after.keys[run[n].key].response.Some?
            && (after.keys[run[n].key].response.value.id == run[h].order <==>
                forall j | i < j < n :: !Uses(run[j], run[n].key))
  {
    hide Enabled, Next;
    StepWritesKeys(cfg, After(cfg, db, run[..n]), run[n]);
    assert h >= i;
    if h > i {
      CreationsDiffer(cfg, db, run, i, h);
    }
  }

  /** Every response is stored before the reservation of its own request expires. */
  ghost predicate Timely(run: seq<Step>) {
    forall n | 0 <= n < |run| && run[n].ResponseStored? :: StoredInTime(run, n)
  }

  ghost predicate StoredInTime(run: seq<Step>, n: nat)
    requires n < |run| && run[n].ResponseStored?
  {
    exists i: nat :: Stores(run, n, i) && run[n].now < run[i].ch.now + A_DAY
  }

  predicate ClockRuns(run: seq<Step>) {
    forall i, j | 0 <= i < j < |run| && ClockOf(run[i]).Some? && ClockOf(run[j]).Some? ::
      ClockOf(run[i]).value <= ClockOf(run[j]).value
  }

  /** The response is the one of the creation that holds the key, as it was when the order was new. */
  ghost predicate Answers(db: Db, run: seq<Step>, key: string, i: nat) {
    && Holder(run, key, i) && key in db.keys && run[i].order in db.orders
    && db.keys[key].response == Some(OrderRead(run[i].order, Order(OrderPending, db.orders[run[i].order].lines)))
  }

  lemma TimelyStore(cfg: Config, db: Db, run: seq<Step>) returns (i: nat)
    requires Initial(db) && Valid(cfg, db, run) && Timely(run) && ClockRuns(run)
    requires run != [] && run[|run| - 1].ResponseStored?
    ensures Answers(After(cfg, db, run), run, run[|run| - 1].key, i)
  {
    hide Enabled, Next;
    var n := |run| - 1;
    assert StoredInTime(run, n);
    i :| Stores(run, n, i) && run[n].now < run[i].ch.now + A_DAY;
    forall j | i < j < |run| ensures !Uses(run[j], run[n].key) {
      if Uses(run[j], run[n].key) {
        OncePerWindow(cfg, db, run, run[n].key, i, j);
      }
    }
    StepWritesKeys(cfg, After(cfg, db, run[..n]), run[n]);
    InitialIsSound(cfg, db);
    ReachableIsSound(cfg, db, run[..n]);
    OrdersStay(cfg, After(cfg, db, run[..n]), run[n]);
  }

  /** With timely stores every stored response is the holder's: a retry within the window gets the order that the
      first request created, however far the saga has taken it since. */
  lemma {:induction false} TimelyResponses(cfg: Config, db: Db, run: seq<Step>, key: string) returns (i: nat)
    requires Initial(db) && Valid(cfg, db, run) && Timely(run) && ClockRuns(run)
    requires key in After(cfg, db, run).keys && After(cfg, db, run).keys[key].response.Some?
    ensures Answers(After(cfg, db, run), run, key, i)
    decreases |run|
  {
    hide Enabled, Next, Sound;
    var n := |run| - 1;
    var before := After(cfg, db, run[..n]);
    StepWritesKeys(cfg, before, run[n]);
    if StoresFor(run[n], key) {
      i := TimelyStore(cfg, db, run);
    } else {
      i := TimelyResponses(cfg, db, run[..n], key);
      InitialIsSound(cfg, db);
      ReachableIsSound(cfg, db, run[..n]);
      OrdersStay(cfg, before, run[n]);
      HolderGrows(run, key, i);
    }
  }

  // ----- the endpoint takes these steps -----

  /** The endpoint's first commit is a creation step and its second a response step, so a crash between the two
      leaves the run with the creation alone. */
  lemma EndpointTakesSteps(cfg: Config, db: Db, use: Option<KeyUse>, order: Id, items: seq<Item>, correlation: Id,
                           ch: Choice, later: int)
    requires order !in db.orders && FreshIds(db, ch) && ValidRequest(items)
    ensures var commits, place := EndpointCommits(db, use, order, items, correlation, ch),
                                  OrderPlaced(order, items, correlation, use, ch);
            && (commits != [] <==> Enabled(cfg, db, place))
            && (commits != [] ==> commits[0] == Next(cfg, db, place))
            && (commits != [] && use.Some? ==>
                  var store := ResponseStored(use.value.key, order, later);
                  |commits| == 2 && Enabled(cfg, commits[0], store) && commits[1] == Next(cfg, commits[0], store))
  {
  }

  // ----- a late store misleads -----

  const NO_ROWS := Db(map["A" := StockItem(9, 1)], map[], map[], {}, [], map[], map[], map[], map[], map[])

  function Placing(order: Id, hash: int, now: int): Step {
    OrderPlaced(order, [Item("A", 1)], 0, Some(KeyUse("k", hash)), Choice(now, order, order, false))
  }

  /** A first request, a second one with another body after expiry, and only then the first one's store. */
  const LATE_RUN := [Placing(0, 1, 0), Placing(1, 2, A_DAY), ResponseStored("k", 0, A_DAY)]

  /** A retry of the second request is then answered with the order of the first. */
  lemma LateStoreMisleads(cfg: Config)
    ensures Initial(NO_ROWS) && Valid(cfg, NO_ROWS, LATE_RUN) && ClockRuns(LATE_RUN)
    ensures var start := StartOutcome(After(cfg, NO_ROWS, LATE_RUN), "k", 2, A_DAY);
            start.Stored? && start.response.id == 0 && Holder(LATE_RUN, "k", 1) && LATE_RUN[1].order == 1
  {
    hide Valid, After;
    assert Valid(cfg, NO_ROWS, []) && After(cfg, NO_ROWS, []) == NO_ROWS by {
      NoSteps(cfg, NO_ROWS);
    }
    var r := LATE_RUN;
    var one := Next(cfg, NO_ROWS, r[0]);
    OneStepMore(cfg, NO_ROWS, [], r[0], [r[0]]);
    assert Enabled(cfg, one, r[1]);
    var two := Next(cfg, one, r[1]);
    OneStepMore(cfg, NO_ROWS, [r[0]], r[1], [r[0], r[1]]);
    OneStepMore(cfg, NO_ROWS, [r[0], r[1]], r[2], r);
  }
}
