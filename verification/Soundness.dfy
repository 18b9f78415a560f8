/** Every reachable database is sound. */
module Soundness {
  import opened Tables
  import opened EventsRepository
  import opened Inbox
  import opened Dispatcher
  import opened Idempotency
  import opened Orders
  import opened Saga
  import opened Chain
  import opened Business

  lemma PublishedKeepsSound(cfg: Config, a: Db, i: Id)
    requires Sound(cfg, a) && Enabled(cfg, a, EventPublished(i))
    ensures Sound(cfg, WithPublished(a, i))
  {
    var b := WithPublished(a, i);
    RestampedKeeps(ShapeOf(a), ShapeOf(b), i, b.outbox[i], Routed(cfg));
    ProgressKeepsBusiness(cfg, a, b, i);
  }

  lemma FailureKeepsSound(cfg: Config, a: Db, i: Id, ch: Choice)
    requires Sound(cfg, a) && Enabled(cfg, a, DeliveryFailed(i, ch))
    ensures HandleRow(cfg, a, i, ch) == Raised(a)
    ensures Sound(cfg, AfterFailure(cfg, a, i, ch))
  {
    FailureIsClean(cfg, a, i, ch);
    BookkeepingKeepsSound(cfg, a, i, ch);
  }

  lemma FailureIsClean(cfg: Config, a: Db, i: Id, ch: Choice)
    requires Sound(cfg, a) && i in a.outbox && HandleRow(cfg, a, i, ch).Raised?
    ensures HandleRow(cfg, a, i, ch) == Raised(a) && !Processed(ShapeOf(a), i)
  {
    assert PayloadOk(a, a.outbox[i].event);
    RaiseIsClean(cfg, a, i, ch);
  }

  /** What the bookkeeping writes, and that it writes nothing else. */
  lemma FailureWrites(cfg: Config, a: Db, i: Id, ch: Choice)
    requires i in a.outbox
    ensures var b, row := AfterFailure(cfg, a, i, ch), a.outbox[i];
            var consumer := ConsumerForFailure(cfg, row.event.etype);
            var number := NextAttemptNumber(a, i, consumer);
            && b == a.(outbox := b.outbox, attempts := b.attempts, deadLetters := b.deadLetters)
            && b.attempts == a.attempts + [Attempt(i, consumer, number, ch.now)]
            && i in b.outbox && b.outbox == a.outbox[i := b.outbox[i]] && b.outbox[i].event == row.event
            && b.outbox[i].failureCount == row.failureCount + 1 && b.outbox[i].occurredAt == row.occurredAt
            && (if number >= cfg.maxAttempts
                then && b.outbox[i].status.Failed? && b.outbox[i].nextAttemptAt.None? && ch.recordId in b.deadLetters
                     && b.deadLetters == a.deadLetters[ch.recordId := b.deadLetters[ch.recordId]]
                     && b.deadLetters[ch.recordId] == DeadLetter(i, row.event, consumer, number, ch.now, None)
                else && b.outbox[i].status.Pending? && b.deadLetters == a.deadLetters
                     && b.outbox[i].nextAttemptAt == Some(ch.now + cfg.backoffSeconds * number))
  {
    hide NextAttemptNumber, ConsumerForFailure, WithAttempt;
    var consumer := ConsumerForFailure(cfg, a.outbox[i].event.etype);
    AttemptWrites(a, i, consumer, ch.now);
    var recorded, number := WithAttempt(a, i, consumer, ch.now), NextAttemptNumber(a, i, consumer);
    if number >= cfg.maxAttempts {
      assert AfterFailure(cfg, a, i, ch)
             == WithFailed(WithDeadLetter(recorded, i, consumer, number, ch.now, ch.recordId), i);
    } else {
      assert AfterFailure(cfg, a, i, ch) == WithRetry(recorded, i, ch.now + DelayForAttempt(cfg, number));
    }
  }

  lemma AttemptWrites(a: Db, i: Id, consumer: Consumer, now: int)
    ensures WithAttempt(a, i, consumer, now)
            == a.(attempts := a.attempts + [Attempt(i, consumer, NextAttemptNumber(a, i, consumer), now)])
  {
  }

  lemma BookkeepingShape(cfg: Config, a: Db, i: Id, ch: Choice)
    requires i in a.outbox && a.outbox[i].status.Pending? && !Processed(ShapeOf(a), i)
    requires ch.recordId !in a.deadLetters
    ensures var b := AfterFailure(cfg, a, i, ch);
            && i in b.outbox && OnlyProgress(a, b, i)
            && (if b.outbox[i].status.Failed?
                then ch.recordId in b.deadLetters
                     && Buried(ShapeOf(a), ShapeOf(b), i, b.outbox[i], ch.recordId, b.deadLetters[ch.recordId])
                else Restamped(ShapeOf(a), ShapeOf(b), i, b.outbox[i]))
  {
    hide AfterFailure, NextAttemptNumber;
    FailureWrites(cfg, a, i, ch);
  }

  lemma BookkeepingKeepsSound(cfg: Config, a: Db, i: Id, ch: Choice)
    requires Sound(cfg, a) && i in a.outbox && a.outbox[i].status.Pending? && !Processed(ShapeOf(a), i)
    requires ch.recordId !in a.deadLetters
    ensures Sound(cfg, AfterFailure(cfg, a, i, ch))
  {
    hide AfterFailure, Buried, Restamped;
    var b := AfterFailure(cfg, a, i, ch);
    BookkeepingShape(cfg, a, i, ch);
    if b.outbox[i].status.Failed? {
      BuriedKeeps(ShapeOf(a), ShapeOf(b), i, b.outbox[i], ch.recordId, b.deadLetters[ch.recordId], Routed(cfg));
    } else {
      RestampedKeeps(ShapeOf(a), ShapeOf(b), i, b.outbox[i], Routed(cfg));
    }
    ProgressKeepsBusiness(cfg, a, b, i);
  }

  lemma ReplayKeepsSound(cfg: Config, a: Db, d: Id, ch: Choice)
    requires Sound(cfg, a) && Enabled(cfg, a, LetterReplayed(d, ch))
    ensures Sound(cfg, WithReplay(a, d, ch.now, ch.eventId))
  {
    var b, n := WithReplay(a, d, ch.now, ch.eventId), ch.eventId;
    ReplayRevives(a, d, ch);
    RevivedKeepsLinks(ShapeOf(a), ShapeOf(b), d, b.deadLetters[d], n, b.outbox[n], Routed(cfg));
    RevivedKeepsLive(ShapeOf(a), ShapeOf(b), d, b.deadLetters[d], n, b.outbox[n], Routed(cfg));
    ProgressKeepsBusiness(cfg, a, b, n);
  }

  lemma ReplayRevives(a: Db, d: Id, ch: Choice)
    requires Replayable(a, d) && FreshIds(a, ch) && a.deadLetters[d].eventId in a.outbox
    requires a.outbox[a.deadLetters[d].eventId].event == a.deadLetters[d].event
    ensures var b, n := WithReplay(a, d, ch.now, ch.eventId), ch.eventId;
            && d in b.deadLetters && n in b.outbox && OnlyProgress(a, b, n)
            && Revived(ShapeOf(a), ShapeOf(b), d, b.deadLetters[d], n, b.outbox[n])
  {
  }

  lemma StockKeepsSound(cfg: Config, a: Db, sku: Sku, item: StockItem)
    requires Sound(cfg, a) && sku !in a.inventory
    ensures Sound(cfg, a.(inventory := a.inventory[sku := item]))
  {
    var b := a.(inventory := a.inventory[sku := item]);
    PayloadsKept(a, b, 0) by {
      if 0 in a.outbox {
        assert PayloadOk(a, a.outbox[0].event);
        PayloadStays(a, b, a.outbox[0].event);
      }
    }
    CitationsKept(a, b);
    forall o, t | o in a.orders ensures Reached(b, o, t) <==> Reached(a, o, t) {
      ReachedSame(a, b, o, t);
    }
  }

  /** Idempotency keys are no part of soundness. */
  lemma KeysKeepSound(cfg: Config, a: Db, keys: map<string, KeyRow>)
    requires Sound(cfg, a)
    ensures Sound(cfg, a.(keys := keys))
  {
    var b := a.(keys := keys);
    PayloadsKept(a, b, 0) by {
      if 0 in a.outbox {
        assert PayloadOk(a, a.outbox[0].event);
        PayloadStays(a, b, a.outbox[0].event);
      }
    }
    CitationsKept(a, b);
    forall o, t | o in a.orders ensures Reached(b, o, t) <==> Reached(a, o, t) {
      ReachedSame(a, b, o, t);
    }
  }

  lemma CreationKeepsSound(cfg: Config, a: Db, order: Id, items: seq<Item>, correlation: Id, ch: Choice)
    requires Sound(cfg, a) && order !in a.orders && FreshIds(a, ch)
    requires ValidRequest(items) && AllStocked(a.inventory, items)
    ensures Sound(cfg, Created(a, order, items, correlation, ch))
  {
    var b, n := Created(a, order, items, correlation, ch), ch.eventId;
    RootedKeepsLinks(ShapeOf(a), ShapeOf(b), n, b.outbox[n], Routed(cfg));
    RootedKeepsLive(ShapeOf(a), ShapeOf(b), n, b.outbox[n], Routed(cfg));
    CreationKeepsBusiness(cfg, a, order, items, correlation, ch);
  }

  lemma CreationKeepsBusiness(cfg: Config, a: Db, order: Id, items: seq<Item>, correlation: Id, ch: Choice)
    requires InboxSound(ShapeOf(a), Routed(cfg)) && Linked(ShapeOf(a))
    requires Payloads(a) && OrdersOk(a) && RecordsCited(a) && Projected(a)
    requires order !in a.orders && FreshIds(a, ch)
    requires ValidRequest(items) && AllStocked(a.inventory, items)
    ensures var b := Created(a, order, items, correlation, ch);
            Payloads(b) && OrdersOk(b) && RecordsCited(b) && Projected(b)
  {
    hide HandedOn, Linear, OneLive, PayloadOk;
    var b := Created(a, order, items, correlation, ch);
    PayloadsKept(a, b, ch.eventId);
    CitationsKept(a, b);
    assert LinesOk(a.inventory, Priced(a.inventory, items));
    NewOrderProjected(cfg, a, order, items, correlation, ch);
  }

  lemma NewOrderProjected(cfg: Config, a: Db, order: Id, items: seq<Item>, correlation: Id, ch: Choice)
    requires InboxSound(ShapeOf(a), Routed(cfg)) && Linked(ShapeOf(a)) && Projected(a)
    requires order !in a.orders && FreshIds(a, ch) && AllStocked(a.inventory, items)
    ensures Projected(Created(a, order, items, correlation, ch))
  {
    var b := Created(a, order, items, correlation, ch);
    assert forall m | m in a.inbox :: m.1 in a.outbox;
    forall o, t | o in a.orders ensures Reached(b, o, t) <==> Reached(a, o, t) {
      ReachedSame(a, b, o, t);
    }
    forall i | Processed(ShapeOf(b), i) ensures b.outbox[i].event.order != order {
      assert LinkedRow(ShapeOf(a), a.outbox[i].event);
    }
    assert !Reached(b, order, NotificationSent) && !Reached(b, order, InventoryReleased);
  }

  lemma StepKeepsSound(cfg: Config, db: Db, step: Step)
    requires Sound(cfg, db) && Enabled(cfg, db, step)
    ensures Sound(cfg, Next(cfg, db, step))
  {
    hide Sound, Created, Handle, AfterFailure;
    match step {
      case StockAdded(sku, item) => StockKeepsSound(cfg, db, sku, item);
      case OrderPlaced(order, items, correlation, use, ch) =>
        var start := if use.Some? then WithKey(db, use.value.key, use.value.hash, ch.now) else db;
        KeysKeepSound(cfg, db, start.keys);
        assert start == db.(keys := start.keys);
        CreationKeepsSound(cfg, start, order, items, correlation, ch);
      case ResponseStored(_, _, _) => KeysKeepSound(cfg, db, Next(cfg, db, step).keys);
      case EventHandled(i, forced, ch) => HandledKeepsSound(cfg, db, i, forced, ch);
      case EventPublished(i) => PublishedKeepsSound(cfg, db, i);
      case DeliveryFailed(i, ch) => FailureKeepsSound(cfg, db, i, ch);
      case LetterReplayed(d, ch) => ReplayKeepsSound(cfg, db, d, ch);
    }
  }

  lemma InitialIsSound(cfg: Config, db: Db)
    requires Initial(db)
    ensures Sound(cfg, db)
  {
  }

  /** The main invariant: however deliveries, redeliveries, failures, replays, crashes and requests interleave. */
  lemma {:induction false} ReachableIsSound(cfg: Config, db: Db, run: seq<Step>)
    requires Sound(cfg, db) && Valid(cfg, db, run)
    ensures Sound(cfg, After(cfg, db, run))
    decreases |run|
  {
    if run != [] {
      var front := run[..|run| - 1];
      ReachableIsSound(cfg, db, front);
      StepKeepsSound(cfg, After(cfg, db, front), run[|run| - 1]);
    }
  }
}
