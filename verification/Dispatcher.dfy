/** The brokerless dispatcher: deliver ready outbox rows to their handlers, retry, dead-letter. */
module Dispatcher {
  import opened Tables
  import opened Sessions
  import opened EventsRepository
  import opened Inbox

  /** The handler mapping (as the set of event types it routes) and the retry policy. */
  datatype Config = Config(handlers: set<EventType>, backoffSeconds: int, maxAttempts: int)

  const DEFAULT_HANDLERS: set<EventType> := {
    OrderCreated, InventoryReserved, PaymentAuthorized, InvoiceCreated,
    NotificationSent, PaymentFailed, InventoryReleased
  }

  const DEFAULT_CONFIG := Config(DEFAULT_HANDLERS, 5, 3)

  /** An empty mapping means the default one. */
  function Routed(cfg: Config): set<EventType> {
    if cfg.handlers == {} then DEFAULT_HANDLERS else cfg.handlers
  }

  function DelayForAttempt(cfg: Config, number: int): int {
    cfg.backoffSeconds * number
  }

  function ConsumerForFailure(cfg: Config, t: EventType): Consumer {
    if t in Routed(cfg) then ConsumerOf(t) else BrokerlessDispatcher
  }

  function EnvelopeOf(db: Db, i: Id): Envelope
    requires i in db.outbox
  {
    Envelope(i, db.outbox[i].event)
  }

  function HandleRow(cfg: Config, db: Db, i: Id, ch: Choice): (outcome: Outcome)
    requires i in db.outbox
    ensures !outcome.Skipped? ==> db.outbox.Keys <= outcome.db.outbox.Keys
  {
    if db.outbox[i].event.etype in Routed(cfg) then Handle(db, EnvelopeOf(db, i), ch) else Raised(db)
  }

  /** The bookkeeping of a failed delivery, on top of whatever the handler left in the working copy. */
  function AfterFailure(cfg: Config, db: Db, i: Id, ch: Choice): Db
    requires i in db.outbox
  {
    var consumer := ConsumerForFailure(cfg, db.outbox[i].event.etype);
    var number := NextAttemptNumber(db, i, consumer);
    var recorded := WithAttempt(db, i, consumer, ch.now);
    if number >= cfg.maxAttempts then
      WithFailed(WithDeadLetter(recorded, i, consumer, number, ch.now, ch.recordId), i)
    else
      WithRetry(recorded, i, ch.now + DelayForAttempt(cfg, number))
  }

  /** The database after one delivery that is not interrupted. */
  function Deliver(cfg: Config, db: Db, i: Id, ch: Choice): (after: Db)
    requires i in db.outbox
    ensures db.outbox.Keys <= after.outbox.Keys
  {
    match HandleRow(cfg, db, i, ch)
    case Skipped => WithPublished(db, i)
    case Applied(handled) => WithPublished(handled, i)
    case Raised(left) => AfterFailure(cfg, left, i, ch)
  }

  /** The copies one delivery commits, in order: the handler's own commit comes first. */
  function Commits(cfg: Config, db: Db, i: Id, ch: Choice): (log: seq<Db>)
    requires i in db.outbox
    ensures log != [] && log[|log| - 1] == Deliver(cfg, db, i, ch)
  {
    match HandleRow(cfg, db, i, ch)
    case Applied(handled) => [handled, WithPublished(handled, i)]
    case _ => [Deliver(cfg, db, i, ch)]
  }

  /** The environment's answer to the n-th delivery. */
  function At(env: nat -> Choice, n: nat): Choice {
    env(n)
  }

  /** A run of deliveries; the environment answers the j-th one with At(env, k + j). */
  function DeliverAll(cfg: Config, db: Db, ids: seq<Id>, env: nat -> Choice, k: nat): (after: Db)
    requires forall i | i in ids :: i in db.outbox
    ensures db.outbox.Keys <= after.outbox.Keys
    decreases |ids|
  {
    if ids == [] then db
    else
      var n := |ids| - 1;
      assert ids[n] in ids;
      Deliver(cfg, DeliverAll(cfg, db, ids[..n], env, k), ids[n], At(env, k + n))
  }

  function CommitsAll(cfg: Config, db: Db, ids: seq<Id>, env: nat -> Choice, k: nat): seq<Db>
    requires forall i | i in ids :: i in db.outbox
    decreases |ids|
  {
    if ids == [] then []
    else
      var n := |ids| - 1;
      assert ids[n] in ids;
      CommitsAll(cfg, db, ids[..n], env, k)
      + Commits(cfg, DeliverAll(cfg, db, ids[..n], env, k), ids[n], At(env, k + n))
  }

  datatype IdleRun = IdleRun(db: Db, total: nat, idle: bool)

  /** Batches until one is empty, at most `batches` of them, after `total` events have been dispatched. */
  function UntilIdle(cfg: Config, db: Db, limit: nat, env: nat -> Choice, total: nat, batches: nat): IdleRun
    decreases batches
  {
    if batches == 0 then IdleRun(db, total, false)
    else
      var ids := Fetch(db, At(env, total).now, limit);
      if ids == [] then IdleRun(db, total, true)
      else UntilIdle(cfg, DeliverAll(cfg, db, ids, env, total), limit, env, total + |ids|, batches - 1)
  }

  /** The copies such a call commits, in order. */
  function CallCommits(cfg: Config, db: Db, limit: nat, env: nat -> Choice, total: nat, batches: nat): seq<Db>
    decreases batches
  {
    if batches == 0 then []
    else
      var ids := Fetch(db, At(env, total).now, limit);
      if ids == [] then []
      else
        CommitsAll(cfg, db, ids, env, total)
        + CallCommits(cfg, DeliverAll(cfg, db, ids, env, total), limit, env, total + |ids|, batches - 1)
  }

  method DispatchPendingBatch(session: Session, cfg: Config, limit: nat, env: nat -> Choice, k: nat)
    returns (count: nat, ghost ids: seq<Id>)
    requires session.db == session.committed
    modifies session
    ensures ids == Fetch(old(session.db), At(env, k).now, limit)
    ensures count == |ids|
    ensures session.db == session.committed == DeliverAll(cfg, old(session.db), ids, env, k)
    ensures session.log == old(session.log) + CommitsAll(cfg, old(session.db), ids, env, k)
  {
    var repository := new OutboxRepository(session);
    var events := repository.FetchPending(limit, At(env, k).now);
    ids := events;
    DispatchEvents(session, cfg, events, env, k);
    count := |events|;
  }

  method DispatchEvents(session: Session, cfg: Config, events: seq<Id>, env: nat -> Choice, k: nat)
    requires session.db == session.committed
    requires forall i | i in events :: i in session.db.outbox
    modifies session
    ensures session.db == session.committed == DeliverAll(cfg, old(session.db), events, env, k)
    ensures session.log == old(session.log) + CommitsAll(cfg, old(session.db), events, env, k)
  {
    hide *;
    var repository := new OutboxRepository(session);
    var attempts := new EventProcessingAttemptRepository(session);
    var deadLetters := new DeadLetterEventRepository(session);
    var inbox := new ConsumerInbox(session);
    ghost var before, log := session.db, session.log;
    NothingDelivered(cfg, before, env, k);
    assert events[..0] == [];
    for j := 0 to |events|
      invariant session.db == session.committed == DeliverAll(cfg, before, events[..j], env, k)
      invariant session.log == log + CommitsAll(cfg, before, events[..j], env, k)
    {
      OneMore(cfg, before, events, env, k, j);
      DispatchOne(session, repository, attempts, deadLetters, inbox, cfg, events[j], At(env, k + j));
    }
    assert events[..|events|] == events;
  }

  lemma NothingDelivered(cfg: Config, db: Db, env: nat -> Choice, k: nat)
    ensures DeliverAll(cfg, db, [], env, k) == db && CommitsAll(cfg, db, [], env, k) == []
  {
  }

  lemma OneMore(cfg: Config, db: Db, ids: seq<Id>, env: nat -> Choice, k: nat, j: nat)
    requires j < |ids| && forall i | i in ids :: i in db.outbox
    ensures var part := DeliverAll(cfg, db, ids[..j], env, k);
            && ids[j] in part.outbox
            && DeliverAll(cfg, db, ids[..j + 1], env, k) == Deliver(cfg, part, ids[j], At(env, k + j))
            && CommitsAll(cfg, db, ids[..j + 1], env, k)
               == CommitsAll(cfg, db, ids[..j], env, k) + Commits(cfg, part, ids[j], At(env, k + j))
  {
    hide Deliver, Commits;
    assert ids[..j + 1][..j] == ids[..j];
  }

  /** The body of the batch loop: one event, its handler, its bookkeeping and the closing commit. */
  method DispatchOne(session: Session, repository: OutboxRepository, attempts: EventProcessingAttemptRepository,
                     deadLetters: DeadLetterEventRepository, inbox: ConsumerInbox,
                     cfg: Config, i: Id, ch: Choice)
    requires repository.session == attempts.session == deadLetters.session == inbox.session == session
    requires i in session.db.outbox
    modifies session
    ensures session.db == session.committed == Deliver(cfg, old(session.db), i, ch)
    ensures session.log == old(session.log) + Commits(cfg, old(session.db), i, ch)
  {
    var event := session.db.outbox[i].event;
    var failed := event.etype !in Routed(cfg);
    RaisingLeavesOutbox(cfg, session.db, i, ch);
    if !failed {
      var result := inbox.ProcessOnce(Envelope(i, event), ch);
      failed := result.Error?;
    }
    if !failed {
      var found := repository.MarkPublished(i);
    } else {
      RecordFailedDelivery(session, repository, attempts, deadLetters, cfg, i, event.etype, ch);
    }
    session.Commit();
  }

  method RecordFailedDelivery(session: Session, repository: OutboxRepository,
                              attempts: EventProcessingAttemptRepository, deadLetters: DeadLetterEventRepository,
                              cfg: Config, i: Id, t: EventType, ch: Choice)
    requires repository.session == attempts.session == deadLetters.session == session
    requires i in session.db.outbox && t == session.db.outbox[i].event.etype
    modifies session`db
    ensures session.db == AfterFailure(cfg, old(session.db), i, ch)
  {
    var consumer := ConsumerForFailure(cfg, t);
    var number := attempts.RecordFailure(i, consumer, ch.now);
    if number >= cfg.maxAttempts {
      deadLetters.MoveToDeadLetter(i, consumer, number, ch.now, ch.recordId);
      var found := repository.MarkFailed(i);
    } else {
      var found := repository.MarkRetryableFailure(i, ch.now + DelayForAttempt(cfg, number));
    }
  }

  /** A raising handler has not touched the outbox. */
  lemma RaisingLeavesOutbox(cfg: Config, db: Db, i: Id, ch: Choice)
    requires i in db.outbox
    ensures var outcome := HandleRow(cfg, db, i, ch);
            outcome.Raised? ==> outcome.db.outbox == db.outbox
  {
  }

  /** The run `whole` goes on from `db` with `batches` batches left. */
  ghost predicate Continues(whole: IdleRun, cfg: Config, db: Db, limit: nat,
                            env: nat -> Choice, total: nat, batches: nat)
  {
    UntilIdle(cfg, db, limit, env, total, batches) == whole
  }

  lemma OneBatch(whole: IdleRun, cfg: Config, db: Db, limit: nat, env: nat -> Choice, total: nat, batches: nat,
                 ids: seq<Id>, after: Db, total': nat, left: nat)
    requires batches == left + 1 && total' == total + |ids| && Continues(whole, cfg, db, limit, env, total, batches)
    requires ids == Fetch(db, At(env, total).now, limit) && after == DeliverAll(cfg, db, ids, env, total)
    ensures if ids == [] then whole == IdleRun(after, total, true)
            else Continues(whole, cfg, after, limit, env, total', left)
  {
    hide Fetch, Deliver;
  }

  /** Of the copies `whole`, those in `done` are committed and the rest is to come. */
  ghost predicate StillToCome(whole: seq<Db>, done: seq<Db>, cfg: Config, db: Db, limit: nat, env: nat -> Choice,
                              total: nat, batches: nat)
  {
    whole == done + CallCommits(cfg, db, limit, env, total, batches)
  }

  lemma OneBatchCommits(whole: seq<Db>, done: seq<Db>, cfg: Config, db: Db, limit: nat, env: nat -> Choice, total: nat,
                        batches: nat, ids: seq<Id>, after: Db, total': nat, left: nat)
    requires batches == left + 1 && total' == total + |ids|
    requires StillToCome(whole, done, cfg, db, limit, env, total, batches)
    requires ids == Fetch(db, At(env, total).now, limit) && after == DeliverAll(cfg, db, ids, env, total)
    ensures if ids == [] then whole == done + CommitsAll(cfg, db, ids, env, total)
            else StillToCome(whole, done + CommitsAll(cfg, db, ids, env, total), cfg, after, limit, env, total', left)
  {
    hide Fetch, Deliver, Commits;
  }

  method DispatchUntilIdle(session: Session, cfg: Config, limit: nat, maxBatches: nat, env: nat -> Choice)
    returns (total: nat, raised: bool)
    requires session.db == session.committed
    modifies session
    ensures session.db == session.committed
    ensures UntilIdle(cfg, old(session.db), limit, env, 0, maxBatches) == IdleRun(session.db, total, !raised)
    ensures session.log == old(session.log) + CallCommits(cfg, old(session.db), limit, env, 0, maxBatches)
  {
    total := 0;
    var left := maxBatches;
    ghost var whole := UntilIdle(cfg, session.db, limit, env, 0, maxBatches);
    ghost var log := session.log + CallCommits(cfg, session.db, limit, env, 0, maxBatches);
    while left > 0
      invariant session.db == session.committed
      invariant Continues(whole, cfg, session.db, limit, env, total, left)
      invariant StillToCome(log, session.log, cfg, session.db, limit, env, total, left)
    {
      hide Continues, StillToCome, CommitsAll, DeliverAll;
      ghost var before, done, budget, committed := session.db, total, left, session.log;
      var count, ids := DispatchPendingBatch(session, cfg, limit, env, total);
      total, left := total + count, left - 1;
      OneBatch(whole, cfg, before, limit, env, done, budget, ids, session.db, total, left);
      OneBatchCommits(log, committed, cfg, before, limit, env, done, budget, ids, session.db, total, left);
      if count == 0 {
        return total, false;
      }
    }
    return total, true;
  }
}
