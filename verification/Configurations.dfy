/** What the handler mapping means: an empty one is the default one, any other is taken as it is. */
module Configurations {
  import opened Tables
  import opened Sessions
  import opened EventsRepository
  import opened Inbox
  import opened Dispatcher
  import opened Soundness

  /** Two configurations that route the same types under the same policy. */
  predicate SameMapping(a: Config, b: Config) {
    Routed(a) == Routed(b) && a.backoffSeconds == b.backoffSeconds && a.maxAttempts == b.maxAttempts
  }

  lemma DeliverAlike(a: Config, b: Config, db: Db, i: Id, ch: Choice)
    requires SameMapping(a, b) && i in db.outbox
    ensures Deliver(a, db, i, ch) == Deliver(b, db, i, ch) && Commits(a, db, i, ch) == Commits(b, db, i, ch)
  {
    hide Handle, WithAttempt, NextAttemptNumber, WithDeadLetter, WithFailed, WithRetry;
  }

  lemma {:induction false} BatchAlike(a: Config, b: Config, db: Db, ids: seq<Id>, env: nat -> Choice, k: nat)
    requires SameMapping(a, b) && forall i | i in ids :: i in db.outbox
    ensures DeliverAll(a, db, ids, env, k) == DeliverAll(b, db, ids, env, k)
    ensures CommitsAll(a, db, ids, env, k) == CommitsAll(b, db, ids, env, k)
    decreases |ids|
  {
    hide Deliver, Commits, SameMapping;
    if ids != [] {
      var n := |ids| - 1;
      assert ids[n] in ids;
      BatchAlike(a, b, db, ids[..n], env, k);
      DeliverAlike(a, b, DeliverAll(a, db, ids[..n], env, k), ids[n], At(env, k + n));
    }
  }

  lemma {:induction false} CallAlike(a: Config, b: Config, db: Db, limit: nat, env: nat -> Choice, total: nat,
                                     batches: nat)
    requires SameMapping(a, b)
    ensures UntilIdle(a, db, limit, env, total, batches) == UntilIdle(b, db, limit, env, total, batches)
    ensures CallCommits(a, db, limit, env, total, batches) == CallCommits(b, db, limit, env, total, batches)
    decreases batches
  {
    hide DeliverAll, CommitsAll, Fetch, SameMapping;
    var ids := Fetch(db, At(env, total).now, limit);
    BatchAlike(a, b, db, ids, env, total);
    if batches > 0 && ids != [] {
      CallAlike(a, b, DeliverAll(a, db, ids, env, total), limit, env, total + |ids|, batches - 1);
    }
  }

  /** With an empty mapping every batch and every call, down to each copy committed, is what it is with the seven
      handled types listed one by one. */
  lemma EmptyMeansDefault(backoff: int, maxAttempts: int, db: Db, limit: nat, env: nat -> Choice, total: nat,
                          batches: nat)
    ensures var empty, listed := Config({}, backoff, maxAttempts),
                                 Config({OrderCreated, InventoryReserved, PaymentAuthorized, InvoiceCreated,
                                         NotificationSent, PaymentFailed, InventoryReleased}, backoff, maxAttempts);
            var ids := Fetch(db, At(env, total).now, limit);
            && DeliverAll(empty, db, ids, env, total) == DeliverAll(listed, db, ids, env, total)
            && CommitsAll(empty, db, ids, env, total) == CommitsAll(listed, db, ids, env, total)
            && UntilIdle(empty, db, limit, env, total, batches) == UntilIdle(listed, db, limit, env, total, batches)
            && CallCommits(empty, db, limit, env, total, batches) == CallCommits(listed, db, limit, env, total, batches)
  {
    hide DeliverAll, CommitsAll, Fetch, UntilIdle, CallCommits;
    var empty, listed := Config({}, backoff, maxAttempts), Config(DEFAULT_HANDLERS, backoff, maxAttempts);
    BatchAlike(empty, listed, db, Fetch(db, At(env, total).now, limit), env, total);
    CallAlike(empty, listed, db, limit, env, total, batches);
  }

  /** `run_once`: one batch with no mapping and no policy given, which means these seven types, three attempts and
      delays of five seconds. */
  method RunOnce(session: Session, limit: nat, env: nat -> Choice) returns (count: nat)
    requires session.db == session.committed
    modifies session
    ensures var cfg := Config({OrderCreated, InventoryReserved, PaymentAuthorized, InvoiceCreated,
                               NotificationSent, PaymentFailed, InventoryReleased}, 5, 3);
            var ids := Fetch(old(session.db), At(env, 0).now, limit);
            && count == |ids| && session.db == session.committed == DeliverAll(cfg, old(session.db), ids, env, 0)
            && session.log == old(session.log) + CommitsAll(cfg, old(session.db), ids, env, 0)
  {
    hide Fetch, DeliverAll, CommitsAll;
    ghost var before := session.db;
    var policy := DEFAULT_CONFIG.(handlers := {});
    var dispatched, ids := DispatchPendingBatch(session, policy, limit, env, 0);
    BatchAlike(policy, DEFAULT_CONFIG, before, ids, env, 0);
    count := dispatched;
  }

  /** With a mapping given, a delivery runs the body exactly of the types in it; any other row is left as it is but for
      one failed attempt, booked on the dispatcher itself. */
  lemma MappingIsTaken(cfg: Config, db: Db, i: Id, ch: Choice)
    requires cfg.handlers != {} && i in db.outbox
    ensures var t, after := db.outbox[i].event.etype, Deliver(cfg, db, i, ch);
            && (t in cfg.handlers ==> HandleRow(cfg, db, i, ch) == Handle(db, EnvelopeOf(db, i), ch))
            && (t !in cfg.handlers ==>
                  && after == db.(outbox := after.outbox, attempts := after.attempts, deadLetters := after.deadLetters)
                  && |after.attempts| == |db.attempts| + 1
                  && var attempt := after.attempts[|db.attempts|];
                     && attempt.eventId == i && attempt.consumer == BrokerlessDispatcher && attempt.at == ch.now
                     && (after.outbox[i].status.Failed? ==>
                           ch.recordId in after.deadLetters
                           && after.deadLetters[ch.recordId].consumer == BrokerlessDispatcher))
  {
    hide Handle, AfterFailure, NextAttemptNumber;
    FailureWrites(cfg, db, i, ch);
  }

  /** The default mapping handles every type but the rejection, which fails at once and is booked on the dispatcher. */
  lemma DefaultHandlesAllButRejections(cfg: Config, db: Db, i: Id, ch: Choice)
    requires cfg.handlers == {} && i in db.outbox
    ensures if db.outbox[i].event.etype == InventoryReservationFailed
            then && HandleRow(cfg, db, i, ch) == Raised(db)
                 && ConsumerForFailure(cfg, db.outbox[i].event.etype) == BrokerlessDispatcher
            else HandleRow(cfg, db, i, ch) == Handle(db, EnvelopeOf(db, i), ch)
  {
    hide Handle;
  }
}
