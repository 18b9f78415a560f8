/** The dispatcher's batches are runs of the state machine, and so is everything they commit on the way. */
module Deliveries {
  import opened Tables
  import opened EventsRepository
  import opened Inbox
  import opened Dispatcher
  import opened Saga
  import opened Chain
  import opened Business
  import opened Soundness
  import opened RetryLedger

  ghost predicate Reaches(cfg: Config, a: Db, b: Db) {
    exists run :: RunTo(cfg, a, run, b)
  }

  predicate RunTo(cfg: Config, a: Db, run: seq<Step>, b: Db) {
    Valid(cfg, a, run) && After(cfg, a, run) == b
  }

  lemma {:induction false} RunsCompose(cfg: Config, a: Db, r1: seq<Step>, r2: seq<Step>)
    requires Valid(cfg, a, r1) && Valid(cfg, After(cfg, a, r1), r2)
    ensures Valid(cfg, a, r1 + r2) && After(cfg, a, r1 + r2) == After(cfg, After(cfg, a, r1), r2)
    decreases |r2|
  {
    hide Enabled, Next;
    if r2 == [] {
      assert r1 + r2 == r1;
    } else {
      var front := r2[..|r2| - 1];
      RunsCompose(cfg, a, r1, front);
      assert (r1 + r2)[..|r1 + r2| - 1] == r1 + front;
    }
  }

  lemma ReachesTrans(cfg: Config, a: Db, b: Db, c: Db)
    requires Reaches(cfg, a, b) && Reaches(cfg, b, c)
    ensures Reaches(cfg, a, c)
  {
    hide Valid, After;
    var r1 :| RunTo(cfg, a, r1, b);
    var r2 :| RunTo(cfg, b, r2, c);
    RunsCompose(cfg, a, r1, r2);
    assert RunTo(cfg, a, r1 + r2, c);
  }

  lemma ReachesRefl(cfg: Config, a: Db)
    ensures Reaches(cfg, a, a)
  {
    assert RunTo(cfg, a, [], a);
  }

  lemma ReachesStep(cfg: Config, a: Db, step: Step)
    requires Enabled(cfg, a, step)
    ensures Reaches(cfg, a, Next(cfg, a, step))
  {
    hide Enabled, Next;
    assert [step][..0] == [];
    assert Valid(cfg, a, []) && After(cfg, a, []) == a;
    assert RunTo(cfg, a, [step], Next(cfg, a, step));
  }

  /** What a reachable database inherits. */
  lemma ReachedIsSound(cfg: Config, a: Db, b: Db)
    requires Sound(cfg, a) && Ledger(cfg, a) && Reaches(cfg, a, b)
    ensures Sound(cfg, b) && Ledger(cfg, b)
  {
    hide Valid, After, Sound, Ledger;
    var run :| RunTo(cfg, a, run, b);
    ReachableIsSound(cfg, a, run);
    ReachableLedger(cfg, a, run);
  }

  /** One delivery is one failed step, or the handler's step and the mark, or the mark alone. */
  function DeliverySteps(cfg: Config, db: Db, i: Id, ch: Choice): seq<Step>
    requires i in db.outbox
  {
    match HandleRow(cfg, db, i, ch)
    case Raised(_) => [DeliveryFailed(i, ch)]
    case Skipped => [EventPublished(i)]
    case Applied(_) => [EventHandled(i, false, ch), EventPublished(i)]
  }

  /** The run's first n + 1 steps lead to c. */
  predicate LeadsTo(cfg: Config, db: Db, run: seq<Step>, n: nat, c: Db) {
    n < |run| && Valid(cfg, db, run[..n + 1]) && After(cfg, db, run[..n + 1]) == c
  }

  /** They are a run, and each copy a delivery commits is what one more of them leads to. */
  lemma DeliveryIsRun(cfg: Config, db: Db, i: Id, ch: Choice)
    requires i in db.outbox && Ready(db.outbox[i], ch.now) && FreshIds(db, ch)
    ensures var steps, commits := DeliverySteps(cfg, db, i, ch), Commits(cfg, db, i, ch);
            && |steps| == |commits| && Valid(cfg, db, steps) && After(cfg, db, steps) == Deliver(cfg, db, i, ch)
            && forall n | 0 <= n < |steps| :: LeadsTo(cfg, db, steps, n, commits[n])
  {
    hide Handle, AfterFailure, Valid, After;
    NoSteps(cfg, db);
    match HandleRow(cfg, db, i, ch) {
      case Raised(_) =>
        OneStepRun(cfg, db, DeliveryFailed(i, ch));
      case Skipped =>
        AfterHandler(cfg, db, i, ch);
        OneStepRun(cfg, db, EventPublished(i));
      case Applied(handled) =>
        AfterHandler(cfg, db, i, ch);
        OneStepRun(cfg, db, EventHandled(i, false, ch));
        var steps := [EventHandled(i, false, ch), EventPublished(i)];
        OneStepMore(cfg, db, [EventHandled(i, false, ch)], EventPublished(i), steps);
        assert steps[..1] == [EventHandled(i, false, ch)] && steps[..2] == steps;
    }
  }

  lemma OneStepRun(cfg: Config, db: Db, step: Step)
    requires Enabled(cfg, db, step)
    ensures Valid(cfg, db, [step]) && After(cfg, db, [step]) == Next(cfg, db, step)
    ensures [step][..1] == [step]
  {
    hide Enabled, Next;
    NoSteps(cfg, db);
    OneStepMore(cfg, db, [], step, [step]);
  }

  lemma DeliveryReaches(cfg: Config, db: Db, i: Id, ch: Choice)
    requires i in db.outbox && Ready(db.outbox[i], ch.now) && FreshIds(db, ch)
    ensures forall c | c in Commits(cfg, db, i, ch) :: Reaches(cfg, db, c)
    ensures Reaches(cfg, db, Deliver(cfg, db, i, ch))
  {
    hide Commits, Deliver, DeliverySteps, Valid, After, Reaches;
    DeliveryIsRun(cfg, db, i, ch);
    var steps, commits := DeliverySteps(cfg, db, i, ch), Commits(cfg, db, i, ch);
    RunReaches(cfg, db, steps, Deliver(cfg, db, i, ch));
    forall c | c in commits ensures Reaches(cfg, db, c) {
      var n :| 0 <= n < |commits| && commits[n] == c;
      assert LeadsTo(cfg, db, steps, n, commits[n]);
      RunReaches(cfg, db, steps[..n + 1], c);
    }
  }

  lemma RunReaches(cfg: Config, a: Db, run: seq<Step>, b: Db)
    requires Valid(cfg, a, run) && After(cfg, a, run) == b
    ensures Reaches(cfg, a, b)
  {
    hide Valid, After;
    assert RunTo(cfg, a, run, b);
  }

  /** A handler that did not raise leaves its row as it was, and marked in the inbox. */
  lemma AfterHandler(cfg: Config, db: Db, i: Id, ch: Choice)
    requires i in db.outbox && FreshIds(db, ch) && !HandleRow(cfg, db, i, ch).Raised?
    ensures Delivered(db, i, false) == EnvelopeOf(db, i)
    ensures db.outbox[i].event.etype in Routed(cfg)
    ensures HandleRow(cfg, db, i, ch).Skipped? <==> Processed(ShapeOf(db), i)
    ensures HandleRow(cfg, db, i, ch).Applied? ==>
              HandleRow(cfg, db, i, ch) == Applied(HandledDb(db, EnvelopeOf(db, i), ch))
    ensures var after := HandledDb(db, EnvelopeOf(db, i), ch);
            i in after.outbox && after.outbox[i] == db.outbox[i] && HasProcessed(after, EnvelopeOf(db, i))
  {
    hide Body;
    if !HasProcessed(db, EnvelopeOf(db, i)) {
      BodyLeaves(db, EnvelopeOf(db, i), ch);
    }
  }

  // ----- the environment -----

  /** Ids from the n-th delivery on are fresh, and never the same twice. */
  ghost predicate FreshFrom(env: nat -> Choice, n: nat, db: Db) {
    && (forall m: nat | m >= n :: FreshIds(db, At(env, m)))
    && (forall l: nat, m: nat | n <= l < m ::
          At(env, l).eventId != At(env, m).eventId && At(env, l).recordId != At(env, m).recordId)
  }

  ghost predicate Monotone(env: nat -> Choice) {
    forall l: nat, m: nat | l <= m :: At(env, l).now <= At(env, m).now
  }

  lemma {:induction false} AboveAll(ids: set<Id>) returns (base: nat)
    ensures forall i | i in ids :: i < base
    decreases |ids|
  {
    if ids == {} {
      base := 0;
    } else {
      var i :| i in ids;
      var rest := AboveAll(ids - {i});
      base := if i < rest then rest else i + 1;
      assert forall j | j in ids :: j == i || j in ids - {i};
    }
  }

  /** For every database there is an environment with fresh ids, a running clock and no raising bodies. */
  lemma QuietEnvironment(db: Db) returns (env: nat -> Choice)
    ensures FreshFrom(env, 0, db) && Monotone(env) && forall n: nat :: !At(env, n).fault
  {
    var base := AboveAll(db.outbox.Keys + db.payments.Keys + db.invoices.Keys + db.notifications.Keys
                         + db.deadLetters.Keys);
    env := (n: nat) => Choice(n, base + n, base + n, false);
  }

  /** What one delivery may touch: its own row, one new row, one new record. */
  ghost predicate Confined(a: Db, b: Db, i: Id, ch: Choice) {
    && a.outbox.Keys <= b.outbox.Keys <= a.outbox.Keys + {ch.eventId}
    && (forall j | j in a.outbox && j != i :: b.outbox[j] == a.outbox[j])
    && (i in b.outbox && i in a.outbox ==> b.outbox[i].occurredAt == a.outbox[i].occurredAt
                                           && b.outbox[i].event == a.outbox[i].event)
    && (ch.eventId in b.outbox && ch.eventId !in a.outbox ==>
          b.outbox[ch.eventId].occurredAt == ch.now && b.outbox[ch.eventId].status.Pending?
          && b.outbox[ch.eventId].failureCount == 0 && b.outbox[ch.eventId].nextAttemptAt.None?)
    && b.payments.Keys <= a.payments.Keys + {ch.recordId} && b.invoices.Keys <= a.invoices.Keys + {ch.recordId}
    && b.notifications.Keys <= a.notifications.Keys + {ch.recordId}
    && b.deadLetters.Keys <= a.deadLetters.Keys + {ch.recordId}
  }

  lemma HandlerConfined(db: Db, e: Envelope, ch: Choice)
    requires FreshIds(db, ch) && e.id in db.outbox && !Handle(db, e, ch).Raised?
    ensures Confined(db, HandledDb(db, e, ch), e.id, ch)
    ensures HandledDb(db, e, ch).outbox[e.id] == db.outbox[e.id]
  {
    hide Body;
    if !HasProcessed(db, e) {
      BodyLeaves(db, e, ch);
    }
  }

  lemma DeliveryConfined(cfg: Config, db: Db, i: Id, ch: Choice)
    requires Sound(cfg, db) && i in db.outbox && FreshIds(db, ch)
    ensures Confined(db, Deliver(cfg, db, i, ch), i, ch)
  {
    hide Handle, AfterFailure, Sound;
    match HandleRow(cfg, db, i, ch) {
      case Raised(left) =>
        FailureIsClean(cfg, db, i, ch);
        FailureWritesRow(cfg, db, i, ch);
      case Skipped =>
      case Applied(handled) =>
        HandlerConfined(db, EnvelopeOf(db, i), ch);
    }
  }

  lemma FailureWritesRow(cfg: Config, db: Db, i: Id, ch: Choice)
    requires i in db.outbox && FreshIds(db, ch)
    ensures Confined(db, AfterFailure(cfg, db, i, ch), i, ch)
  {
    hide AfterFailure, NextAttemptNumber;
    FailureWrites(cfg, db, i, ch);
  }

  // ----- batches -----

  /** The state of a batch in flight: the first j of its rows have been delivered. */
  ghost predicate InBatch(cfg: Config, db: Db, ids: seq<Id>, env: nat -> Choice, k: nat, j: nat, now: int) {
    && j <= |ids| && Sound(cfg, db) && Ledger(cfg, db) && FreshFrom(env, k + j, db)
    && (forall p | 0 <= p < |ids| :: ids[p] in db.outbox)
    && (forall p | j <= p < |ids| :: Ready(db.outbox[ids[p]], now))
    && (forall p, q | 0 <= p < q < |ids| :: ids[p] != ids[q])
  }

  lemma DeliveryInBatch(cfg: Config, db: Db, ids: seq<Id>, env: nat -> Choice, k: nat, j: nat, now: int)
    requires InBatch(cfg, db, ids, env, k, j, now) && j < |ids| && At(env, k + j).now >= now
    ensures InBatch(cfg, Deliver(cfg, db, ids[j], At(env, k + j)), ids, env, k, j + 1, now)
    ensures Reaches(cfg, db, Deliver(cfg, db, ids[j], At(env, k + j)))
    ensures forall c | c in Commits(cfg, db, ids[j], At(env, k + j)) :: Reaches(cfg, db, c)
  {
    hide Deliver, Commits, Sound, Ledger, Reaches;
    var after := Deliver(cfg, db, ids[j], At(env, k + j));
    DeliveryReaches(cfg, db, ids[j], At(env, k + j));
    ReachedIsSound(cfg, db, after);
    DeliveryConfined(cfg, db, ids[j], At(env, k + j));
  }

  lemma {:induction false} BatchReaches(cfg: Config, db: Db, ids: seq<Id>, env: nat -> Choice, k: nat, j: nat, now: int)
    requires InBatch(cfg, db, ids, env, k, 0, now) && j <= |ids|
    requires Monotone(env) && At(env, k).now >= now
    ensures forall i | i in ids :: i in db.outbox
    ensures InBatch(cfg, DeliverAll(cfg, db, ids[..j], env, k), ids, env, k, j, now)
    ensures Reaches(cfg, db, DeliverAll(cfg, db, ids[..j], env, k))
    ensures forall c | c in CommitsAll(cfg, db, ids[..j], env, k) :: Reaches(cfg, db, c)
    decreases j
  {
    hide Deliver, Commits, Sound, Ledger, Reaches, DeliverAll, CommitsAll;
    if j == 0 {
      ReachesRefl(cfg, db);
      assert ids[..0] == [];
      NothingDelivered(cfg, db, env, k);
    } else {
      var prev := j - 1;
      BatchReaches(cfg, db, ids, env, k, prev, now);
      var part := DeliverAll(cfg, db, ids[..prev], env, k);
      OneMore(cfg, db, ids, env, k, prev);
      DeliveryInBatch(cfg, part, ids, env, k, prev, now);
      ReachesTrans(cfg, db, part, DeliverAll(cfg, db, ids[..j], env, k));
      forall c | c in Commits(cfg, part, ids[prev], At(env, k + prev)) ensures Reaches(cfg, db, c) {
        ReachesTrans(cfg, db, part, c);
      }
    }
  }

  lemma FetchStartsBatch(cfg: Config, db: Db, limit: nat, env: nat -> Choice, k: nat)
    requires Sound(cfg, db) && Ledger(cfg, db) && FreshFrom(env, k, db)
    ensures InBatch(cfg, db, Fetch(db, At(env, k).now, limit), env, k, 0, At(env, k).now)
  {
    FetchIsOldestReady(db, At(env, k).now, limit);
    hide Fetch, Sound, Ledger;
  }

  /** A whole batch: it is a run, and every copy it commits on the way, hence every copy a crash inside the
      batch can leave behind, is reached by a run too. */
  lemma BatchIsRun(cfg: Config, db: Db, limit: nat, env: nat -> Choice, k: nat)
    requires Sound(cfg, db) && Ledger(cfg, db) && FreshFrom(env, k, db) && Monotone(env)
    ensures var ids := Fetch(db, At(env, k).now, limit);
            var after := DeliverAll(cfg, db, ids, env, k);
            && Reaches(cfg, db, after) && Sound(cfg, after) && Ledger(cfg, after)
            && FreshFrom(env, k + |ids|, after)
            && forall c | c in CommitsAll(cfg, db, ids, env, k) ::
                 Reaches(cfg, db, c) && Sound(cfg, c) && Ledger(cfg, c)
  {
    hide Deliver, Commits, Sound, Ledger, Reaches, DeliverAll, CommitsAll, Fetch;
    var ids := Fetch(db, At(env, k).now, limit);
    FetchStartsBatch(cfg, db, limit, env, k);
    BatchReaches(cfg, db, ids, env, k, |ids|, At(env, k).now);
    assert ids[..|ids|] == ids;
    forall c | c in CommitsAll(cfg, db, ids, env, k) ensures Sound(cfg, c) && Ledger(cfg, c) {
      ReachedIsSound(cfg, db, c);
    }
  }
}
