/** The retry ledger: attempts, failure counts, dead letters and back-off tell one story. */
module RetryLedger {
  import opened Tables
  import opened EventsRepository
  import opened Inbox
  import opened Dispatcher
  import opened Idempotency
  import opened Orders
  import opened Saga
  import opened Chain
  import opened Business
  import opened Soundness
  import opened Guarantees

  /** Attempts an event is given: at least one is always made. */
  function Allowed(cfg: Config): nat {
    if cfg.maxAttempts < 1 then 1 else cfg.maxAttempts
  }

  /** The attempts recorded for row i under the consumer the dispatcher books its failures on. */
  function Own(cfg: Config, db: Db, i: Id): seq<Attempt>
    requires i in db.outbox
  {
    AttemptsOf(db.attempts, i, ConsumerForFailure(cfg, db.outbox[i].event.etype))
  }

  predicate RowLedger(cfg: Config, row: Row, own: seq<Attempt>) {
    && |own| == row.failureCount
    && (forall k | 0 <= k < |own| :: own[k].number == k + 1)
    && (row.status.Failed? <==> row.failureCount >= Allowed(cfg)) && row.failureCount <= Allowed(cfg)
    && (forall k | 0 < k < |own| :: own[k].at >= own[k - 1].at + cfg.backoffSeconds * k)
    && row.nextAttemptAt == (if own == [] || !row.status.Pending? then None
                             else Some(own[|own| - 1].at + cfg.backoffSeconds * |own|))
  }

  predicate LetterLedger(cfg: Config, letter: DeadLetter, own: seq<Attempt>) {
    && letter.attemptNumber == |own| == Allowed(cfg) && letter.failedAt == own[|own| - 1].at
    && letter.consumer == own[|own| - 1].consumer
  }

  ghost predicate Ledger(cfg: Config, db: Db) {
    && (forall a | a in db.attempts :: a.eventId in db.outbox)
    && (forall i | i in db.outbox :: RowLedger(cfg, db.outbox[i], Own(cfg, db, i)))
    && (forall d | d in db.deadLetters ::
          db.deadLetters[d].eventId in db.outbox
          && LetterLedger(cfg, db.deadLetters[d], Own(cfg, db, db.deadLetters[d].eventId)))
  }

  lemma {:induction false} NoAttempts(attempts: seq<Attempt>, i: Id, consumer: Consumer)
    requires forall a | a in attempts :: a.eventId != i
    ensures AttemptsOf(attempts, i, consumer) == []
  {
    if attempts != [] {
      NoAttempts(attempts[..|attempts| - 1], i, consumer);
    }
  }

  lemma {:induction false} LatestOfNumbered(own: seq<Attempt>)
    requires forall k | 0 <= k < |own| :: own[k].number == k + 1
    ensures Latest(own) == |own|
  {
    if own != [] {
      LatestOfNumbered(own[..|own| - 1]);
    }
  }

  /** Steps that record no attempt: old rows stay or are published, new ones start empty, letters stay or are
      stamped. */
  ghost predicate Quiet(a: Db, b: Db) {
    && b.attempts == a.attempts
    && (forall i | i in a.outbox ::
          && i in b.outbox && b.outbox[i].event == a.outbox[i].event
          && (b.outbox[i] == a.outbox[i]
              || (b.outbox[i].status.Published? && a.outbox[i].status.Pending? && b.outbox[i].nextAttemptAt.None?
                  && b.outbox[i].failureCount == a.outbox[i].failureCount)))
    && (forall i | i in b.outbox && i !in a.outbox ::
          b.outbox[i].status.Pending? && b.outbox[i].failureCount == 0 && b.outbox[i].nextAttemptAt.None?)
    && (forall d | d in b.deadLetters ::
          d in a.deadLetters && b.deadLetters[d].(replayedAt := None) == a.deadLetters[d].(replayedAt := None))
  }

  lemma QuietKeepsLedger(cfg: Config, a: Db, b: Db)
    requires Ledger(cfg, a) && Quiet(a, b)
    ensures Ledger(cfg, b)
  {
    forall i | i in b.outbox ensures RowLedger(cfg, b.outbox[i], Own(cfg, b, i)) {
      if i !in a.outbox {
        NoAttempts(b.attempts, i, ConsumerForFailure(cfg, b.outbox[i].event.etype));
      } else {
        assert Own(cfg, b, i) == Own(cfg, a, i);
      }
    }
    forall d | d in b.deadLetters
      ensures b.deadLetters[d].eventId in b.outbox
              && LetterLedger(cfg, b.deadLetters[d], Own(cfg, b, b.deadLetters[d].eventId))
    {
      var i := a.deadLetters[d].eventId;
      assert Own(cfg, b, i) == Own(cfg, a, i);
    }
  }

  /** A recorded failure extends exactly the ledger of its row. */
  lemma FailureExtendsOwn(cfg: Config, a: Db, i: Id, ch: Choice, j: Id)
    requires i in a.outbox && j in a.outbox
    ensures var b, consumer := AfterFailure(cfg, a, i, ch), ConsumerForFailure(cfg, a.outbox[i].event.etype);
            && j in b.outbox
            && (if i == j
                then Own(cfg, b, j)
                     == Own(cfg, a, j) + [Attempt(i, consumer, NextAttemptNumber(a, i, consumer), ch.now)]
                else Own(cfg, b, j) == Own(cfg, a, j) && b.outbox[j] == a.outbox[j])
  {
    hide AfterFailure, NextAttemptNumber;
    FailureWrites(cfg, a, i, ch);
    var consumer := ConsumerForFailure(cfg, a.outbox[i].event.etype);
    var attempt := Attempt(i, consumer, NextAttemptNumber(a, i, consumer), ch.now);
    AttemptsAppend(a.attempts, attempt, j, ConsumerForFailure(cfg, a.outbox[j].event.etype));
  }

  lemma FailureRow(cfg: Config, a: Db, i: Id, ch: Choice)
    requires i in a.outbox && RowLedger(cfg, a.outbox[i], Own(cfg, a, i)) && Ready(a.outbox[i], ch.now)
    ensures var b := AfterFailure(cfg, a, i, ch);
            && i in b.outbox && RowLedger(cfg, b.outbox[i], Own(cfg, b, i))
            && (b.outbox[i].status.Failed? ==>
                  ch.recordId in b.deadLetters && LetterLedger(cfg, b.deadLetters[ch.recordId], Own(cfg, b, i)))
  {
    hide AfterFailure, AttemptsOf, Latest;
    FailureWrites(cfg, a, i, ch);
    FailureExtendsOwn(cfg, a, i, ch, i);
  }

  lemma FailureKeepsLedger(cfg: Config, a: Db, i: Id, ch: Choice)
    requires Ledger(cfg, a) && i in a.outbox && Ready(a.outbox[i], ch.now)
    requires ch.recordId !in a.deadLetters && forall d | d in a.deadLetters :: a.deadLetters[d].eventId != i
    ensures Ledger(cfg, AfterFailure(cfg, a, i, ch))
  {
    hide AfterFailure, RowLedger, LetterLedger, Own, NextAttemptNumber;
    var b := AfterFailure(cfg, a, i, ch);
    FailureRow(cfg, a, i, ch);
    FailureWrites(cfg, a, i, ch);
    forall j | j in b.outbox ensures RowLedger(cfg, b.outbox[j], Own(cfg, b, j)) {
      FailureExtendsOwn(cfg, a, i, ch, j);
    }
    forall d | d in b.deadLetters
      ensures LetterLedger(cfg, b.deadLetters[d], Own(cfg, b, b.deadLetters[d].eventId))
    {
      FailureExtendsOwn(cfg, a, i, ch, b.deadLetters[d].eventId);
    }
  }

  lemma StepKeepsLedger(cfg: Config, db: Db, step: Step)
    requires Sound(cfg, db) && Ledger(cfg, db) && Enabled(cfg, db, step)
    ensures Ledger(cfg, Next(cfg, db, step))
  {
    hide Handle, AfterFailure, Ledger, Sound;
    match step {
      case EventHandled(i, forced, ch) => HandledKeepsLedger(cfg, db, i, forced, ch);
      case DeliveryFailed(i, ch) => FailedKeepsLedger(cfg, db, i, ch);
      case _ => OtherStepsAreQuiet(cfg, db, step);
    }
  }

  lemma OtherStepsAreQuiet(cfg: Config, db: Db, step: Step)
    requires Ledger(cfg, db) && Enabled(cfg, db, step) && !step.EventHandled? && !step.DeliveryFailed?
    ensures Ledger(cfg, Next(cfg, db, step))
  {
    hide Handle, AfterFailure, Ledger, Next, Quiet;
    OtherStepIsQuiet(cfg, db, step);
    QuietKeepsLedger(cfg, db, Next(cfg, db, step));
  }

  lemma OtherStepIsQuiet(cfg: Config, db: Db, step: Step)
    requires Enabled(cfg, db, step) && !step.EventHandled? && !step.DeliveryFailed?
    ensures Quiet(db, Next(cfg, db, step))
  {
    hide Handle, AfterFailure, Priced, AllStocked, ValidRequest, Created;
    match step {
      case StockAdded(sku, item) =>
      case ResponseStored(key, order, _) =>
      case OrderPlaced(order, items, correlation, use, ch) =>
        var start := if use.Some? then WithKey(db, use.value.key, use.value.hash, ch.now) else db;
        CreationIsQuiet(db, start, order, items, correlation, ch);
      case EventPublished(i) =>
      case LetterReplayed(d, ch) =>
    }
  }

  lemma CreationIsQuiet(a: Db, start: Db, order: Id, items: seq<Item>, correlation: Id, ch: Choice)
    requires AllStocked(start.inventory, items) && ch.eventId !in a.outbox && start == a.(keys := start.keys)
    ensures Quiet(a, Created(start, order, items, correlation, ch))
  {
    hide Priced;
  }

  lemma FailedKeepsLedger(cfg: Config, db: Db, i: Id, ch: Choice)
    requires Sound(cfg, db) && Ledger(cfg, db) && Enabled(cfg, db, DeliveryFailed(i, ch))
    ensures Ledger(cfg, Next(cfg, db, DeliveryFailed(i, ch)))
  {
    hide Ledger, AfterFailure;
    FailureIsClean(cfg, db, i, ch);
    FailureKeepsLedger(cfg, db, i, ch);
  }

  lemma HandledKeepsLedger(cfg: Config, db: Db, i: Id, forced: bool, ch: Choice)
    requires Sound(cfg, db) && Ledger(cfg, db) && Enabled(cfg, db, EventHandled(i, forced, ch))
    ensures Ledger(cfg, Next(cfg, db, EventHandled(i, forced, ch)))
  {
    hide Handle, Ledger, Sound;
    var after := Next(cfg, db, EventHandled(i, forced, ch));
    HandledCases(cfg, db, i, forced, ch);
    if !Processed(ShapeOf(db), i) {
      if Ends(db.outbox[i].event.etype) {
        HandlerFinishes(cfg, db, i, forced, ch);
      }
      QuietKeepsLedger(cfg, db, after);
    }
  }

  lemma {:induction false} ReachableLedger(cfg: Config, db: Db, run: seq<Step>)
    requires Sound(cfg, db) && Ledger(cfg, db) && Valid(cfg, db, run)
    ensures Ledger(cfg, After(cfg, db, run))
    decreases |run|
  {
    hide Sound, Ledger, Enabled, Next;
    if run != [] {
      var front := run[..|run| - 1];
      ReachableLedger(cfg, db, front);
      ReachableIsSound(cfg, db, front);
      StepKeepsLedger(cfg, After(cfg, db, front), run[|run| - 1]);
    }
  }

  /** From an empty system, every run keeps both invariants. */
  lemma ReachableFromInitial(cfg: Config, db: Db, run: seq<Step>)
    requires Initial(db) && Valid(cfg, db, run)
    ensures Sound(cfg, After(cfg, db, run)) && Ledger(cfg, After(cfg, db, run))
  {
    hide Sound, Valid, After;
    InitialIsSound(cfg, db);
    ReachableIsSound(cfg, db, run);
    ReachableLedger(cfg, db, run);
  }

  /** What the ledger says of one row: attempts 1..n without gaps, n the failure count, FAILED exactly at n = M
      with exactly one dead letter, numbered M. */
  lemma LedgerOfRow(cfg: Config, db: Db, i: Id)
    requires Sound(cfg, db) && Ledger(cfg, db) && i in db.outbox
    ensures var own := Own(cfg, db, i);
            && |own| == db.outbox[i].failureCount <= Allowed(cfg)
            && |own| == |Places(db.attempts, i, ConsumerForFailure(cfg, db.outbox[i].event.etype))|
            && (forall k | 0 <= k < |own| :: own[k].number == k + 1)
            && (db.outbox[i].status.Failed? <==> |own| == Allowed(cfg))
            && (db.outbox[i].status.Failed? <==>
                exists d :: LetterOf(ShapeOf(db), d, i) && db.deadLetters[d].attemptNumber == Allowed(cfg)
                            && forall c | LetterOf(ShapeOf(db), c, i) :: c == d)
  {
    CountIsOwn(db.attempts, i, ConsumerForFailure(cfg, db.outbox[i].event.etype));
    if db.outbox[i].status.Failed? {
      assert HasLetter(ShapeOf(db), i);
      var d :| LetterOf(ShapeOf(db), d, i);
      assert LetterLedger(cfg, db.deadLetters[d], Own(cfg, db, i));
    }
  }
}
