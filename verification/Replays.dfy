/** What a replay leaves behind: a new row with the old event, and its time on the letter. */
module Replays {
  import opened Tables
  import opened EventsRepository
  import opened Inbox
  import opened Dispatcher
  import opened Idempotency
  import opened Orders
  import opened Saga
  import opened Business
  import opened Soundness

  /** Rows keep their event and the time they were written. */
  predicate StampsStay(a: Db, b: Db) {
    forall i | i in a.outbox ::
      i in b.outbox && b.outbox[i].event == a.outbox[i].event && b.outbox[i].occurredAt == a.outbox[i].occurredAt
  }

  /** Letters keep what they say, and one that has been replayed is not touched again. */
  predicate LettersStay(a: Db, b: Db) {
    forall d | d in a.deadLetters ::
      && d in b.deadLetters && b.deadLetters[d].(replayedAt := None) == a.deadLetters[d].(replayedAt := None)
      && (a.deadLetters[d].replayedAt.Some? ==> b.deadLetters[d] == a.deadLetters[d])
  }

  lemma StepKeepsStamps(cfg: Config, db: Db, step: Step)
    requires Sound(cfg, db) && Enabled(cfg, db, step)
    ensures StampsStay(db, Next(cfg, db, step)) && LettersStay(db, Next(cfg, db, step))
  {
    hide Handle, AfterFailure, Sound, Created, ValidRequest;
    match step {
      case OrderPlaced(order, items, correlation, use, ch) =>
        var start := if use.Some? then WithKey(db, use.value.key, use.value.hash, ch.now) else db;
        PlacementKeepsStamps(db, start, order, items, correlation, ch);
      case EventHandled(i, forced, ch) => CallKeepsStamps(cfg, db, i, forced, ch);
      case DeliveryFailed(i, ch) => FailureKeepsStamps(cfg, db, i, ch);
      case _ =>
    }
  }

  lemma PlacementKeepsStamps(db: Db, start: Db, order: Id, items: seq<Item>, correlation: Id, ch: Choice)
    requires AllStocked(start.inventory, items) && ch.eventId !in db.outbox && start == db.(keys := start.keys)
    ensures StampsStay(db, Created(start, order, items, correlation, ch))
    ensures Created(start, order, items, correlation, ch).deadLetters == db.deadLetters
  {
    hide Priced;
  }

  lemma CallKeepsStamps(cfg: Config, db: Db, i: Id, forced: bool, ch: Choice)
    requires Sound(cfg, db) && Enabled(cfg, db, EventHandled(i, forced, ch))
    ensures StampsStay(db, Next(cfg, db, EventHandled(i, forced, ch)))
    ensures Next(cfg, db, EventHandled(i, forced, ch)).deadLetters == db.deadLetters
  {
    hide Body, Sound;
    BodyLeaves(db, Delivered(db, i, forced), ch);
  }

  lemma FailureKeepsStamps(cfg: Config, db: Db, i: Id, ch: Choice)
    requires Sound(cfg, db) && Enabled(cfg, db, DeliveryFailed(i, ch))
    ensures var after := Next(cfg, db, DeliveryFailed(i, ch));
            && StampsStay(db, after)
            && (forall d | d in db.deadLetters :: d in after.deadLetters && after.deadLetters[d] == db.deadLetters[d])
            && forall d | d in after.deadLetters && d !in db.deadLetters :: after.deadLetters[d].replayedAt == None
  {
    hide Handle, AfterFailure, Sound, NextAttemptNumber, ConsumerForFailure;
    FailureIsClean(cfg, db, i, ch);
    FailureWrites(cfg, db, i, ch);
  }

  /** The row is the replay of the letter: another one, with the letter's event, written when the letter says. */
  predicate ReplayOf(db: Db, d: Id, i: Id)
    requires d in db.deadLetters
  {
    var letter := db.deadLetters[d];
    && i in db.outbox && i != letter.eventId && db.outbox[i].event == letter.event
    && letter.replayedAt == Some(db.outbox[i].occurredAt)
  }

  ghost predicate HasReplay(db: Db, d: Id)
    requires d in db.deadLetters
  {
    exists i :: ReplayOf(db, d, i)
  }

  ghost predicate ReplaysStamped(db: Db) {
    forall d | d in db.deadLetters && db.deadLetters[d].replayedAt.Some? :: HasReplay(db, d)
  }

  lemma StepKeepsReplayed(cfg: Config, db: Db, step: Step)
    requires Sound(cfg, db) && Enabled(cfg, db, step) && ReplaysStamped(db)
    ensures ReplaysStamped(Next(cfg, db, step))
  {
    hide Sound, Enabled, Next;
    var after := Next(cfg, db, step);
    StepKeepsStamps(cfg, db, step);
    forall d | d in after.deadLetters && after.deadLetters[d].replayedAt.Some? ensures HasReplay(after, d) {
      if d in db.deadLetters && db.deadLetters[d].replayedAt.Some? {
        var i :| ReplayOf(db, d, i);
        assert ReplayOf(after, d, i);
      } else {
        NewlyReplayed(cfg, db, step, d);
      }
    }
  }

  lemma NewlyReplayed(cfg: Config, db: Db, step: Step, d: Id)
    requires Sound(cfg, db) && Enabled(cfg, db, step)
    requires d in db.deadLetters ==> db.deadLetters[d].replayedAt.None?
    requires d in Next(cfg, db, step).deadLetters && Next(cfg, db, step).deadLetters[d].replayedAt.Some?
    ensures HasReplay(Next(cfg, db, step), d)
  {
    hide Handle, AfterFailure, Priced, ValidRequest, Sound;
    match step {
      case EventHandled(i, forced, ch) => CallKeepsStamps(cfg, db, i, forced, ch);
      case DeliveryFailed(i, ch) => FailureKeepsStamps(cfg, db, i, ch);
      case LetterReplayed(_, ch) =>
        LetterHasRow(cfg, db, d);
        assert ReplayOf(Next(cfg, db, step), d, ch.eventId);
      case _ =>
    }
  }

  lemma LetterHasRow(cfg: Config, db: Db, d: Id)
    requires Sound(cfg, db) && d in db.deadLetters
    ensures db.deadLetters[d].eventId in db.outbox
  {
  }

  /** In every run, each replayed letter has its replay: one more row, with the same event, written at the time the
      letter was stamped with. */
  lemma {:induction false} EveryReplayIsStamped(cfg: Config, db: Db, run: seq<Step>)
    requires Initial(db) && Valid(cfg, db, run)
    ensures ReplaysStamped(After(cfg, db, run))
    decreases |run|
  {
    hide Sound, Enabled, Next;
    if run != [] {
      var front := run[..|run| - 1];
      EveryReplayIsStamped(cfg, db, front);
      InitialIsSound(cfg, db);
      ReachableIsSound(cfg, db, front);
      StepKeepsReplayed(cfg, After(cfg, db, front), run[|run| - 1]);
    }
  }
}
