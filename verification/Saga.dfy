/** The saga as one state machine over committed databases. Each step is one commit; a crash drops
    everything since the last one, so it is the absence of a step. The two commits of one delivery are
    two steps, and anything may happen between them. */
module Saga {
  import opened Tables
  import opened EventsRepository
  import opened Inbox
  import opened Dispatcher
  import opened Idempotency
  import opened Orders

  datatype Step =
    | StockAdded(sku: Sku, item: StockItem)
    | OrderPlaced(order: Id, items: seq<Item>, correlation: Id, use: Option<KeyUse>, ch: Choice)
    | ResponseStored(key: string, order: Id, now: int)
      // A handler ran on the row's envelope: a first delivery, or any later redelivery.
      // `forced` sets payment_should_fail on the delivered envelope.
    | EventHandled(i: Id, forced: bool, ch: Choice)
      // The dispatcher marks a row whose handler has returned.
    | EventPublished(i: Id)
      // A delivery raised and its bookkeeping was committed.
    | DeliveryFailed(i: Id, ch: Choice)
    | LetterReplayed(d: Id, ch: Choice)

  function Delivered(db: Db, i: Id, forced: bool): Envelope
    requires i in db.outbox
  {
    var event := db.outbox[i].event;
    Envelope(i, event.(payload := event.payload.(shouldFail := event.payload.shouldFail || forced)))
  }

  predicate FreshIds(db: Db, ch: Choice) {
    && ch.eventId !in db.outbox
    && ch.recordId !in db.payments && ch.recordId !in db.invoices && ch.recordId !in db.notifications
    && ch.recordId !in db.deadLetters
  }

  predicate MayHandle(cfg: Config, db: Db, i: Id, forced: bool, ch: Choice) {
    && i in db.outbox && db.outbox[i].event.etype in Routed(cfg)
    && FreshIds(db, ch)
    && !Handle(db, Delivered(db, i, forced), ch).Raised?
  }

  predicate Enabled(cfg: Config, db: Db, step: Step) {
    match step
    case StockAdded(sku, item) =>
      sku !in db.inventory && item.available >= 0 && item.unitPrice >= 0
    case OrderPlaced(order, items, correlation, use, ch) =>
      && order !in db.orders && FreshIds(db, ch)
      && ValidRequest(items) && AllStocked(db.inventory, items)
      && (use.Some? ==> Free(db, use.value.key, ch.now))
    case ResponseStored(key, order, _) =>
      key in db.keys && order in db.orders
    case EventHandled(i, forced, ch) =>
      MayHandle(cfg, db, i, forced, ch) && !db.outbox[i].status.Failed?
    case EventPublished(i) =>
      && i in db.outbox && db.outbox[i].status.Pending?
      && db.outbox[i].event.etype in Routed(cfg) && HasProcessed(db, EnvelopeOf(db, i))
    case DeliveryFailed(i, ch) =>
      && i in db.outbox && Ready(db.outbox[i], ch.now) && FreshIds(db, ch)
      && HandleRow(cfg, db, i, ch).Raised?
    case LetterReplayed(d, ch) =>
      Replayable(db, d) && FreshIds(db, ch)
  }

  /** The clock reading of a step that reads the clock. */
  function ClockOf(step: Step): Option<int> {
    match step
    case OrderPlaced(_, _, _, _, ch) => Some(ch.now)
    case ResponseStored(_, _, now) => Some(now)
    case EventHandled(_, _, ch) => Some(ch.now)
    case DeliveryFailed(_, ch) => Some(ch.now)
    case LetterReplayed(_, ch) => Some(ch.now)
    case _ => None
  }

  function HandledDb(db: Db, e: Envelope, ch: Choice): Db
    requires !Handle(db, e, ch).Raised?
  {
    var outcome := Handle(db, e, ch);
    if outcome.Skipped? then db else outcome.db
  }

  function Next(cfg: Config, db: Db, step: Step): Db
    requires Enabled(cfg, db, step)
  {
    match step
    case StockAdded(sku, item) => db.(inventory := db.inventory[sku := item])
    case OrderPlaced(order, items, correlation, use, ch) =>
      var start := if use.Some? then WithKey(db, use.value.key, use.value.hash, ch.now) else db;
      Created(start, order, items, correlation, ch)
    case ResponseStored(key, order, _) =>
      WithResponse(db, key, OrderRead(order, db.orders[order].(status := OrderPending)))
    case EventHandled(i, forced, ch) => HandledDb(db, Delivered(db, i, forced), ch)
    case EventPublished(i) => WithPublished(db, i)
    case DeliveryFailed(i, ch) =>
      RaisingLeavesOutbox(cfg, db, i, ch);
      AfterFailure(cfg, HandleRow(cfg, db, i, ch).db, i, ch)
    case LetterReplayed(d, ch) => WithReplay(db, d, ch.now, ch.eventId)
  }

  /** A sequence of steps, each enabled where it is taken. */
  predicate Valid(cfg: Config, db: Db, run: seq<Step>)
    decreases |run|, 0
  {
    run != [] ==>
      var front := run[..|run| - 1];
      Valid(cfg, db, front) && Enabled(cfg, After(cfg, db, front), run[|run| - 1])
  }

  function After(cfg: Config, db: Db, run: seq<Step>): Db
    requires Valid(cfg, db, run)
    decreases |run|, 1
  {
    if run == [] then db
    else Next(cfg, After(cfg, db, run[..|run| - 1]), run[|run| - 1])
  }

  // ----- what the code accepts -----

  /** What the code accepts: the steps of the state machine, and a handler call on any row at all. */
  predicate Accepts(cfg: Config, db: Db, step: Step) {
    if step.EventHandled? then MayHandle(cfg, db, step.i, step.forced, step.ch) else Enabled(cfg, db, step)
  }

  predicate HandlesGivenUp(db: Db, step: Step) {
    step.EventHandled? && step.i in db.outbox && db.outbox[step.i].status.Failed?
  }

  function AcceptedNext(cfg: Config, db: Db, step: Step): Db
    requires Accepts(cfg, db, step)
  {
    if step.EventHandled? then HandledDb(db, Delivered(db, step.i, step.forced), step.ch) else Next(cfg, db, step)
  }

  predicate AcceptedRun(cfg: Config, db: Db, run: seq<Step>)
    decreases |run|, 0
  {
    run != [] ==>
      var front := run[..|run| - 1];
      AcceptedRun(cfg, db, front) && Accepts(cfg, AcceptedAfter(cfg, db, front), run[|run| - 1])
  }

  function AcceptedAfter(cfg: Config, db: Db, run: seq<Step>): Db
    requires AcceptedRun(cfg, db, run)
    decreases |run|, 1
  {
    if run == [] then db
    else AcceptedNext(cfg, AcceptedAfter(cfg, db, run[..|run| - 1]), run[|run| - 1])
  }

  lemma SameStep(cfg: Config, db: Db, step: Step)
    requires Accepts(cfg, db, step) && !HandlesGivenUp(db, step)
    ensures Enabled(cfg, db, step) && Next(cfg, db, step) == AcceptedNext(cfg, db, step)
  {
    hide Handle;
  }

  /** Where runs start: stock, and nothing else. */
  predicate Initial(db: Db) {
    && (forall s | s in db.inventory :: db.inventory[s].available >= 0)
    && db.orders == map[] && db.outbox == map[] && db.inbox == {} && db.attempts == []
    && db.deadLetters == map[] && db.payments == map[] && db.invoices == map[]
    && db.notifications == map[] && db.keys == map[]
  }

  lemma {:induction false} Prefix(cfg: Config, db: Db, run: seq<Step>, n: nat)
    requires Valid(cfg, db, run) && n <= |run|
    ensures Valid(cfg, db, run[..n])
    decreases |run|
  {
    if n < |run| {
      var front := run[..|run| - 1];
      Prefix(cfg, db, front, n);
      assert front[..n] == run[..n];
    } else {
      assert run[..n] == run;
    }
  }

  lemma OneStep(cfg: Config, db: Db, run: seq<Step>, n: nat)
    requires Valid(cfg, db, run) && n < |run|
    ensures Valid(cfg, db, run[..n]) && Enabled(cfg, After(cfg, db, run[..n]), run[n])
    ensures Valid(cfg, db, run[..n + 1]) && After(cfg, db, run[..n + 1]) == Next(cfg, After(cfg, db, run[..n]), run[n])
  {
    Prefix(cfg, db, run, n + 1);
    assert run[..n + 1][..n] == run[..n];
  }

  lemma NoSteps(cfg: Config, db: Db)
    ensures Valid(cfg, db, []) && After(cfg, db, []) == db
  {
  }

  lemma OneStepMore(cfg: Config, db: Db, run: seq<Step>, step: Step, longer: seq<Step>)
    requires Valid(cfg, db, run) && Enabled(cfg, After(cfg, db, run), step) && longer == run + [step]
    ensures Valid(cfg, db, longer) && After(cfg, db, longer) == Next(cfg, After(cfg, db, run), step)
  {
    hide Enabled, Next;
    assert longer[..|longer| - 1] == run;
  }

  lemma {:induction false} AcceptedPrefix(cfg: Config, db: Db, run: seq<Step>, n: nat)
    requires AcceptedRun(cfg, db, run) && n <= |run|
    ensures AcceptedRun(cfg, db, run[..n])
    decreases |run|
  {
    hide Accepts, AcceptedNext;
    if n < |run| {
      var front := run[..|run| - 1];
      AcceptedPrefix(cfg, db, front, n);
      assert front[..n] == run[..n];
    } else {
      assert run[..n] == run;
    }
  }

  lemma OneAcceptedStep(cfg: Config, db: Db, run: seq<Step>, n: nat)
    requires AcceptedRun(cfg, db, run) && n < |run|
    ensures AcceptedRun(cfg, db, run[..n]) && Accepts(cfg, AcceptedAfter(cfg, db, run[..n]), run[n])
    ensures AcceptedRun(cfg, db, run[..n + 1])
    ensures AcceptedAfter(cfg, db, run[..n + 1]) == AcceptedNext(cfg, AcceptedAfter(cfg, db, run[..n]), run[n])
  {
    hide Accepts, AcceptedNext;
    AcceptedPrefix(cfg, db, run, n + 1);
    assert run[..n + 1][..n] == run[..n];
  }
}
