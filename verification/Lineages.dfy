/** One live representative per event value, in every run the code accepts: no soundness is needed for it, so it
    survives calls on rows that were given up. */
module Lineages {
  import opened Tables
  import opened EventsRepository
  import opened Inbox
  import opened Dispatcher
  import opened Idempotency
  import opened Orders
  import opened Saga
  import opened Chain
  import opened Soundness

  // ----- the invariant -----

  /** A marker is of a row that exists and was routed to the marker's consumer. */
  predicate Marks(cfg: Config, db: Db) {
    forall m | m in db.inbox ::
      && m.1 in db.outbox && m.0 == ConsumerOf(db.outbox[m.1].event.etype)
      && db.outbox[m.1].event.etype in Routed(cfg)
  }

  /** A cause has been handled; an event without one belongs to an order. */
  predicate CauseOk(db: Db, event: Event) {
    match event.causation
    case None => event.order in db.orders
    case Some(c) => Processed(ShapeOf(db), c)
  }

  predicate Causes(db: Db) {
    forall i {:trigger CauseOk(db, db.outbox[i].event)} | i in db.outbox :: CauseOk(db, db.outbox[i].event)
  }

  ghost predicate OneLiveEvent(db: Db) {
    forall a, b | Live(ShapeOf(db), a) && Live(ShapeOf(db), b)
                  && Represented(ShapeOf(db), a) == Represented(ShapeOf(db), b) :: a == b
  }

  predicate LettersOk(db: Db) {
    && (forall d | d in db.deadLetters ::
          && db.deadLetters[d].eventId in db.outbox && db.outbox[db.deadLetters[d].eventId].status.Failed?
          && db.outbox[db.deadLetters[d].eventId].event == db.deadLetters[d].event)
    && (forall c, d | c in db.deadLetters && d in db.deadLetters
                      && db.deadLetters[c].eventId == db.deadLetters[d].eventId :: c == d)
  }

  ghost predicate Traced(cfg: Config, db: Db) {
    Marks(cfg, db) && Causes(db) && OneLiveEvent(db) && LettersOk(db)
  }

  // ----- what changes -----

  /** Rows, markers and orders stay. */
  predicate Remembers(a: Db, b: Db) {
    && (forall i | i in a.outbox :: i in b.outbox && b.outbox[i].event == a.outbox[i].event)
    && a.inbox <= b.inbox && a.orders.Keys <= b.orders.Keys
  }

  lemma CausesStay(a: Db, b: Db, n: Id)
    requires Remembers(a, b) && Causes(a) && forall i | i in b.outbox && i !in a.outbox :: i == n
    requires n in b.outbox && n !in a.outbox ==> CauseOk(b, b.outbox[n].event)
    ensures Causes(b)
  {
    forall i | i in b.outbox ensures CauseOk(b, b.outbox[i].event) {
      if i in a.outbox {
        assert CauseOk(a, a.outbox[i].event);
      }
    }
  }

  /** At most one new row, and only with an event nobody had. */
  ghost predicate FreshEvent(a: Db, b: Db, n: Id) {
    && b.deadLetters == a.deadLetters
    && (forall i | i in a.outbox :: i in b.outbox && b.outbox[i].event == a.outbox[i].event
                                    && (b.outbox[i].status.Failed? <==> a.outbox[i].status.Failed?))
    && (forall i | i in b.outbox && i !in a.outbox :: i == n)
    && (n in b.outbox && n !in a.outbox ==>
          b.outbox[n].status.Pending? && forall i | i in a.outbox :: a.outbox[i].event != b.outbox[n].event)
  }

  lemma FreshEventKeeps(a: Db, b: Db, n: Id)
    requires OneLiveEvent(a) && LettersOk(a) && FreshEvent(a, b, n)
    ensures OneLiveEvent(b) && LettersOk(b)
  {
    forall x, y | Live(ShapeOf(b), x) && Live(ShapeOf(b), y) && Represented(ShapeOf(b), x) == Represented(ShapeOf(b), y)
      ensures x == y
    {
      LiveWas(a, b, n, x);
      LiveWas(a, b, n, y);
    }
  }

  lemma LiveWas(a: Db, b: Db, n: Id, rep: Rep)
    requires LettersOk(a) && FreshEvent(a, b, n) && Live(ShapeOf(b), rep)
    ensures if rep == RowRep(n) && n !in a.outbox
            then forall i | i in a.outbox :: a.outbox[i].event != Represented(ShapeOf(b), rep)
            else && Live(ShapeOf(a), rep) && Represented(ShapeOf(a), rep) == Represented(ShapeOf(b), rep)
                 && exists i :: i in a.outbox && a.outbox[i].event == Represented(ShapeOf(b), rep)
  {
    if rep.LetterRep? {
      assert a.deadLetters[rep.d].eventId in a.outbox;
    }
  }

  /** A live row that has been handled stays live and handled. */
  predicate StaysHandled(a: Db, b: Db) {
    forall i | i in a.outbox && Processed(ShapeOf(a), i) && !a.outbox[i].status.Failed? ::
      Processed(ShapeOf(b), i) && !b.outbox[i].status.Failed?
  }

  // ----- handler calls -----

  lemma CallTraced(cfg: Config, db: Db, i: Id, forced: bool, ch: Choice)
    requires Traced(cfg, db) && MayHandle(cfg, db, i, forced, ch)
    ensures var after := HandledDb(db, Delivered(db, i, forced), ch);
            && Traced(cfg, after) && Remembers(db, after) && Processed(ShapeOf(after), i)
            && (forall j | j in db.outbox :: after.outbox[j] == db.outbox[j])
            && (Handle(db, Delivered(db, i, forced), ch).Applied? ==> !Processed(ShapeOf(db), i))
            && StaysHandled(db, after)
  {
    hide Body, OneLiveEvent, LettersOk, Causes;
    var e := Delivered(db, i, forced);
    if !HasProcessed(db, e) {
      var after := HandledDb(db, e, ch);
      BodyLeaves(db, e, ch);
      NothingCites(db, i);
      FreshEventKeeps(db, after, ch.eventId);
      CausesStay(db, after, ch.eventId);
    }
  }

  lemma NothingCites(db: Db, i: Id)
    requires Causes(db) && !Processed(ShapeOf(db), i)
    ensures forall j | j in db.outbox :: db.outbox[j].event.causation != Some(i)
  {
    forall j | j in db.outbox ensures db.outbox[j].event.causation != Some(i) {
      assert CauseOk(db, db.outbox[j].event);
    }
  }

  // ----- the other steps -----

  lemma PlacementTraced(cfg: Config, db: Db, step: Step)
    requires Traced(cfg, db) && step.OrderPlaced? && Enabled(cfg, db, step)
    ensures var after := Next(cfg, db, step);
            Traced(cfg, after) && Remembers(db, after) && StaysHandled(db, after)
  {
    hide ValidRequest, Created, Traced, Remembers, StaysHandled;
    var start := if step.use.Some? then WithKey(db, step.use.value.key, step.use.value.hash, step.ch.now) else db;
    assert start == db.(keys := start.keys);
    CreationTraced(cfg, db, start, step.order, step.items, step.correlation, step.ch);
  }

  lemma CreationTraced(cfg: Config, db: Db, start: Db, order: Id, items: seq<Item>, correlation: Id, ch: Choice)
    requires Traced(cfg, db) && start == db.(keys := start.keys)
    requires AllStocked(start.inventory, items) && order !in db.orders && ch.eventId !in db.outbox
    ensures var after := Created(start, order, items, correlation, ch);
            Traced(cfg, after) && Remembers(db, after) && StaysHandled(db, after)
  {
    hide Priced, OneLiveEvent, LettersOk, Causes;
    var after := Created(start, order, items, correlation, ch);
    NobodyHasIt(db, order);
    FreshEventKeeps(db, after, ch.eventId);
    CausesStay(db, after, ch.eventId);
  }

  lemma NobodyHasIt(db: Db, order: Id)
    requires Causes(db) && order !in db.orders
    ensures forall i | i in db.outbox :: db.outbox[i].event.causation.Some? || db.outbox[i].event.order != order
  {
    forall i | i in db.outbox ensures db.outbox[i].event.causation.Some? || db.outbox[i].event.order != order {
      assert CauseOk(db, db.outbox[i].event);
    }
  }

  lemma QuietStepTraced(cfg: Config, db: Db, step: Step)
    requires Traced(cfg, db) && Enabled(cfg, db, step)
    requires step.StockAdded? || step.ResponseStored? || step.EventPublished?
    ensures var after := Next(cfg, db, step);
            Traced(cfg, after) && Remembers(db, after) && StaysHandled(db, after)
  {
    hide OneLiveEvent, LettersOk, Causes;
    var after := Next(cfg, db, step);
    FreshEventKeeps(db, after, 0);
    CausesStay(db, after, 0);
  }

  /** The representative `gone` hands its event to `come`; all others stay. */
  lemma HandedOver(a: Db, b: Db, gone: Rep, come: Rep)
    requires OneLiveEvent(a) && Live(ShapeOf(a), gone)
    requires Live(ShapeOf(b), come) ==> Represented(ShapeOf(b), come) == Represented(ShapeOf(a), gone)
    requires forall rep | Live(ShapeOf(b), rep) && rep != come ::
               && Live(ShapeOf(a), rep) && rep != gone
               && Represented(ShapeOf(b), rep) == Represented(ShapeOf(a), rep)
    ensures OneLiveEvent(b)
  {
  }

  lemma ReplayTraced(cfg: Config, db: Db, d: Id, ch: Choice)
    requires Traced(cfg, db) && Replayable(db, d) && FreshIds(db, ch)
    ensures var after := WithReplay(db, d, ch.now, ch.eventId);
            Traced(cfg, after) && Remembers(db, after) && StaysHandled(db, after)
  {
    hide OneLiveEvent, Causes;
    var after := WithReplay(db, d, ch.now, ch.eventId);
    HandedOver(db, after, LetterRep(d), RowRep(ch.eventId));
    CauseOfLetter(db, d);
    CausesStay(db, after, ch.eventId);
  }

  lemma CauseOfLetter(db: Db, d: Id)
    requires Causes(db) && LettersOk(db) && d in db.deadLetters
    ensures CauseOk(db, db.deadLetters[d].event)
  {
    assert CauseOk(db, db.outbox[db.deadLetters[d].eventId].event);
  }

  lemma FailureTraced(cfg: Config, db: Db, i: Id, ch: Choice)
    requires Traced(cfg, db) && Enabled(cfg, db, DeliveryFailed(i, ch))
    ensures var after := Next(cfg, db, DeliveryFailed(i, ch));
            Traced(cfg, after) && Remembers(db, after) && StaysHandled(db, after)
  {
    hide AfterFailure, NextAttemptNumber, ConsumerForFailure, DelayForAttempt, Traced, Remembers, StaysHandled;
    RaisingLeavesOutbox(cfg, db, i, ch);
    var left := HandleRow(cfg, db, i, ch).db;
    FailureWrites(cfg, left, i, ch);
    BookkeepingTraced(cfg, db, AfterFailure(cfg, left, i, ch), i, ch.recordId);
  }

  lemma BookkeepingTraced(cfg: Config, a: Db, b: Db, i: Id, d: Id)
    requires Traced(cfg, a) && i in a.outbox && i in b.outbox && !a.outbox[i].status.Failed?
    requires !(Processed(ShapeOf(a), i) && a.outbox[i].event.etype in Routed(cfg))
    requires b.outbox == a.outbox[i := b.outbox[i]] && b.outbox[i].event == a.outbox[i].event
    requires b.inbox == a.inbox && b.orders == a.orders && d !in a.deadLetters
    requires if b.outbox[i].status.Failed?
             then && d in b.deadLetters && b.deadLetters == a.deadLetters[d := b.deadLetters[d]]
                  && b.deadLetters[d].eventId == i && b.deadLetters[d].event == a.outbox[i].event
             else b.deadLetters == a.deadLetters
    ensures Traced(cfg, b) && Remembers(a, b) && StaysHandled(a, b)
  {
    hide OneLiveEvent, Causes;
    CausesStay(a, b, i);
    if b.outbox[i].status.Failed? {
      HandedOver(a, b, RowRep(i), LetterRep(d));
    } else {
      FreshEventKeeps(a, b, i);
    }
  }

  lemma StepTraced(cfg: Config, db: Db, step: Step)
    requires Traced(cfg, db) && Accepts(cfg, db, step)
    ensures var after := AcceptedNext(cfg, db, step);
            Traced(cfg, after) && Remembers(db, after) && StaysHandled(db, after)
  {
    hide Traced, Handle, Enabled, Next, Remembers;
    match step {
      case EventHandled(i, forced, ch) => CallTraced(cfg, db, i, forced, ch);
      case OrderPlaced(_, _, _, _, _) => PlacementTraced(cfg, db, step);
      case DeliveryFailed(i, ch) => FailureTraced(cfg, db, i, ch);
      case LetterReplayed(d, ch) => ReplayStep(cfg, db, d, ch);
      case _ => QuietStepTraced(cfg, db, step);
    }
  }

  lemma ReplayStep(cfg: Config, db: Db, d: Id, ch: Choice)
    requires Traced(cfg, db) && Enabled(cfg, db, LetterReplayed(d, ch))
    ensures var after := Next(cfg, db, LetterReplayed(d, ch));
            Traced(cfg, after) && Remembers(db, after) && StaysHandled(db, after)
  {
    hide Traced, Remembers, StaysHandled;
    ReplayTraced(cfg, db, d, ch);
  }

  // ----- over whole runs -----

  lemma {:induction false} RunTraced(cfg: Config, db: Db, run: seq<Step>)
    requires Traced(cfg, db) && AcceptedRun(cfg, db, run)
    ensures Traced(cfg, AcceptedAfter(cfg, db, run))
    decreases |run|
  {
    hide Traced, Accepts, AcceptedNext, Remembers, StaysHandled;
    if run != [] {
      RunTraced(cfg, db, run[..|run| - 1]);
      StepTraced(cfg, AcceptedAfter(cfg, db, run[..|run| - 1]), run[|run| - 1]);
    }
  }

  lemma {:induction false} RunRemembers(cfg: Config, db: Db, run: seq<Step>, m: nat, n: nat)
    requires Traced(cfg, db) && AcceptedRun(cfg, db, run) && m <= n <= |run|
    requires AcceptedRun(cfg, db, run[..m]) && AcceptedRun(cfg, db, run[..n])
    ensures Remembers(AcceptedAfter(cfg, db, run[..m]), AcceptedAfter(cfg, db, run[..n]))
    ensures StaysHandled(AcceptedAfter(cfg, db, run[..m]), AcceptedAfter(cfg, db, run[..n]))
    decreases n
  {
    hide Traced, Accepts, AcceptedNext;
    if m < n {
      OneAcceptedStep(cfg, db, run, n - 1);
      RunRemembers(cfg, db, run, m, n - 1);
      RunTraced(cfg, db, run[..n - 1]);
      StepTraced(cfg, AcceptedAfter(cfg, db, run[..n - 1]), run[n - 1]);
    }
  }

  lemma ProcessedStays(a: Db, b: Db, i: Id)
    requires Remembers(a, b) && Processed(ShapeOf(a), i)
    ensures Processed(ShapeOf(b), i) && b.outbox[i].event == a.outbox[i].event
  {
  }

  /** The k-th step of the run is a handler call for the event. */
  predicate CallAt(cfg: Config, db: Db, run: seq<Step>, k: nat, event: Event) {
    && k < |run| && AcceptedRun(cfg, db, run[..k]) && Accepts(cfg, AcceptedAfter(cfg, db, run[..k]), run[k])
    && run[k].EventHandled? && AcceptedAfter(cfg, db, run[..k]).outbox[run[k].i].event == event
  }

  /** And the body ran: it was not a redelivery. */
  predicate AppliedAt(cfg: Config, db: Db, run: seq<Step>, k: nat, event: Event) {
    && CallAt(cfg, db, run, k, event)
    && Handle(AcceptedAfter(cfg, db, run[..k]), Delivered(AcceptedAfter(cfg, db, run[..k]), run[k].i, run[k].forced),
              run[k].ch).Applied?
  }

  /** The k-th step of the run is a handler call on a row that has been given up by then. */
  predicate GivenUpAt(cfg: Config, db: Db, run: seq<Step>, k: nat) {
    && k < |run| && AcceptedRun(cfg, db, run[..k])
    && HandlesGivenUp(AcceptedAfter(cfg, db, run[..k]), run[k])
  }

  /** Of all the calls an accepted run ever makes for one event, every one after a call that returned is a
      redelivery, unless one of the two is on a row that has been given up at that moment. */
  lemma TwoCallsNeedGivenUp(cfg: Config, db: Db, run: seq<Step>, m: nat, n: nat, event: Event)
    requires Traced(cfg, db) && AcceptedRun(cfg, db, run) && m < n
    requires CallAt(cfg, db, run, m, event) && AppliedAt(cfg, db, run, n, event)
    ensures GivenUpAt(cfg, db, run, m) || GivenUpAt(cfg, db, run, n)
  {
    hide Traced, Handle, Remembers, AcceptedNext, Processed, StaysHandled;
    var b, i, j := AcceptedAfter(cfg, db, run[..n]), run[m].i, run[n].i;
    RunTraced(cfg, db, run[..n]) by { AcceptedPrefix(cfg, db, run, n); }
    if !GivenUpAt(cfg, db, run, m) && !GivenUpAt(cfg, db, run, n) {
      CallIsRemembered(cfg, db, run, m, n, event);
      OneRow(cfg, b, i, j) by { ProcessedHasRow(b, i); }
      CallTraced(cfg, b, j, run[n].forced, run[n].ch);
    }
  }

  /** Once a call has returned, its row stays processed; and live, if it was. */
  lemma CallIsRemembered(cfg: Config, db: Db, run: seq<Step>, m: nat, n: nat, event: Event)
    requires Traced(cfg, db) && AcceptedRun(cfg, db, run) && m < n <= |run| && CallAt(cfg, db, run, m, event)
    requires AcceptedRun(cfg, db, run[..n])
    ensures var b := AcceptedAfter(cfg, db, run[..n]);
            && Processed(ShapeOf(b), run[m].i) && b.outbox[run[m].i].event == event
            && (!GivenUpAt(cfg, db, run, m) ==> !b.outbox[run[m].i].status.Failed?)
  {
    hide Traced, Handle, Remembers;
    var a, i := AcceptedAfter(cfg, db, run[..m]), run[m].i;
    OneAcceptedStep(cfg, db, run, m);
    RunTraced(cfg, db, run[..m]);
    CallTraced(cfg, a, i, run[m].forced, run[m].ch);
    var mid, b := AcceptedAfter(cfg, db, run[..m + 1]), AcceptedAfter(cfg, db, run[..n]);
    RunRemembers(cfg, db, run, m + 1, n);
    ProcessedStays(mid, b, i);
  }

  lemma ProcessedHasRow(db: Db, i: Id)
    requires Processed(ShapeOf(db), i)
    ensures i in db.outbox
  {
  }

  lemma OneRow(cfg: Config, db: Db, i: Id, j: Id)
    requires Traced(cfg, db) && i in db.outbox && j in db.outbox && db.outbox[i].event == db.outbox[j].event
    requires !db.outbox[i].status.Failed? && !db.outbox[j].status.Failed?
    ensures i == j
  {
    assert Live(ShapeOf(db), RowRep(i)) && Live(ShapeOf(db), RowRep(j));
  }
}
