/** When an effect can happen twice: handling the envelope of a row that was given up. */
module Repetition {
  import opened Tables
  import opened Lines
  import opened EventsRepository
  import InventoryWorker
  import opened Inbox
  import opened Dispatcher
  import opened Orders
  import opened Saga
  import opened Chain
  import opened Business
  import opened Soundness
  import opened RetryLedger
  import opened Deliveries
  import opened Lineages
  import opened Shadowing
  import PaymentWorker

  /** A handler call did more than mark the inbox: it changed a business table or emitted an event. */
  predicate Effective(a: Db, b: Db) {
    b.(inbox := a.inbox) != a
  }

  /** The event has had its effect already, through another row. */
  ghost predicate EffectBefore(db: Db, i: Id)
    requires i in db.outbox
  {
    exists j :: Processed(ShapeOf(db), j) && db.outbox[j].event == db.outbox[i].event
  }

  predicate SecondCall(cfg: Config, db: Db, event: Event, run: seq<Step>, step: Step) {
    && step.EventHandled? && AcceptedRun(cfg, db, run) && CarefulRun(cfg, db, run)
    && Careful(cfg, AcceptedAfter(cfg, db, run), step)
    && AcceptedAfter(cfg, db, run).outbox[step.i].event == event
    && Effective(AcceptedAfter(cfg, db, run), AcceptedNext(cfg, AcceptedAfter(cfg, db, run), step))
  }

  /** Some run goes on to have the effect of the event, and of its calls on given-up rows - the one that has the effect
      included - all end their chains. */
  ghost predicate EffectAfter(cfg: Config, db: Db, event: Event) {
    exists run, step :: SecondCall(cfg, db, event, run, step)
  }

  /** Handling row i has the effect of its event a second time, or lets a later call have it. */
  ghost predicate Repeats(cfg: Config, db: Db, i: Id, forced: bool, ch: Choice)
    requires MayHandle(cfg, db, i, forced, ch)
  {
    var after := HandledDb(db, Delivered(db, i, forced), ch);
    Effective(db, after) && (EffectBefore(db, i) || EffectAfter(cfg, after, db.outbox[i].event))
  }

  /** Some sound database shadows this one: it is reached without a call on a given-up row before the end of its
      chain. */
  ghost predicate Shadowed(cfg: Config, db: Db) {
    exists a :: Shadows(cfg, a, db)
  }

  lemma CarefulRunsStayShadowed(cfg: Config, db: Db, run: seq<Step>)
    requires Sound(cfg, db) && AcceptedRun(cfg, db, run) && CarefulRun(cfg, db, run)
    ensures Shadowed(cfg, AcceptedAfter(cfg, db, run))
  {
    hide Sound, Shadows;
    SoundShadowsItself(cfg, db);
    var a := CarefulRunIsShadowed(cfg, db, db, run);
  }

  lemma SoundIsShadowed(cfg: Config, db: Db)
    requires Sound(cfg, db)
    ensures Shadowed(cfg, db)
  {
    hide Sound, Shadows;
    SoundShadowsItself(cfg, db);
  }

  // ----- given up and not the end of the chain: it repeats -----

  lemma CallIsRunnable(cfg: Config, a: Db, db: Db, i: Id, forced: bool, ch: Choice)
    requires Shadows(cfg, a, db) && MayHandle(cfg, db, i, forced, ch) && !Processed(ShapeOf(db), i)
    ensures Runnable(cfg, db, i, forced, ch) && db.outbox[i].event.order in db.orders
  {
    hide Shadows;
    ShadowPayloads(cfg, a, db, i);
  }

  lemma LinkIsEffective(a: Db, b: Db, i: Id, ch: Choice)
    requires i in a.outbox && a.outbox[i].event.order in a.orders && LinkAdded(a, b, i, ch)
    ensures Effective(a, b)
  {
    assert ch.eventId !in a.outbox && ch.eventId in b.outbox;
  }

  /** A live unhandled row with a sound payload can be handled to effect. */
  lemma RowCanBeHandled(cfg: Config, db: Db, j: Id, ch: Choice)
    requires j in db.outbox && !Processed(ShapeOf(db), j) && PayloadOk(db, db.outbox[j].event) && OrdersOk(db)
    requires db.outbox[j].event.etype in Routed(cfg) && !db.outbox[j].event.etype.InventoryReservationFailed?
    requires FreshIds(db, ch) && !ch.fault
    ensures MayHandle(cfg, db, j, false, ch)
    ensures !Ends(db.outbox[j].event.etype) ==> Effective(db, HandledDb(db, Delivered(db, j, false), ch))
  {
    hide Handle, LinkAdded, OrdersOk;
    if HandleRow(cfg, db, j, ch).Raised? {
      RaiseIsClean(cfg, db, j, ch);
    }
    if !Ends(db.outbox[j].event.etype) {
      HandlerAddsLink(cfg, db, j, false, ch);
      LinkIsEffective(db, HandledDb(db, Delivered(db, j, false), ch), j, ch);
    }
  }

  /** What stays true around row i when its handler has run, given up or not. */
  lemma AfterCall(cfg: Config, a: Db, db: Db, i: Id, forced: bool, ch: Choice)
    requires Shadows(cfg, a, db) && MayHandle(cfg, db, i, forced, ch) && !Processed(ShapeOf(db), i)
    requires !Ends(db.outbox[i].event.etype)
    ensures var after, event := HandledDb(db, Delivered(db, i, forced), ch), db.outbox[i].event;
            && Effective(db, after) && PayloadOk(after, event) && OrdersOk(after)
            && after.deadLetters == db.deadLetters && (forall m | m in after.inbox :: m.1 in after.outbox)
            && (forall j | j in db.outbox :: j in after.outbox && after.outbox[j] == db.outbox[j])
            && (forall j | j in db.outbox && j != i :: Processed(ShapeOf(after), j) <==> Processed(ShapeOf(db), j))
            && !event.etype.InventoryReservationFailed?
  {
    hide Handle, PayloadOk, OrderTotal, Raw, StockMoved, Sound;
    var after := HandledDb(db, Delivered(db, i, forced), ch);
    CallIsRunnable(cfg, a, db, i, forced, ch);
    HandlerAddsLink(cfg, db, i, forced, ch);
    LinkIsEffective(db, after, i, ch);
    ShadowPayloads(cfg, a, db, i);
    PayloadStays(db, after, db.outbox[i].event);
  }

  /** The representative of a given-up event - another row, handled or not, or a letter - lets the effect happen
      again. */
  lemma GivenUpRepeats(cfg: Config, a: Db, db: Db, i: Id, forced: bool, ch: Choice)
    requires Shadows(cfg, a, db) && MayHandle(cfg, db, i, forced, ch)
    requires db.outbox[i].status.Failed? && !Ends(db.outbox[i].event.etype)
    ensures Repeats(cfg, db, i, forced, ch)
  {
    hide Handle, Body, PayloadOk, OrdersOk, Effective, HandledDb, EffectAfter;
    AfterCall(cfg, a, db, i, forced, ch);
    var after := HandledDb(db, Delivered(db, i, forced), ch);
    var rep := RepOf(cfg, a, db, i);
    match rep {
      case RowRep(j) =>
        if !Processed(ShapeOf(db), j) {
          RowRepeats(cfg, db, after, i, j) by { RoutedIfHandled(cfg, db, i, forced, ch); }
        }
      case LetterRep(d) =>
        LetterRepeats(cfg, db, after, i, d) by { RoutedIfHandled(cfg, db, i, forced, ch); }
    }
  }

  lemma RepOf(cfg: Config, a: Db, db: Db, i: Id) returns (rep: Rep)
    requires Shadows(cfg, a, db) && i in db.outbox
    ensures LiveFor(ShapeOf(db), rep, db.outbox[i].event)
  {
    assert HasRep(ShapeOf(a), a.outbox[i].event);
    rep :| LiveFor(ShapeOf(a), rep, a.outbox[i].event);
  }

  lemma RoutedIfHandled(cfg: Config, db: Db, i: Id, forced: bool, ch: Choice)
    requires MayHandle(cfg, db, i, forced, ch)
    ensures db.outbox[i].event.etype in Routed(cfg)
  {
  }

  lemma RowRepeats(cfg: Config, db: Db, after: Db, i: Id, j: Id)
    requires i in db.outbox && j in after.outbox && !after.outbox[j].status.Failed? && !Processed(ShapeOf(after), j)
    requires after.outbox[j].event == db.outbox[i].event && PayloadOk(after, db.outbox[i].event) && OrdersOk(after)
    requires var t := db.outbox[i].event.etype; t in Routed(cfg) && !t.InventoryReservationFailed? && !Ends(t)
    ensures EffectAfter(cfg, after, db.outbox[i].event)
  {
    hide Handle, PayloadOk, OrdersOk, Effective;
    var env := QuietEnvironment(after);
    assert !At(env, 0).fault && FreshIds(after, At(env, 0));
    RowCanBeHandled(cfg, after, j, At(env, 0));
    assert SecondCall(cfg, after, db.outbox[i].event, [], EventHandled(j, false, At(env, 0)));
  }

  lemma LetterRepeats(cfg: Config, db: Db, after: Db, i: Id, d: Id)
    requires i in db.outbox && Replayable(after, d) && after.deadLetters[d].event == db.outbox[i].event
    requires PayloadOk(after, db.outbox[i].event) && OrdersOk(after)
    requires forall m | m in after.inbox :: m.1 in after.outbox
    requires var t := db.outbox[i].event.etype; t in Routed(cfg) && !t.InventoryReservationFailed? && !Ends(t)
    ensures EffectAfter(cfg, after, db.outbox[i].event)
  {
    hide PayloadOk, OrdersOk, FreshIds, EffectAfter, Routed, Ends;
    var env := QuietEnvironment(after);
    assert FreshIds(after, At(env, 0)) && FreshIds(after, At(env, 1)) && At(env, 0).eventId != At(env, 1).eventId;
    ReplayRepeats(cfg, after, db.outbox[i].event, d, At(env, 0), At(env, 1));
  }

  lemma ReplayRepeats(cfg: Config, after: Db, event: Event, d: Id, ch: Choice, c: Choice)
    requires Replayable(after, d) && after.deadLetters[d].event == event && PayloadOk(after, event) && OrdersOk(after)
    requires forall m | m in after.inbox :: m.1 in after.outbox
    requires event.etype in Routed(cfg) && !event.etype.InventoryReservationFailed? && !Ends(event.etype)
    requires FreshIds(after, ch) && FreshIds(after, c) && ch.eventId != c.eventId && !c.fault
    ensures EffectAfter(cfg, after, event)
  {
    hide Handle, Effective, Routed, Ends, HandledDb;
    var replay, call := LetterReplayed(d, ch), EventHandled(ch.eventId, false, c);
    var mid := Next(cfg, after, replay);
    RowCanBeHandled(cfg, mid, ch.eventId, c);
    OneCarefulStep(cfg, after, replay);
    assert SecondCall(cfg, after, event, [replay], call);
  }

  // ----- any other call: it does not repeat -----

  /** Handling a last row whose status the order shows already. */
  lemma ShownCallIsIdle(cfg: Config, a: Db, db: Db, i: Id, forced: bool, ch: Choice)
    requires Shadows(cfg, a, db) && MayHandle(cfg, db, i, forced, ch) && !Processed(ShapeOf(db), i)
    requires Ends(db.outbox[i].event.etype) && Shown(db, db.outbox[i].event)
    ensures !Effective(db, HandledDb(db, Delivered(db, i, forced), ch))
  {
    hide Shadows, Handle, HandledDb;
    ShadowPayloads(cfg, a, db, i);
    EndingCall(cfg, db, i, forced, ch);
    assert Ended(db, i).orders == db.orders;
  }

  /** Once a row of the event has been processed, every careful call for the event is idle. */
  lemma LaterCallIsIdle(cfg: Config, a: Db, db: Db, i: Id, step: Step)
    requires Shadows(cfg, a, db) && Processed(ShapeOf(db), i) && step.EventHandled? && Careful(cfg, db, step)
    requires db.outbox[step.i].event == db.outbox[i].event
    ensures !Effective(db, AcceptedNext(cfg, db, step))
  {
    if !Processed(ShapeOf(db), step.i) {
      if Ends(db.outbox[i].event.etype) {
        ShownCallIsIdle(cfg, a, db, step.i, step.forced, step.ch);
      } else {
        ShadowIsTraced(cfg, a, db);
        OneRow(cfg, db, i, step.i);
      }
    }
  }

  lemma CarefulCallDoesNotRepeat(cfg: Config, a: Db, db: Db, i: Id, forced: bool, ch: Choice)
    requires Shadows(cfg, a, db) && MayHandle(cfg, db, i, forced, ch)
    requires !db.outbox[i].status.Failed? || Ends(db.outbox[i].event.etype)
    ensures !Repeats(cfg, db, i, forced, ch)
  {
    hide Handle, Shadows, Effective, EffectAfter, HandledDb;
    var after, call := HandledDb(db, Delivered(db, i, forced), ch), EventHandled(i, forced, ch);
    assert Careful(cfg, db, call) && AcceptedNext(cfg, db, call) == after;
    if EffectBefore(db, i) {
      var j :| Processed(ShapeOf(db), j) && db.outbox[j].event == db.outbox[i].event;
      LaterCallIsIdle(cfg, a, db, j, call);
    }
    ShadowIsTraced(cfg, a, db);
    CallTraced(cfg, db, i, forced, ch);
    var a' := CarefulStep(cfg, a, db, call);
    NoEffectAfter(cfg, a', after, i);
  }

  lemma NoEffectAfter(cfg: Config, a: Db, db: Db, i: Id)
    requires Shadows(cfg, a, db) && Processed(ShapeOf(db), i)
    ensures !EffectAfter(cfg, db, db.outbox[i].event)
  {
    hide Shadows, Careful, Effective, AcceptedNext;
    forall run, step ensures !SecondCall(cfg, db, db.outbox[i].event, run, step) {
      if SecondCall(cfg, db, db.outbox[i].event, run, step) {
        NoSecondCall(cfg, a, db, i, run, step);
      }
    }
  }

  lemma NoSecondCall(cfg: Config, a: Db, db: Db, i: Id, run: seq<Step>, step: Step)
    requires Shadows(cfg, a, db) && Processed(ShapeOf(db), i)
    ensures !SecondCall(cfg, db, db.outbox[i].event, run, step)
  {
    hide Shadows, Careful, CarefulRun, Effective, AcceptedNext, AcceptedAfter, Remembers, StaysHandled;
    if SecondCall(cfg, db, db.outbox[i].event, run, step) {
      var mid := AcceptedAfter(cfg, db, run);
      var a' := CarefulRunIsShadowed(cfg, a, db, run);
      ShadowIsTraced(cfg, a, db);
      WholeRunRemembers(cfg, db, run);
      ProcessedStays(db, mid, i);
      LaterCallIsIdle(cfg, a', mid, i, step);
    }
  }

  lemma WholeRunRemembers(cfg: Config, db: Db, run: seq<Step>)
    requires Traced(cfg, db) && AcceptedRun(cfg, db, run)
    ensures Remembers(db, AcceptedAfter(cfg, db, run))
  {
    hide Traced, Remembers, StaysHandled;
    assert run[..0] == [] && run[..|run|] == run;
    RunRemembers(cfg, db, run, 0, |run|);
  }

  /** The exact condition, for every database that is reached without an earlier such call, and every call that returns:
      the effect of one event can happen twice, with no other such call to blame, if and only if the call is for a row
      that was given up and its event does not end the chain. */
  lemma RepeatsIffGivenUp(cfg: Config, db: Db, i: Id, forced: bool, ch: Choice)
    requires Shadowed(cfg, db) && MayHandle(cfg, db, i, forced, ch)
    ensures Repeats(cfg, db, i, forced, ch) <==> db.outbox[i].status.Failed? && !Ends(db.outbox[i].event.etype)
  {
    hide Shadows, Repeats;
    var a :| Shadows(cfg, a, db);
    if db.outbox[i].status.Failed? && !Ends(db.outbox[i].event.etype) {
      GivenUpRepeats(cfg, a, db, i, forced, ch);
    } else {
      CarefulCallDoesNotRepeat(cfg, a, db, i, forced, ch);
    }
  }

  // ----- over every run the code accepts -----

  /** The k-th step of the run is a handler call for the event that does more than mark the inbox. */
  predicate EffectAt(cfg: Config, db: Db, run: seq<Step>, k: nat, event: Event) {
    && CallAt(cfg, db, run, k, event)
    && Effective(AcceptedAfter(cfg, db, run[..k]), AcceptedNext(cfg, AcceptedAfter(cfg, db, run[..k]), run[k]))
  }

  /** The k-th step of the run is a handler call on a given-up row whose event does not end the chain. */
  predicate CarelessAt(cfg: Config, db: Db, run: seq<Step>, k: nat) {
    && GivenUpAt(cfg, db, run, k)
    && !Ends(AcceptedAfter(cfg, db, run[..k]).outbox[run[k].i].event.etype)
  }

  /** In every run the code accepts: when two calls return for one event and the later one is not idle, then one of the
      two is on a row that has been given up at that moment, and a call of the run so far is on such a row before the
      end of its chain. */
  lemma TwoEffectsNeedGivenUp(cfg: Config, db: Db, run: seq<Step>, m: nat, n: nat, event: Event)
    requires Sound(cfg, db) && AcceptedRun(cfg, db, run) && m < n
    requires CallAt(cfg, db, run, m, event) && EffectAt(cfg, db, run, n, event)
    ensures GivenUpAt(cfg, db, run, m) || GivenUpAt(cfg, db, run, n)
    ensures exists k :: 0 <= k <= n && CarelessAt(cfg, db, run, k)
  {
    SoundShadowsItself(cfg, db);
    ShadowIsTraced(cfg, db, db);
    TwoCallsNeedGivenUp(cfg, db, run, m, n, event);
    if forall k | 0 <= k <= n :: !CarelessAt(cfg, db, run, k) {
      CarefulEffectIsFirst(cfg, db, run, m, n, event);
    }
  }

  lemma CarefulEffectIsFirst(cfg: Config, db: Db, run: seq<Step>, m: nat, n: nat, event: Event)
    requires Sound(cfg, db) && AcceptedRun(cfg, db, run) && m < n < |run|
    requires CallAt(cfg, db, run, m, event) && CallAt(cfg, db, run, n, event)
    requires forall k | 0 <= k <= n :: !CarelessAt(cfg, db, run, k)
    ensures !EffectAt(cfg, db, run, n, event)
  {
    hide Sound, Shadows, Traced, Handle, HandledDb, Effective, AcceptedNext, CarelessAt;
    SoundShadowsItself(cfg, db);
    ShadowIsTraced(cfg, db, db);
    CarefulUpTo(cfg, db, run, n);
    var mid := AcceptedAfter(cfg, db, run[..n]);
    var a := CarefulRunIsShadowed(cfg, db, db, run[..n]);
    CallIsRemembered(cfg, db, run, m, n, event);
    CarefulAt(cfg, db, run, n);
    LaterCallIsIdle(cfg, a, mid, run[m].i, run[n]);
  }

  lemma CarefulAt(cfg: Config, db: Db, run: seq<Step>, n: nat)
    requires AcceptedRun(cfg, db, run) && n < |run| && !CarelessAt(cfg, db, run, n)
    ensures AcceptedRun(cfg, db, run[..n]) && Careful(cfg, AcceptedAfter(cfg, db, run[..n]), run[n])
  {
    hide Accepts, AcceptedNext;
    OneAcceptedStep(cfg, db, run, n);
  }

  lemma {:induction false} CarefulUpTo(cfg: Config, db: Db, run: seq<Step>, n: nat)
    requires AcceptedRun(cfg, db, run) && n <= |run| && forall k | 0 <= k < n :: !CarelessAt(cfg, db, run, k)
    ensures AcceptedRun(cfg, db, run[..n]) && CarefulRun(cfg, db, run[..n])
    decreases n
  {
    hide CarelessAt, Careful, Accepts, AcceptedNext;
    AcceptedPrefix(cfg, db, run, n);
    if n > 0 {
      CarefulUpTo(cfg, db, run, n - 1);
      CarefulAt(cfg, db, run, n - 1);
      assert run[..n][..n - 1] == run[..n - 1];
    }
  }

  // ----- what it is that happens twice -----

  lemma RecordWritten(cfg: Config, db: Db, i: Id, forced: bool, ch: Choice)
    requires MayHandle(cfg, db, i, forced, ch) && !Processed(ShapeOf(db), i)
    ensures var after, t := HandledDb(db, Delivered(db, i, forced), ch), db.outbox[i].event.etype;
            && (t.InventoryReserved? ==> ch.recordId in after.payments)
            && (t.PaymentAuthorized? ==> ch.recordId in after.invoices)
            && (t.InvoiceCreated? ==> ch.recordId in after.notifications)
  {
    hide PaymentWorker.PayloadAmount, InventoryWorker.Reserve, InventoryWorker.Release;
  }

  /** Each effective call before the end of a chain emits the order's next event, caused by the row; and with it writes
      a payment, an invoice or a notification that was not there, takes or puts back all lines of the order, or rejects
      it. */
  lemma EffectWritten(cfg: Config, db: Db, i: Id, forced: bool, ch: Choice)
    requires Shadowed(cfg, db) && MayHandle(cfg, db, i, forced, ch) && !Processed(ShapeOf(db), i)
    requires !Ends(db.outbox[i].event.etype)
    ensures var after, event := HandledDb(db, Delivered(db, i, forced), ch), db.outbox[i].event;
            && event.order in db.orders && ch.eventId in after.outbox && ch.eventId !in db.outbox
            && var emitted, lines := after.outbox[ch.eventId].event, db.orders[event.order].lines;
               && emitted.order == event.order && emitted.causation == Some(i) && Follows(emitted.etype, event.etype)
               && match event.etype
                  case InventoryReserved => ch.recordId in after.payments && ch.recordId !in db.payments
                  case PaymentAuthorized => ch.recordId in after.invoices && ch.recordId !in db.invoices
                  case InvoiceCreated => ch.recordId in after.notifications && ch.recordId !in db.notifications
                  case PaymentFailed => after.inventory == Put(db.inventory, Raw(lines))
                  case OrderCreated =>
                    if FitsLines(db.inventory, lines)
                    then emitted.etype.InventoryReserved? && after.inventory == Take(db.inventory, Raw(lines))
                    else emitted.etype.InventoryReservationFailed? && after.inventory == db.inventory
                  case _ => false
  {
    hide Handle, Shadows, PayloadOk, Put, Take, Raw, FitsLines, Grown, OnlyCitedAdded;
    var a :| Shadows(cfg, a, db);
    CallIsRunnable(cfg, a, db, i, forced, ch);
    HandlerAddsLink(cfg, db, i, forced, ch);
    RecordWritten(cfg, db, i, forced, ch);
  }

  // ----- such databases are reached -----

  function NextTry(row: Row): int {
    if row.nextAttemptAt.Some? then row.nextAttemptAt.value else 0
  }

  /** A raising body at the next try. */
  lemma OneMoreFailure(cfg: Config, db: Db, i: Id) returns (next: Db)
    requires Sound(cfg, db) && Ledger(cfg, db) && i in db.outbox && db.outbox[i].status.Pending?
    requires !Processed(ShapeOf(db), i)
    ensures Reaches(cfg, db, next) && i in next.outbox && next.outbox[i].event == db.outbox[i].event
    ensures !Processed(ShapeOf(next), i) && next.outbox[i].failureCount == db.outbox[i].failureCount + 1
    ensures next.outbox[i].status.Pending? || next.outbox[i].status.Failed?
  {
    hide Sound, Ledger, Body, AfterFailure, Reaches, NextAttemptNumber;
    var env := QuietEnvironment(db);
    assert FreshIds(db, At(env, 0));
    var ch := Choice(NextTry(db.outbox[i]), At(env, 0).eventId, At(env, 0).recordId, true);
    next := Next(cfg, db, DeliveryFailed(i, ch));
    ReachesStep(cfg, db, DeliveryFailed(i, ch));
    FailureIsClean(cfg, db, i, ch);
    FailureWrites(cfg, db, i, ch);
  }

  /** Any row not handled yet can be given up: its handler need only raise often enough. */
  lemma {:induction false} RowCanBeGivenUp(cfg: Config, db: Db, i: Id, left: nat) returns (b: Db)
    requires Sound(cfg, db) && Ledger(cfg, db) && i in db.outbox && db.outbox[i].status.Pending?
    requires !Processed(ShapeOf(db), i) && left == Allowed(cfg) - db.outbox[i].failureCount
    ensures Reaches(cfg, db, b) && i in b.outbox && b.outbox[i].status.Failed?
    ensures b.outbox[i].event == db.outbox[i].event
    decreases left
  {
    hide Sound, Reaches;
    b := OneMoreFailure(cfg, db, i);
    ReachedIsSound(cfg, db, b);
    if b.outbox[i].status.Pending? {
      var mid := b;
      b := RowCanBeGivenUp(cfg, mid, i, left - 1);
      ReachesTrans(cfg, db, mid, b);
    }
  }

  /** From any state with an event under way that does not end its chain, the system can get to where its effect
      happens twice. */
  lemma EffectCanRepeat(cfg: Config, db: Db, i: Id) returns (b: Db, ch: Choice)
    requires Sound(cfg, db) && Ledger(cfg, db) && i in db.outbox && db.outbox[i].status.Pending?
    requires !Processed(ShapeOf(db), i) && !Ends(db.outbox[i].event.etype)
    requires db.outbox[i].event.etype in Routed(cfg) && !db.outbox[i].event.etype.InventoryReservationFailed?
    ensures Reaches(cfg, db, b) && MayHandle(cfg, b, i, false, ch) && Repeats(cfg, b, i, false, ch)
  {
    hide Reaches, Repeats, Handle;
    b := RowCanBeGivenUp(cfg, db, i, Allowed(cfg) - db.outbox[i].failureCount);
    ReachedIsSound(cfg, db, b);
    SoundPayload(cfg, b, i);
    SoundIsShadowed(cfg, b);
    var env := QuietEnvironment(b);
    assert FreshIds(b, At(env, 0)) && !At(env, 0).fault;
    ch := At(env, 0);
    RowCanBeHandled(cfg, b, i, ch);
    RepeatsIffGivenUp(cfg, b, i, false, ch);
  }

  const EMPTY := Db(map[], map[], map[], {}, [], map[], map[], map[], map[], map[])

  /** One SKU, one order. */
  const ONE_ORDER := [StockAdded("A", StockItem(9, 1)),
                      OrderPlaced(0, [Item("A", 1)], 0, None, Choice(0, 0, 0, false))]

  /** And so from nothing, whatever the policy: one order, a handler that keeps raising, and the envelope delivered
      once more after the row was given up. */
  lemma EffectRepeatsFromNothing(cfg: Config) returns (b: Db, ch: Choice)
    requires OrderCreated in Routed(cfg)
    ensures Initial(EMPTY) && Reaches(cfg, EMPTY, b) && MayHandle(cfg, b, 0, false, ch) && Repeats(cfg, b, 0, false, ch)
  {
    hide Valid, After, Reaches, Repeats, Sound, Ledger, MayHandle;
    var r := ONE_ORDER;
    NoSteps(cfg, EMPTY);
    assert Enabled(cfg, EMPTY, r[0]);
    OneStepMore(cfg, EMPTY, [], r[0], [r[0]]);
    assert Enabled(cfg, Next(cfg, EMPTY, r[0]), r[1]);
    OneStepMore(cfg, EMPTY, [r[0]], r[1], r);
    var placed := After(cfg, EMPTY, r);
    RunReaches(cfg, EMPTY, r, placed);
    ReachableFromInitial(cfg, EMPTY, r);
    b, ch := EffectCanRepeat(cfg, placed, 0);
    ReachesTrans(cfg, EMPTY, placed, b);
  }
}
