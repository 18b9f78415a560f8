/** What soundness means for the business: effects once, nothing lost, branches exclusive, amounts carried. */
module Guarantees {
  import opened Tables
  import opened Lines
  import opened EventsRepository
  import opened Inbox
  import opened Dispatcher
  import opened Saga
  import opened Chain
  import opened Business
  import opened Soundness

  // ----- exactly once -----

  /** Of all rows that carry one event of an order, at most one has had its effect. */
  lemma EffectOnce(cfg: Config, db: Db, i: Id, j: Id)
    requires Sound(cfg, db) && Processed(ShapeOf(db), i) && Processed(ShapeOf(db), j)
    requires SameStage(db.outbox[i].event, db.outbox[j].event)
    ensures i == j
  {
    assert Live(ShapeOf(db), RowRep(i)) && Live(ShapeOf(db), RowRep(j));
  }

  /** An order is charged, invoiced and notified at most once. */
  lemma RecordsOnce(cfg: Config, db: Db)
    requires Sound(cfg, db)
    ensures forall p, q | p in db.payments && q in db.payments && db.payments[p].order == db.payments[q].order :: p == q
    ensures forall v, w | v in db.invoices && w in db.invoices && db.invoices[v].order == db.invoices[w].order :: v == w
    ensures forall m, n | m in db.notifications && n in db.notifications
                          && db.notifications[m].order == db.notifications[n].order :: m == n
  {
    forall p, q | p in db.payments && q in db.payments && db.payments[p].order == db.payments[q].order
      ensures p == q
    {
      var i := PaymentEvent(db, p);
      var j := PaymentEvent(db, q);
    }
    forall v, w | v in db.invoices && w in db.invoices && db.invoices[v].order == db.invoices[w].order
      ensures v == w
    {
      var i := InvoiceEvent(db, v);
      var j := InvoiceEvent(db, w);
    }
    forall m, n | m in db.notifications && n in db.notifications
                  && db.notifications[m].order == db.notifications[n].order
      ensures m == n
    {
      var i := NotificationEvent(db, m);
      var j := NotificationEvent(db, n);
    }
  }

  lemma PaymentEvent(db: Db, p: Id) returns (i: Id)
    requires RecordsCited(db) && Payloads(db) && p in db.payments
    ensures i in db.outbox && Stage(db.outbox[i].event.etype) == 2 && db.outbox[i].event.payload.paymentId == Some(p)
    ensures db.outbox[i].event.order == db.payments[p].order
    ensures db.payments[p].authorized <==> db.outbox[i].event.etype.PaymentAuthorized?
  {
    assert PaymentCited(db, p);
    i :| i in db.outbox && Stage(db.outbox[i].event.etype) == 2 && db.outbox[i].event.payload.paymentId == Some(p);
    assert PayloadOk(db, db.outbox[i].event);
  }

  lemma InvoiceEvent(db: Db, v: Id) returns (i: Id)
    requires RecordsCited(db) && Payloads(db) && v in db.invoices
    ensures i in db.outbox && db.outbox[i].event.etype.InvoiceCreated?
    ensures db.outbox[i].event.payload.invoiceId == Some(v) && db.outbox[i].event.order == db.invoices[v].order
  {
    assert InvoiceCited(db, v);
    i :| i in db.outbox && db.outbox[i].event.etype.InvoiceCreated? && db.outbox[i].event.payload.invoiceId == Some(v);
    assert PayloadOk(db, db.outbox[i].event);
  }

  lemma NotificationEvent(db: Db, n: Id) returns (i: Id)
    requires RecordsCited(db) && Payloads(db) && n in db.notifications
    ensures i in db.outbox && db.outbox[i].event.etype.NotificationSent?
    ensures db.outbox[i].event.payload.notificationId == Some(n)
    ensures db.outbox[i].event.order == db.notifications[n].order
  {
    assert NotificationCited(db, n);
    i :| i in db.outbox && db.outbox[i].event.etype.NotificationSent?
         && db.outbox[i].event.payload.notificationId == Some(n);
    assert PayloadOk(db, db.outbox[i].event);
  }

  // ----- nothing lost, nothing doubled -----

  /** Every event ever written has exactly one live representative; every other row of it has failed,
      and the failed row's only dead letter is either that representative or has been replayed. */
  lemma LineageConserved(cfg: Config, db: Db, i: Id)
    requires Sound(cfg, db) && i in db.outbox
    ensures exists rep :: LiveFor(ShapeOf(db), rep, db.outbox[i].event)
    ensures forall a, b | LiveFor(ShapeOf(db), a, db.outbox[i].event) && LiveFor(ShapeOf(db), b, db.outbox[i].event) ::
              a == b
    ensures !LiveFor(ShapeOf(db), RowRep(i), db.outbox[i].event) ==>
              && db.outbox[i].status.Failed?
              && exists d :: LetterOf(ShapeOf(db), d, i)
                             && (forall c | LetterOf(ShapeOf(db), c, i) :: c == d)
                             && (LiveFor(ShapeOf(db), LetterRep(d), db.outbox[i].event)
                                 || db.deadLetters[d].replayedAt.Some?)
  {
    var s := ShapeOf(db);
    assert HasRep(s, s.outbox[i].event);
    if !LiveFor(s, RowRep(i), db.outbox[i].event) {
      assert HasLetter(s, i);
      var d :| LetterOf(s, d, i);
      assert forall c | LetterOf(s, c, i) :: c == d;
    }
  }

  // ----- terminal states -----

  /** Status and chain agree: COMPLETED and CANCELLED are reached on different branches. */
  lemma TerminalStatesExclude(cfg: Config, db: Db, i: Id, j: Id)
    requires Sound(cfg, db) && i in db.outbox && j in db.outbox
    requires db.outbox[i].event.etype.NotificationSent? && db.outbox[j].event.etype.InventoryReleased?
    ensures db.outbox[i].event.order != db.outbox[j].event.order
  {
    BranchesExclude(ShapeOf(db), Routed(cfg), i, j);
  }

  /** A terminal status never changes again, although the projection overwrites it unconditionally. */
  lemma TerminalStep(cfg: Config, db: Db, step: Step, o: Id)
    requires Sound(cfg, db) && Enabled(cfg, db, step)
    requires o in db.orders && !db.orders[o].status.OrderPending?
    ensures var after := Next(cfg, db, step); o in after.orders && after.orders[o] == db.orders[o]
  {
    hide Next, Enabled;
    var after := Next(cfg, db, step);
    StepKeepsSound(cfg, db, step);
    StepKeeps(cfg, db, step);
    NotBoth(cfg, after, o);
  }

  /** What no step takes away: lines, records, events, inbox markers. */
  ghost predicate Keeps(a: Db, b: Db) {
    && Grown(a, b) && a.inbox <= b.inbox
    && (forall i | i in a.outbox :: i in b.outbox && b.outbox[i].event == a.outbox[i].event)
  }

  lemma FinishKeeps(cfg: Config, db: Db, i: Id, forced: bool, ch: Choice)
    requires Runnable(cfg, db, i, forced, ch) && Ends(db.outbox[i].event.etype)
    ensures Keeps(db, HandledDb(db, Delivered(db, i, forced), ch))
  {
    hide Handle;
    HandlerFinishes(cfg, db, i, forced, ch);
  }

  /** The three ways a handler call can go that does not raise. */
  lemma HandledCases(cfg: Config, db: Db, i: Id, forced: bool, ch: Choice)
    requires Sound(cfg, db) && Enabled(cfg, db, EventHandled(i, forced, ch))
    ensures var after := Next(cfg, db, EventHandled(i, forced, ch));
            && db.outbox[i].event.order in db.orders && !db.outbox[i].status.Failed?
            && (if Processed(ShapeOf(db), i) then after == db
                else && Runnable(cfg, db, i, forced, ch)
                     && (!Ends(db.outbox[i].event.etype) ==> LinkAdded(db, after, i, ch)))
  {
    hide Handle, LinkAdded;
    var e := Delivered(db, i, forced);
    assert PayloadOk(db, db.outbox[i].event);
    if HasProcessed(db, e) {
      Redelivered(db, e, ch);
    } else if !Ends(db.outbox[i].event.etype) {
      HandlerAddsLink(cfg, db, i, forced, ch);
    }
  }

  lemma HandledKeeps(cfg: Config, db: Db, i: Id, forced: bool, ch: Choice)
    requires Sound(cfg, db) && Enabled(cfg, db, EventHandled(i, forced, ch))
    ensures Keeps(db, Next(cfg, db, EventHandled(i, forced, ch)))
  {
    hide Handle, Runnable, Sound;
    HandledCases(cfg, db, i, forced, ch);
    if !Processed(ShapeOf(db), i) && Ends(db.outbox[i].event.etype) {
      FinishKeeps(cfg, db, i, forced, ch);
    }
  }

  lemma FailureKeeps(cfg: Config, db: Db, i: Id, ch: Choice)
    requires Sound(cfg, db) && Enabled(cfg, db, DeliveryFailed(i, ch))
    ensures Keeps(db, Next(cfg, db, DeliveryFailed(i, ch)))
  {
    hide AfterFailure, Handle, Sound, NextAttemptNumber;
    FailureIsClean(cfg, db, i, ch);
    FailureWrites(cfg, db, i, ch);
  }

  lemma StepKeeps(cfg: Config, db: Db, step: Step)
    requires Sound(cfg, db) && Enabled(cfg, db, step)
    ensures Keeps(db, Next(cfg, db, step))
  {
    hide Handle, AfterFailure, Sound;
    match step {
      case EventHandled(i, forced, ch) => HandledKeeps(cfg, db, i, forced, ch);
      case DeliveryFailed(i, ch) => FailureKeeps(cfg, db, i, ch);
      case OrderPlaced(_, _, _, _, _) =>
      case _ => OthersKeep(cfg, db, step);
    }
  }

  lemma OthersKeep(cfg: Config, db: Db, step: Step)
    requires Enabled(cfg, db, step) && !step.EventHandled? && !step.DeliveryFailed? && !step.OrderPlaced?
    ensures Keeps(db, Next(cfg, db, step))
  {
    hide Handle, HandleRow;
  }

  /** What no run takes away. */
  lemma {:induction false} RunKeeps(cfg: Config, db: Db, run: seq<Step>, m: nat, n: nat)
    requires Sound(cfg, db) && Valid(cfg, db, run) && m <= n <= |run|
    requires Valid(cfg, db, run[..m]) && Valid(cfg, db, run[..n])
    ensures Keeps(After(cfg, db, run[..m]), After(cfg, db, run[..n]))
    decreases n
  {
    hide Sound, Enabled, Next, Keeps;
    if m == n {
      KeepsItself(After(cfg, db, run[..m]));
    } else {
      var prev := n - 1;
      OneStep(cfg, db, run, prev);
      RunKeeps(cfg, db, run, m, prev);
      ReachableIsSound(cfg, db, run[..prev]);
      StepKeeps(cfg, After(cfg, db, run[..prev]), run[prev]);
      KeepsOn(After(cfg, db, run[..m]), After(cfg, db, run[..prev]), After(cfg, db, run[..n]));
    }
  }

  lemma KeepsItself(a: Db)
    ensures Keeps(a, a)
  {
  }

  lemma KeepsOn(a: Db, b: Db, c: Db)
    requires Keeps(a, b) && Keeps(b, c)
    ensures Keeps(a, c)
  {
  }

  /** Exactly-once effects over whole runs: of all the handler calls a run ever makes for one logical event - for its
      row, for redeliveries of it, for its replays - every one after the first that returned changes nothing. */
  lemma HandledOnce(cfg: Config, db: Db, run: seq<Step>, m: nat, n: nat)
    requires Sound(cfg, db) && Valid(cfg, db, run) && m < n < |run| && run[m].EventHandled? && run[n].EventHandled?
    requires Valid(cfg, db, run[..m]) && Valid(cfg, db, run[..n])
    requires var a, b := After(cfg, db, run[..m]), After(cfg, db, run[..n]);
             && run[m].i in a.outbox && run[n].i in b.outbox
             && SameStage(a.outbox[run[m].i].event, b.outbox[run[n].i].event)
    ensures var b := After(cfg, db, run[..n]); Enabled(cfg, b, run[n]) && Next(cfg, b, run[n]) == b
  {
    hide Sound, Enabled, Next;
    OneStep(cfg, db, run, m);
    OneStep(cfg, db, run, n);
    var a, b := After(cfg, db, run[..m]), After(cfg, db, run[..n]);
    ReachableIsSound(cfg, db, run[..m]);
    ReachableIsSound(cfg, db, run[..n]);
    CallMarks(cfg, a, run[m]);
    RunKeeps(cfg, db, run, m, n);
    RunKeeps(cfg, db, run, m + 1, n);
    CallAfterMark(cfg, b, run[m].i, run[n]);
  }

  lemma CallMarks(cfg: Config, db: Db, step: Step)
    requires Enabled(cfg, db, step) && step.EventHandled?
    ensures (ConsumerOf(db.outbox[step.i].event.etype), step.i) in Next(cfg, db, step).inbox
  {
    hide Body;
  }

  lemma CallAfterMark(cfg: Config, db: Db, i: Id, step: Step)
    requires Sound(cfg, db) && Processed(ShapeOf(db), i) && Enabled(cfg, db, step) && step.EventHandled?
    requires SameStage(db.outbox[i].event, db.outbox[step.i].event)
    ensures Next(cfg, db, step) == db
  {
    hide Body;
    assert Live(ShapeOf(db), RowRep(i)) && Live(ShapeOf(db), RowRep(step.i));
    assert HasProcessed(db, Delivered(db, step.i, step.forced));
  }

  /** Over whole runs: once completed or cancelled, an order stays what it is. */
  lemma {:induction false} TerminalForever(cfg: Config, db: Db, run: seq<Step>, m: nat, n: nat, o: Id)
    requires Sound(cfg, db) && Valid(cfg, db, run) && m <= n <= |run|
    requires Valid(cfg, db, run[..m]) && Valid(cfg, db, run[..n])
    requires o in After(cfg, db, run[..m]).orders && !After(cfg, db, run[..m]).orders[o].status.OrderPending?
    ensures o in After(cfg, db, run[..n]).orders
            && After(cfg, db, run[..n]).orders[o] == After(cfg, db, run[..m]).orders[o]
    decreases n
  {
    hide Sound, Enabled, Next;
    if m < n {
      OneStep(cfg, db, run, n - 1);
      TerminalForever(cfg, db, run, m, n - 1, o);
      ReachableIsSound(cfg, db, run[..n - 1]);
      TerminalStep(cfg, After(cfg, db, run[..n - 1]), run[n - 1], o);
    }
  }

  // ----- causation -----

  /** Every event of an order goes back, cause by cause, to an event of each earlier stage of that order. */
  lemma {:induction false} Ancestor(s: Shape, routed: set<EventType>, i: Id, stage: nat) returns (a: Id)
    requires Chained(s, routed) && i in s.outbox && stage <= Stage(s.outbox[i].event.etype)
    ensures a in s.outbox && Stage(s.outbox[a].event.etype) == stage
    ensures s.outbox[a].event.order == s.outbox[i].event.order
    ensures s.outbox[a].event.correlation == s.outbox[i].event.correlation
    ensures a == i || Processed(s, a)
    decreases Stage(s.outbox[i].event.etype)
  {
    if stage == Stage(s.outbox[i].event.etype) {
      a := i;
    } else {
      assert LinkedRow(s, s.outbox[i].event);
      a := Ancestor(s, routed, s.outbox[i].event.causation.value, stage);
    }
  }

  /** An order whose reservation was rejected is never completed nor cancelled: it stays pending for good,
      since no handler is registered for the rejection event. */
  lemma RejectedStaysPending(cfg: Config, db: Db, i: Id)
    requires Sound(cfg, db) && i in db.outbox && db.outbox[i].event.etype.InventoryReservationFailed?
    ensures db.outbox[i].event.order in db.orders && db.orders[db.outbox[i].event.order].status.OrderPending?
  {
    var s, o := ShapeOf(db), db.outbox[i].event.order;
    assert LinkedRow(s, s.outbox[i].event);
    forall j | j in s.outbox && Ends(s.outbox[j].event.etype) ensures s.outbox[j].event.order != o {
      ReservedBefore(s, Routed(cfg), j);
    }
    assert !Reached(db, o, NotificationSent) && !Reached(db, o, InventoryReleased);
  }

  /** Whatever comes after stage 1 has a reservation behind it. */
  lemma {:induction false} ReservedBefore(s: Shape, routed: set<EventType>, i: Id)
    requires Chained(s, routed) && i in s.outbox && Stage(s.outbox[i].event.etype) >= 2
    ensures exists r :: r in s.outbox && s.outbox[r].event.order == s.outbox[i].event.order
                        && s.outbox[r].event.etype.InventoryReserved? && Processed(s, r)
    decreases Stage(s.outbox[i].event.etype)
  {
    assert LinkedRow(s, s.outbox[i].event);
    var c := s.outbox[i].event.causation.value;
    if Stage(s.outbox[c].event.etype) >= 2 {
      ReservedBefore(s, routed, c);
    }
  }

  /** A processed last event has set the order's status. */
  lemma EndedOrder(cfg: Config, db: Db, i: Id)
    requires Sound(cfg, db) && Processed(ShapeOf(db), i) && Ends(db.outbox[i].event.etype)
    requires db.outbox[i].event.order in db.orders
    ensures db.orders[db.outbox[i].event.order].status
            == if db.outbox[i].event.etype.InventoryReleased? then OrderCancelled else OrderCompleted
  {
    assert Reached(db, db.outbox[i].event.order, db.outbox[i].event.etype);
  }

  lemma NextOf(cfg: Config, db: Db, i: Id) returns (j: Id)
    requires Sound(cfg, db) && Processed(ShapeOf(db), i) && !Ends(db.outbox[i].event.etype)
    ensures j in db.outbox && db.outbox[j].event.causation == Some(i)
    ensures db.outbox[j].event.order == db.outbox[i].event.order
    ensures Follows(db.outbox[j].event.etype, db.outbox[i].event.etype)
    ensures Stage(db.outbox[j].event.etype) == Stage(db.outbox[i].event.etype) + 1
  {
    assert HasNext(ShapeOf(db), i);
    j :| j in db.outbox && db.outbox[j].event.causation == Some(i);
    assert LinkedRow(ShapeOf(db), db.outbox[j].event);
    FollowsIsNextStage(db.outbox[j].event.etype, db.outbox[i].event.etype);
  }

  // ----- amounts -----

  /** Whatever was charged, invoiced or notified for an order is the sum over its stored lines. */
  lemma AmountsCarried(cfg: Config, db: Db)
    requires Sound(cfg, db)
    ensures forall p | p in db.payments ::
              && db.payments[p].order in db.orders
              && db.payments[p].amount == OrderTotal(db.orders[db.payments[p].order].lines)
    ensures forall v | v in db.invoices ::
              && db.invoices[v].order in db.orders
              && db.invoices[v].amount == OrderTotal(db.orders[db.invoices[v].order].lines)
              && db.invoices[v].payment in db.payments
              && db.payments[db.invoices[v].payment] == Payment(db.invoices[v].order, true, db.invoices[v].amount)
    ensures forall n | n in db.notifications ::
              && db.notifications[n].order in db.orders
              && db.notifications[n].amount == Some(OrderTotal(db.orders[db.notifications[n].order].lines))
  {
    forall p | p in db.payments
      ensures db.payments[p].order in db.orders
              && db.payments[p].amount == OrderTotal(db.orders[db.payments[p].order].lines)
    {
      var i := PaymentEvent(db, p);
      assert PayloadOk(db, db.outbox[i].event);
    }
    forall v | v in db.invoices
      ensures && db.invoices[v].order in db.orders
              && db.invoices[v].amount == OrderTotal(db.orders[db.invoices[v].order].lines)
              && db.invoices[v].payment in db.payments
              && db.payments[db.invoices[v].payment] == Payment(db.invoices[v].order, true, db.invoices[v].amount)
    {
      var i := InvoiceEvent(db, v);
      assert PayloadOk(db, db.outbox[i].event);
    }
    forall n | n in db.notifications
      ensures && db.notifications[n].order in db.orders
              && db.notifications[n].amount == Some(OrderTotal(db.orders[db.notifications[n].order].lines))
    {
      var i := NotificationEvent(db, n);
      assert PayloadOk(db, db.outbox[i].event);
    }
  }

  // ----- failed deliveries -----

  /** A delivery that raises commits its bookkeeping and nothing else, although nothing is rolled back. */
  lemma FailureIsAtomic(cfg: Config, db: Db, i: Id, ch: Choice)
    requires Sound(cfg, db) && i in db.outbox && HandleRow(cfg, db, i, ch).Raised?
    ensures var after := Deliver(cfg, db, i, ch);
            && after.inventory == db.inventory && after.orders == db.orders && after.inbox == db.inbox
            && after.payments == db.payments && after.invoices == db.invoices
            && after.notifications == db.notifications && after.keys == db.keys
            && after.outbox.Keys == db.outbox.Keys
            && (forall j | j in db.outbox :: j != i ==> after.outbox[j] == db.outbox[j])
            && after.outbox[i].event == db.outbox[i].event
  {
    hide AfterFailure, HandleRow;
    FailureIsClean(cfg, db, i, ch);
    FailureWrites(cfg, db, i, ch);
  }
}
