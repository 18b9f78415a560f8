/** What the rows of an order say, and that the business tables agree with them. */
module Business {
  import opened Tables
  import opened Lines
  import opened Inbox
  import opened Dispatcher
  import opened Saga
  import opened Chain
  import InventoryWorker

  /** The payload an event of this type carries for its order. */
  ghost predicate PayloadOk(db: Db, e: Event) {
    && e.order in db.orders && e.payload.orderId == Some(e.order) && !e.payload.shouldFail
    && var lines, p := db.orders[e.order].lines, e.payload;
       match e.etype
       case OrderCreated => p.items == ItemList(Raw(lines))
       case InventoryReserved => p.items == ItemList(Raw(lines))
       case InventoryReservationFailed => p.items == ItemList(Raw(lines))
       case PaymentAuthorized => PaidAs(db, e, true)
       case PaymentFailed => PaidAs(db, e, false) && p.items == ItemList(Raw(lines))
       case InventoryReleased =>
         p.items == ItemList(Raw(lines)) && p.paymentId.Some? && p.paymentId.value in db.payments
         && db.payments[p.paymentId.value] == Payment(e.order, false, OrderTotal(lines))
       case InvoiceCreated =>
         PaidAs(db, e, true) && p.invoiceId.Some? && p.invoiceId.value in db.invoices
         && db.invoices[p.invoiceId.value] == Invoice(e.order, p.paymentId.value, OrderTotal(lines))
       case NotificationSent =>
         p.invoiceId.Some? && p.invoiceId.value in db.invoices && db.invoices[p.invoiceId.value].order == e.order
         && p.notificationId.Some? && p.notificationId.value in db.notifications
         && db.notifications[p.notificationId.value]
            == Notification(e.order, p.invoiceId.value, Some(OrderTotal(lines)))
  }

  ghost predicate PaidAs(db: Db, e: Event, authorized: bool)
    requires e.order in db.orders
  {
    var p, total := e.payload, OrderTotal(db.orders[e.order].lines);
    p.amount == Some(total) && p.paymentId.Some? && p.paymentId.value in db.payments
    && db.payments[p.paymentId.value] == Payment(e.order, authorized, total)
  }

  ghost predicate Payloads(db: Db) {
    forall i {:trigger PayloadOk(db, db.outbox[i].event)} | i in db.outbox :: PayloadOk(db, db.outbox[i].event)
  }

  predicate LinesOk(inv: Inventory, lines: seq<Line>) {
    forall line | line in lines :: line.sku in inv && line.quantity > 0
  }

  ghost predicate OrdersOk(db: Db) {
    forall o | o in db.orders :: LinesOk(db.inventory, db.orders[o].lines)
  }

  // Every record is cited by the event its worker emitted.

  ghost predicate PaymentCited(db: Db, p: Id) {
    exists i :: i in db.outbox && Stage(db.outbox[i].event.etype) == 2
                && db.outbox[i].event.payload.paymentId == Some(p)
  }

  ghost predicate InvoiceCited(db: Db, v: Id) {
    exists i :: i in db.outbox && db.outbox[i].event.etype.InvoiceCreated?
                && db.outbox[i].event.payload.invoiceId == Some(v)
  }

  ghost predicate NotificationCited(db: Db, n: Id) {
    exists i :: i in db.outbox && db.outbox[i].event.etype.NotificationSent?
                && db.outbox[i].event.payload.notificationId == Some(n)
  }

  ghost predicate RecordsCited(db: Db) {
    && (forall p {:trigger PaymentCited(db, p)} | p in db.payments :: PaymentCited(db, p))
    && (forall v {:trigger InvoiceCited(db, v)} | v in db.invoices :: InvoiceCited(db, v))
    && (forall n {:trigger NotificationCited(db, n)} | n in db.notifications :: NotificationCited(db, n))
  }

  /** A processed row of this type exists for the order. */
  ghost predicate Reached(db: Db, o: Id, t: EventType) {
    exists i :: Processed(ShapeOf(db), i) && db.outbox[i].event.order == o && db.outbox[i].event.etype == t
  }

  ghost predicate Projected(db: Db) {
    forall o | o in db.orders ::
      && (db.orders[o].status.OrderCompleted? <==> Reached(db, o, NotificationSent))
      && (db.orders[o].status.OrderCancelled? <==> Reached(db, o, InventoryReleased))
  }

  ghost predicate Sound(cfg: Config, db: Db) {
    && Chained(ShapeOf(db), Routed(cfg)) && Payloads(db) && OrdersOk(db) && RecordsCited(db) && Projected(db)
  }

  /** Tables only grow, and what is written of an order's lines and of records stays. */
  ghost predicate Grown(a: Db, b: Db) {
    && (forall o | o in a.orders :: o in b.orders && b.orders[o].lines == a.orders[o].lines)
    && (forall p | p in a.payments :: p in b.payments && b.payments[p] == a.payments[p])
    && (forall v | v in a.invoices :: v in b.invoices && b.invoices[v] == a.invoices[v])
    && (forall n | n in a.notifications :: n in b.notifications && b.notifications[n] == a.notifications[n])
    && a.inventory.Keys <= b.inventory.Keys
  }

  lemma PayloadStays(a: Db, b: Db, e: Event)
    requires PayloadOk(a, e) && Grown(a, b)
    ensures PayloadOk(b, e)
  {
  }

  // ----- what the handlers do on sound payloads -----

  lemma RawIsWellFormed(inv: Inventory, lines: seq<Line>)
    requires LinesOk(inv, lines)
    ensures var es := Raw(lines);
            && Entries(es) == es && InventoryWorker.HasSkus(es) && InventoryWorker.Known(inv, es)
            && InventoryWorker.GoodPrefix(es) == |es| && es[..|es|] == es
  {
    RawPassesThrough(lines);
    var es := Raw(lines);
    assert es[..|es|] == es;
  }

  /** A handler never raises on a sound row of its own accord, so a raise has touched nothing. */
  lemma RaiseIsClean(cfg: Config, db: Db, i: Id, ch: Choice)
    requires i in db.outbox && PayloadOk(db, db.outbox[i].event) && OrdersOk(db)
    requires HandleRow(cfg, db, i, ch).Raised?
    ensures HandleRow(cfg, db, i, ch) == Raised(db)
    ensures db.outbox[i].event.etype !in Routed(cfg)
            || (!HasProcessed(db, EnvelopeOf(db, i))
                && (ch.fault || db.outbox[i].event.etype.InventoryReservationFailed?))
  {
    var e := db.outbox[i].event;
    RawIsWellFormed(db.inventory, db.orders[e.order].lines);
  }

  /** The row and everything needed of it for its handler to run to the end. */
  ghost predicate Runnable(cfg: Config, db: Db, i: Id, forced: bool, ch: Choice) {
    && MayHandle(cfg, db, i, forced, ch) && !Processed(ShapeOf(db), i)
    && PayloadOk(db, db.outbox[i].event) && OrdersOk(db)
  }

  /** Stock is moved by reservation and release only, and then by all the lines of the order. */
  ghost predicate StockMoved(a: Db, b: Db, event: Event, emitted: EventType)
    requires event.order in a.orders
  {
    var lines := a.orders[event.order].lines;
    match emitted
    case InventoryReserved => FitsLines(a.inventory, lines) && b.inventory == Take(a.inventory, Raw(lines))
    case InventoryReservationFailed => !FitsLines(a.inventory, lines) && b.inventory == a.inventory
    case InventoryReleased => b.inventory == Put(a.inventory, Raw(lines))
    case _ => b.inventory == a.inventory
  }

  /** Each line of the order alone fits the stock. */
  predicate FitsLines(inv: Inventory, lines: seq<Line>) {
    forall line | line in lines :: line.sku in inv && line.quantity <= inv[line.sku].available
  }

  lemma FitsLinesIsFits(inv: Inventory, lines: seq<Line>)
    requires LinesOk(inv, lines)
    ensures InventoryWorker.HasSkus(Raw(lines)) && InventoryWorker.Known(inv, Raw(lines))
    ensures FitsLines(inv, lines) <==> InventoryWorker.Fits(inv, Raw(lines))
  {
    var es := Raw(lines);
    assert forall k | 0 <= k < |es| :: es[k] in es && lines[k] in lines;
  }

  /** Handler of row i: one more link of the chain, with a sound payload, and the stock it stands for. */
  ghost predicate LinkAdded(a: Db, b: Db, i: Id, ch: Choice)
    requires i in a.outbox && a.outbox[i].event.order in a.orders
  {
    && ch.eventId in b.outbox
    && Extended(ShapeOf(a), ShapeOf(b), i, ch.eventId, b.outbox[ch.eventId])
    && b.outbox[ch.eventId] == Row(b.outbox[ch.eventId].event, ch.now, Pending, None, 0)
    && Grown(a, b) && PayloadOk(b, b.outbox[ch.eventId].event)
    && b.orders == a.orders && b.attempts == a.attempts && b.keys == a.keys
    && StockMoved(a, b, a.outbox[i].event, b.outbox[ch.eventId].event.etype)
    && OnlyCitedAdded(a, b, b.outbox[ch.eventId].event)
  }

  /** A new record is one that the emitted event cites. */
  ghost predicate OnlyCitedAdded(a: Db, b: Db, e: Event) {
    && (forall p | p in b.payments && p !in a.payments :: Stage(e.etype) == 2 && e.payload.paymentId == Some(p))
    && (forall v | v in b.invoices && v !in a.invoices :: e.etype.InvoiceCreated? && e.payload.invoiceId == Some(v))
    && (forall n | n in b.notifications && n !in a.notifications ::
          e.etype.NotificationSent? && e.payload.notificationId == Some(n))
  }

  /** On a sound payload the outcome of a reservation is decided by the stock alone. */
  lemma ReserveDecides(db: Db, e: Envelope, ch: Choice)
    requires PayloadOk(db, e.event.(payload := e.event.payload.(shouldFail := false))) && OrdersOk(db)
    requires e.event.etype.OrderCreated?
    ensures var es, result := Raw(db.orders[e.event.order].lines), OrderItems(e.event.order, db);
            && InventoryWorker.HasSkus(es) && InventoryWorker.Known(db.inventory, es)
            && InventoryWorker.Reserve(db, e, ch) == Applied(
              if InventoryWorker.Fits(db.inventory, es)
              then Emit(db.(inventory := Take(db.inventory, es)), e, ch, InventoryReserved, e.event.order, result)
              else Emit(db, e, ch, InventoryReservationFailed, e.event.order, result))
  {
    RawIsWellFormed(db.inventory, db.orders[e.event.order].lines);
  }

  function OrderItems(order: Id, db: Db): Payload
    requires order in db.orders
  {
    NO_PAYLOAD.(orderId := Some(order), items := ItemList(Raw(db.orders[order].lines)))
  }

  /** What a handler has written before it emits: stock or one record, and nothing of what others own. */
  ghost predicate Prepared(a: Db, mid: Db) {
    && mid == a.(inventory := mid.inventory, payments := mid.payments, invoices := mid.invoices,
                 notifications := mid.notifications)
    && Grown(a, mid)
  }

  /** Emitting a sound next event after that adds a link. */
  lemma EmissionLinks(a: Db, mid: Db, i: Id, e: Envelope, ch: Choice, t: EventType, payload: Payload)
    requires i in a.outbox && !Processed(ShapeOf(a), i) && FreshIds(a, ch) && Prepared(a, mid)
    requires e.id == i && e.event == a.outbox[i].event.(payload := e.event.payload)
    requires e.event.order in a.orders && Follows(t, e.event.etype)
    requires StockMoved(a, mid, a.outbox[i].event, t)
    requires PayloadOk(mid, Event(t, e.event.order, e.event.correlation, Some(i), payload))
    requires OnlyCitedAdded(a, mid, Event(t, e.event.order, e.event.correlation, Some(i), payload))
    ensures LinkAdded(a, Marked(Emit(mid, e, ch, t, e.event.order, payload), e), i, ch)
  {
  }

  lemma ReserveAddsLink(cfg: Config, a: Db, i: Id, forced: bool, ch: Choice)
    requires Runnable(cfg, a, i, forced, ch) && a.outbox[i].event.etype.OrderCreated?
    ensures LinkAdded(a, HandledDb(a, Delivered(a, i, forced), ch), i, ch)
  {
    hide LinkAdded, Emit, Raw, OrderTotal, InventoryWorker.Reserve;
    var e := Delivered(a, i, forced);
    ReserveDecides(a, e, ch);
    var es := Raw(a.orders[e.event.order].lines);
    FitsLinesIsFits(a.inventory, a.orders[e.event.order].lines);
    if InventoryWorker.Fits(a.inventory, es) {
      EmissionLinks(a, a.(inventory := Take(a.inventory, es)), i, e, ch, InventoryReserved,
                    OrderItems(e.event.order, a));
    } else {
      EmissionLinks(a, a, i, e, ch, InventoryReservationFailed, OrderItems(e.event.order, a));
    }
  }

  /** On an order's own lines a release puts all of them back. */
  lemma ReleaseReturns(db: Db, e: Envelope, ch: Choice)
    requires PayloadOk(db, e.event.(payload := e.event.payload.(shouldFail := false))) && OrdersOk(db)
    requires e.event.etype.PaymentFailed?
    ensures var es := Raw(db.orders[e.event.order].lines);
            InventoryWorker.Release(db, e, ch)
            == Applied(Emit(db.(inventory := Put(db.inventory, es)), e, ch, InventoryReleased, e.event.order,
                            OrderItems(e.event.order, db).(paymentId := e.event.payload.paymentId)))
  {
    hide Put, Emit, OrderTotal;
    RawIsWellFormed(db.inventory, db.orders[e.event.order].lines);
  }

  lemma ReleaseAddsLink(cfg: Config, a: Db, i: Id, forced: bool, ch: Choice)
    requires Runnable(cfg, a, i, forced, ch) && a.outbox[i].event.etype.PaymentFailed?
    ensures LinkAdded(a, HandledDb(a, Delivered(a, i, forced), ch), i, ch)
  {
    hide LinkAdded, Emit, Raw, OrderTotal, InventoryWorker.Release;
    var e := Delivered(a, i, forced);
    ReleaseReturns(a, e, ch);
    EmissionLinks(a, a.(inventory := Put(a.inventory, Raw(a.orders[e.event.order].lines))), i, e, ch, InventoryReleased,
                  OrderItems(e.event.order, a).(paymentId := e.event.payload.paymentId));
  }

  lemma PaymentAddsLink(cfg: Config, a: Db, i: Id, forced: bool, ch: Choice)
    requires Runnable(cfg, a, i, forced, ch) && a.outbox[i].event.etype.InventoryReserved?
    ensures LinkAdded(a, HandledDb(a, Delivered(a, i, forced), ch), i, ch)
  {
    hide LinkAdded, Emit, AmountCents, OrderTotal, OrdersOk, FitsLines, Raw;
    var e := Delivered(a, i, forced);
    var order, p, lines := e.event.order, e.event.payload, a.orders[e.event.order].lines;
    AmountIsOrderTotal(lines);
    var paid := a.(payments := a.payments[ch.recordId := Payment(order, !p.shouldFail, OrderTotal(lines))]);
    var result := NO_PAYLOAD.(orderId := Some(order), paymentId := Some(ch.recordId),
                              amount := Some(OrderTotal(lines)));
    if p.shouldFail {
      EmissionLinks(a, paid, i, e, ch, PaymentFailed, result.(items := p.items));
    } else {
      EmissionLinks(a, paid, i, e, ch, PaymentAuthorized, result);
    }
  }

  lemma InvoiceAddsLink(cfg: Config, a: Db, i: Id, forced: bool, ch: Choice)
    requires Runnable(cfg, a, i, forced, ch) && a.outbox[i].event.etype.PaymentAuthorized?
    ensures LinkAdded(a, HandledDb(a, Delivered(a, i, forced), ch), i, ch)
  {
    hide LinkAdded, Emit, Raw, OrderTotal, OrdersOk, FitsLines;
    var e := Delivered(a, i, forced);
    var p := e.event.payload;
    var invoice := Invoice(e.event.order, p.paymentId.value, p.amount.value);
    EmissionLinks(a, a.(invoices := a.invoices[ch.recordId := invoice]), i, e, ch, InvoiceCreated,
                  NO_PAYLOAD.(orderId := p.orderId, paymentId := p.paymentId,
                              invoiceId := Some(ch.recordId), amount := p.amount));
  }

  lemma NotificationAddsLink(cfg: Config, a: Db, i: Id, forced: bool, ch: Choice)
    requires Runnable(cfg, a, i, forced, ch) && a.outbox[i].event.etype.InvoiceCreated?
    ensures LinkAdded(a, HandledDb(a, Delivered(a, i, forced), ch), i, ch)
  {
    hide LinkAdded, Emit, Raw, OrderTotal, OrdersOk, FitsLines;
    var e := Delivered(a, i, forced);
    var p := e.event.payload;
    var notification := Notification(e.event.order, p.invoiceId.value, p.amount);
    EmissionLinks(a, a.(notifications := a.notifications[ch.recordId := notification]), i, e, ch, NotificationSent,
                  NO_PAYLOAD.(orderId := p.orderId, invoiceId := p.invoiceId, notificationId := Some(ch.recordId)));
  }

  lemma HandlerFinishes(cfg: Config, a: Db, i: Id, forced: bool, ch: Choice)
    requires Runnable(cfg, a, i, forced, ch) && Ends(a.outbox[i].event.etype)
    ensures var b, event := HandledDb(a, Delivered(a, i, forced), ch), a.outbox[i].event;
            var status := if event.etype.NotificationSent? then OrderCompleted else OrderCancelled;
            && Finished(ShapeOf(a), ShapeOf(b), i)
            && b == a.(orders := a.orders[event.order := a.orders[event.order].(status := status)], inbox := b.inbox)
  {
  }

  // ----- every step keeps soundness -----

  /** Completion and cancellation lie on different branches of the one chain an order has. */
  lemma BranchesExclude(s: Shape, routed: set<EventType>, i: Id, j: Id)
    requires Chained(s, routed) && i in s.outbox && j in s.outbox
    requires s.outbox[i].event.etype.NotificationSent? && s.outbox[j].event.etype.InventoryReleased?
    ensures s.outbox[i].event.order != s.outbox[j].event.order
  {
    var event := s.outbox[i].event;
    assert LinkedRow(s, event);
    var c := event.causation.value;
    assert s.outbox[c].event.etype.InvoiceCreated?;
    assert Stage(s.outbox[c].event.etype) == Stage(s.outbox[j].event.etype);
  }

  lemma CitationsKept(a: Db, b: Db)
    requires RecordsCited(a)
    requires forall i | i in a.outbox :: i in b.outbox && b.outbox[i].event == a.outbox[i].event
    requires forall p | p in b.payments && p !in a.payments :: PaymentCited(b, p)
    requires forall v | v in b.invoices && v !in a.invoices :: InvoiceCited(b, v)
    requires forall n | n in b.notifications && n !in a.notifications :: NotificationCited(b, n)
    ensures RecordsCited(b)
  {
    forall p | p in b.payments && p in a.payments ensures PaymentCited(b, p) {
      assert PaymentCited(a, p);
      var i :| i in a.outbox && Stage(a.outbox[i].event.etype) == 2 && a.outbox[i].event.payload.paymentId == Some(p);
      assert i in b.outbox;
    }
    forall v | v in b.invoices && v in a.invoices ensures InvoiceCited(b, v) {
      assert InvoiceCited(a, v);
      var i :| i in a.outbox && a.outbox[i].event.etype.InvoiceCreated?
             && a.outbox[i].event.payload.invoiceId == Some(v);
      assert i in b.outbox;
    }
    forall n | n in b.notifications && n in a.notifications ensures NotificationCited(b, n) {
      assert NotificationCited(a, n);
      var i :| i in a.outbox && a.outbox[i].event.etype.NotificationSent?
               && a.outbox[i].event.payload.notificationId == Some(n);
      assert i in b.outbox;
    }
  }

  lemma PayloadsKept(a: Db, b: Db, n: Id)
    requires Payloads(a) && Grown(a, b)
    requires forall i | i in b.outbox && i != n :: i in a.outbox && b.outbox[i].event == a.outbox[i].event
    requires n in b.outbox ==> PayloadOk(b, b.outbox[n].event)
    ensures Payloads(b)
  {
    forall i | i in b.outbox ensures PayloadOk(b, b.outbox[i].event) {
      if i != n {
        assert PayloadOk(a, a.outbox[i].event);
        PayloadStays(a, b, a.outbox[i].event);
      }
    }
  }

  lemma ReachedSame(a: Db, b: Db, o: Id, t: EventType)
    requires forall i | i in a.outbox :: i in b.outbox && b.outbox[i].event == a.outbox[i].event
    requires forall i | Processed(ShapeOf(b), i) && b.outbox[i].event.etype == t :: Processed(ShapeOf(a), i)
    requires a.inbox <= b.inbox
    ensures Reached(b, o, t) <==> Reached(a, o, t)
  {
    if Reached(a, o, t) {
      var i :| Processed(ShapeOf(a), i) && a.outbox[i].event.order == o && a.outbox[i].event.etype == t;
      assert Processed(ShapeOf(b), i);
    }
    if Reached(b, o, t) {
      var i :| Processed(ShapeOf(b), i) && b.outbox[i].event.order == o && b.outbox[i].event.etype == t;
      assert Processed(ShapeOf(a), i);
    }
  }

  lemma LinkKeepsSound(cfg: Config, a: Db, b: Db, i: Id, ch: Choice)
    requires Sound(cfg, a) && i in a.outbox && a.outbox[i].event.etype in Routed(cfg)
    requires a.outbox[i].event.order in a.orders && LinkAdded(a, b, i, ch) && !a.outbox[i].status.Failed?
    ensures Sound(cfg, b)
  {
    var n := ch.eventId;
    ExtendedKeepsLinks(ShapeOf(a), ShapeOf(b), i, n, b.outbox[n], Routed(cfg));
    ExtendedKeepsLive(ShapeOf(a), ShapeOf(b), i, n, b.outbox[n], Routed(cfg));
    LinkKeepsBusiness(cfg, a, b, i, ch);
  }

  lemma LinkKeepsBusiness(cfg: Config, a: Db, b: Db, i: Id, ch: Choice)
    requires InboxSound(ShapeOf(a), Routed(cfg)) && Payloads(a) && OrdersOk(a) && RecordsCited(a) && Projected(a)
    requires i in a.outbox && a.outbox[i].event.order in a.orders && LinkAdded(a, b, i, ch)
    ensures Payloads(b) && OrdersOk(b) && RecordsCited(b) && Projected(b)
  {
    hide PayloadOk, Projected, StockMoved;
    PayloadsKept(a, b, ch.eventId);
    CitationsKept(a, b);
    LinkKeepsProjected(cfg, a, b, i, ch);
  }

  lemma LinkKeepsProjected(cfg: Config, a: Db, b: Db, i: Id, ch: Choice)
    requires InboxSound(ShapeOf(a), Routed(cfg)) && Projected(a)
    requires i in a.outbox && a.outbox[i].event.order in a.orders && LinkAdded(a, b, i, ch)
    ensures Projected(b)
  {
    hide PayloadOk, StockMoved, OnlyCitedAdded, Grown;
    FollowsIsNextStage(b.outbox[ch.eventId].event.etype, a.outbox[i].event.etype);
    assert forall m | m in a.inbox :: m.1 != ch.eventId;
    forall o, t | o in a.orders && Ends(t) ensures Reached(b, o, t) <==> Reached(a, o, t) {
      ReachedSame(a, b, o, t);
    }
  }

  lemma FinishKeepsSound(cfg: Config, a: Db, i: Id, forced: bool, ch: Choice)
    requires Sound(cfg, a) && Runnable(cfg, a, i, forced, ch) && Ends(a.outbox[i].event.etype)
    requires !a.outbox[i].status.Failed?
    ensures Sound(cfg, HandledDb(a, Delivered(a, i, forced), ch))
  {
    hide Handle, Chained, Projected, Payloads, PayloadOk, LinesOk, Finished, RecordsCited;
    var b := HandledDb(a, Delivered(a, i, forced), ch);
    HandlerFinishes(cfg, a, i, forced, ch);
    FinishedKeeps(ShapeOf(a), ShapeOf(b), i, Routed(cfg));
    FinishKeepsRows(a, b, i);
    FinishKeepsProjected(cfg, a, b, i);
  }

  /** The order takes the status its last event stands for; nothing else changes but the inbox. */
  ghost predicate StatusWritten(a: Db, b: Db, i: Id) {
    && i in a.outbox && a.outbox[i].event.order in a.orders
    && var event := a.outbox[i].event;
       b == a.(orders := a.orders[event.order := a.orders[event.order].(
                   status := if event.etype.NotificationSent? then OrderCompleted else OrderCancelled)],
               inbox := a.inbox + {(ConsumerOf(event.etype), i)})
  }

  lemma FinishKeepsRows(a: Db, b: Db, i: Id)
    requires Payloads(a) && OrdersOk(a) && RecordsCited(a) && StatusWritten(a, b, i)
    ensures Payloads(b) && OrdersOk(b) && RecordsCited(b)
  {
    hide LinesOk;
    assert PayloadOk(a, a.outbox[i].event);
    PayloadStays(a, b, a.outbox[i].event);
    PayloadsKept(a, b, i);
    CitationsKept(a, b);
  }

  lemma FinishKeepsProjected(cfg: Config, a: Db, b: Db, i: Id)
    requires Projected(a) && StatusWritten(a, b, i) && Ends(a.outbox[i].event.etype)
    requires Chained(ShapeOf(b), Routed(cfg))
    ensures Projected(b)
  {
    hide Chained;
    var order := a.outbox[i].event.order;
    assert Reached(b, order, a.outbox[i].event.etype) by {
      assert Processed(ShapeOf(b), i);
    }
    forall o, t | o in a.orders && Ends(t) && (o != order || t != a.outbox[i].event.etype)
      ensures Reached(b, o, t) <==> Reached(a, o, t)
    {
    }
    NotBoth(cfg, b, order);
  }

  lemma NotBoth(cfg: Config, db: Db, o: Id)
    requires Chained(ShapeOf(db), Routed(cfg))
    ensures !(Reached(db, o, NotificationSent) && Reached(db, o, InventoryReleased))
  {
    forall i, j | i in db.outbox && db.outbox[i].event.etype.NotificationSent?
                  && j in db.outbox && db.outbox[j].event.etype.InventoryReleased?
      ensures db.outbox[i].event.order != db.outbox[j].event.order
    {
      BranchesExclude(ShapeOf(db), Routed(cfg), i, j);
    }
  }

  lemma HandledKeepsSound(cfg: Config, a: Db, i: Id, forced: bool, ch: Choice)
    requires Sound(cfg, a) && Enabled(cfg, a, EventHandled(i, forced, ch))
    ensures Sound(cfg, Next(cfg, a, EventHandled(i, forced, ch)))
  {
    hide Handle;
    var e := Delivered(a, i, forced);
    if HasProcessed(a, e) {
      Redelivered(a, e, ch);
    } else {
      assert PayloadOk(a, a.outbox[i].event);
      if Ends(a.outbox[i].event.etype) {
        FinishKeepsSound(cfg, a, i, forced, ch);
      } else {
        HandlerAddsLink(cfg, a, i, forced, ch);
        LinkKeepsSound(cfg, a, HandledDb(a, e, ch), i, ch);
      }
    }
  }

  lemma Redelivered(a: Db, e: Envelope, ch: Choice)
    requires HasProcessed(a, e)
    ensures Handle(a, e, ch) == Skipped && HandledDb(a, e, ch) == a
  {
  }

  lemma HandlerAddsLink(cfg: Config, a: Db, i: Id, forced: bool, ch: Choice)
    requires Runnable(cfg, a, i, forced, ch) && !Ends(a.outbox[i].event.etype)
    ensures LinkAdded(a, HandledDb(a, Delivered(a, i, forced), ch), i, ch)
  {
    hide LinkAdded;
    match a.outbox[i].event.etype {
      case OrderCreated => ReserveAddsLink(cfg, a, i, forced, ch);
      case InventoryReserved => PaymentAddsLink(cfg, a, i, forced, ch);
      case PaymentAuthorized => InvoiceAddsLink(cfg, a, i, forced, ch);
      case InvoiceCreated => NotificationAddsLink(cfg, a, i, forced, ch);
      case PaymentFailed => ReleaseAddsLink(cfg, a, i, forced, ch);
      case InventoryReservationFailed =>
    }
  }

  /** Bookkeeping: the business tables stay, and every row carries an event that was there before. */
  ghost predicate OnlyProgress(a: Db, b: Db, n: Id) {
    && b.inventory == a.inventory && b.orders == a.orders && b.payments == a.payments
    && b.invoices == a.invoices && b.notifications == a.notifications && b.inbox == a.inbox
    && (forall i | i in a.outbox :: i in b.outbox && b.outbox[i].event == a.outbox[i].event)
    && (forall i | i in b.outbox && i != n :: i in a.outbox)
    && (n in b.outbox ==> exists i | i in a.outbox :: a.outbox[i].event == b.outbox[n].event)
  }

  lemma ProgressKeepsBusiness(cfg: Config, a: Db, b: Db, n: Id)
    requires InboxSound(ShapeOf(a), Routed(cfg)) && Payloads(a) && OrdersOk(a) && RecordsCited(a) && Projected(a)
    requires OnlyProgress(a, b, n)
    ensures Payloads(b) && OrdersOk(b) && RecordsCited(b) && Projected(b)
  {
    if n in b.outbox {
      var i :| i in a.outbox && a.outbox[i].event == b.outbox[n].event;
      assert PayloadOk(a, a.outbox[i].event);
      PayloadStays(a, b, a.outbox[i].event);
    }
    PayloadsKept(a, b, n);
    CitationsKept(a, b);
    assert forall m | m in a.inbox :: m.1 in a.outbox;
    forall o, t | o in a.orders ensures Reached(b, o, t) <==> Reached(a, o, t) {
      ReachedSame(a, b, o, t);
    }
  }
}
