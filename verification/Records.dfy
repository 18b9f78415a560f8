/** From a notification back to the payment, and from every effect to the marker of the worker that had it. */
module Records {
  import opened Tables
  import opened Lines
  import opened Dispatcher
  import opened Chain
  import opened Business
  import opened Guarantees
  import opened Conservation

  // ----- the paper trail -----

  /** A row of this type of the order. */
  predicate RowFor(db: Db, i: Id, o: Id, t: EventType) {
    i in db.outbox && db.outbox[i].event.order == o && db.outbox[i].event.etype == t
  }

  /** Every notification is for the invoice that its order's InvoiceCreated event cites, and NotificationSent cites the
      same one; the invoice is of the order, over the notified amount, and for the order's authorized payment, which
      PaymentAuthorized and InvoiceCreated cite. */
  ghost predicate Trail(db: Db, n: Id)
    requires n in db.notifications
  {
    var o, v := db.notifications[n].order, db.notifications[n].invoice;
    && v in db.invoices && db.invoices[v].order == o
    && db.notifications[n].amount == Some(db.invoices[v].amount)
    && db.invoices[v].payment in db.payments
    && db.payments[db.invoices[v].payment] == Payment(o, true, db.invoices[v].amount)
    && (exists i :: RowFor(db, i, o, NotificationSent)) && (exists i :: RowFor(db, i, o, InvoiceCreated))
    && (exists i :: RowFor(db, i, o, PaymentAuthorized))
    && (forall i | RowFor(db, i, o, NotificationSent) ::
          var p := db.outbox[i].event.payload; p.notificationId == Some(n) && p.invoiceId == Some(v))
    && (forall i | RowFor(db, i, o, InvoiceCreated) ::
          var p := db.outbox[i].event.payload; p.invoiceId == Some(v) && p.paymentId == Some(db.invoices[v].payment))
    && (forall i | RowFor(db, i, o, PaymentAuthorized) ::
          db.outbox[i].event.payload.paymentId == Some(db.invoices[v].payment))
  }

  lemma PaperTrail(cfg: Config, db: Db, n: Id)
    requires Sound(cfg, db) && n in db.notifications
    ensures Trail(db, n)
  {
    hide Linked, OneLive, HasLive, Statuses, Letters, HandedOn, InboxSound, Projected, OrderTotal, Raw;
    var o, v := db.notifications[n].order, db.notifications[n].invoice;
    var i := NotificationEvent(db, n);
    assert PayloadOk(db, db.outbox[i].event);
    var j := InvoiceEvent(db, v);
    assert PayloadOk(db, db.outbox[j].event);
    var k := PaymentEvent(db, db.invoices[v].payment);
    assert RowFor(db, i, o, NotificationSent) && RowFor(db, j, o, InvoiceCreated);
    assert RowFor(db, k, o, PaymentAuthorized);
    OneEventEach(db, i, j, k, o);
  }

  lemma OneEventEach(db: Db, i: Id, j: Id, k: Id, o: Id)
    requires Linear(ShapeOf(db)) && RowFor(db, i, o, NotificationSent)
    requires RowFor(db, j, o, InvoiceCreated) && RowFor(db, k, o, PaymentAuthorized)
    ensures forall x | RowFor(db, x, o, NotificationSent) :: db.outbox[x].event == db.outbox[i].event
    ensures forall x | RowFor(db, x, o, InvoiceCreated) :: db.outbox[x].event == db.outbox[j].event
    ensures forall x | RowFor(db, x, o, PaymentAuthorized) :: db.outbox[x].event == db.outbox[k].event
  {
  }

  // ----- whose markers stand for what -----

  /** The worker has marked a row of the order. */
  ghost predicate MarkedBy(db: Db, o: Id, consumer: Consumer) {
    exists i :: i in db.outbox && db.outbox[i].event.order == o && (consumer, i) in db.inbox
  }

  ghost predicate HasPayment(db: Db, o: Id) {
    exists p :: p in db.payments && db.payments[p].order == o
  }

  ghost predicate HasInvoice(db: Db, o: Id) {
    exists v :: v in db.invoices && db.invoices[v].order == o
  }

  ghost predicate HasNotification(db: Db, o: Id) {
    exists n :: n in db.notifications && db.notifications[n].order == o
  }

  /** An event handed on has its marker, and a marker has its event handed on. */
  lemma MarkedIffHandedOn(cfg: Config, db: Db, o: Id, t: EventType)
    requires Sound(cfg, db) && !Ends(t) && !t.InventoryReservationFailed?
    ensures MarkedBy(db, o, ConsumerOf(t)) <==> exists next :: Follows(next, t) && Emitted(db, o, next)
  {
    hide Linear, OneLive, HasLive, Statuses, Letters, OneCorrelation, Payloads, OrdersOk, RecordsCited, Projected;
    if MarkedBy(db, o, ConsumerOf(t)) {
      var i :| i in db.outbox && db.outbox[i].event.order == o && (ConsumerOf(t), i) in db.inbox;
      assert db.outbox[i].event.etype == t;
      var j := NextOf(cfg, db, i);
      assert Follows(db.outbox[j].event.etype, t) && Emitted(db, o, db.outbox[j].event.etype);
    }
    if next :| Follows(next, t) && Emitted(db, o, next) {
      var i :| i in db.outbox && db.outbox[i].event.order == o && db.outbox[i].event.etype == next;
      assert LinkedRow(ShapeOf(db), db.outbox[i].event);
      assert (ConsumerOf(t), db.outbox[i].event.causation.value) in db.inbox;
    }
  }

  /** Records stand beside the event their worker emitted. */
  lemma RecordsAreEmitted(cfg: Config, db: Db, o: Id)
    requires Sound(cfg, db)
    ensures HasPayment(db, o) <==> Emitted(db, o, PaymentAuthorized) || Emitted(db, o, PaymentFailed)
    ensures HasInvoice(db, o) <==> Emitted(db, o, InvoiceCreated)
    ensures HasNotification(db, o) <==> Emitted(db, o, NotificationSent)
  {
    hide Chained, Projected, OrdersOk;
    if HasPayment(db, o) {
      var p :| p in db.payments && db.payments[p].order == o;
      var i := PaymentEvent(db, p);
    }
    if HasInvoice(db, o) {
      var v :| v in db.invoices && db.invoices[v].order == o;
      var i := InvoiceEvent(db, v);
    }
    if HasNotification(db, o) {
      var n :| n in db.notifications && db.notifications[n].order == o;
      var i := NotificationEvent(db, n);
    }
    EmittedHasRecord(db, o);
  }

  lemma EmittedHasRecord(db: Db, o: Id)
    requires Payloads(db)
    ensures Emitted(db, o, PaymentAuthorized) || Emitted(db, o, PaymentFailed) ==> HasPayment(db, o)
    ensures Emitted(db, o, InvoiceCreated) ==> HasInvoice(db, o)
    ensures Emitted(db, o, NotificationSent) ==> HasNotification(db, o)
  {
    forall i | i in db.outbox ensures PayloadOk(db, db.outbox[i].event) {
    }
  }

  /** The projection has marked a row of the order exactly when its status has been written. */
  lemma ProjectionMarks(cfg: Config, db: Db, o: Id)
    requires Sound(cfg, db) && o in db.orders
    ensures MarkedBy(db, o, OrderProjectionWorker) <==> !db.orders[o].status.OrderPending?
  {
    hide Linked, Linear, OneLive, HasLive, Statuses, Letters, HandedOn, Payloads, RecordsCited;
    if MarkedBy(db, o, OrderProjectionWorker) {
      var i :| i in db.outbox && db.outbox[i].event.order == o && (OrderProjectionWorker, i) in db.inbox;
      assert Reached(db, o, db.outbox[i].event.etype);
    }
  }

  /** Each effect of an order stands beside a marker of the worker whose effect it is, and each marker beside the
      effect: reserved or rejected, paid, invoiced, notified, released, completed or cancelled. */
  lemma MarkersAreEffects(cfg: Config, db: Db, o: Id)
    requires Sound(cfg, db) && o in db.orders
    ensures MarkedBy(db, o, InventoryWorker)
            <==> Emitted(db, o, InventoryReserved) || Emitted(db, o, InventoryReservationFailed)
    ensures MarkedBy(db, o, PaymentWorker) <==> HasPayment(db, o)
    ensures MarkedBy(db, o, InvoiceWorker) <==> HasInvoice(db, o)
    ensures MarkedBy(db, o, NotificationWorker) <==> HasNotification(db, o)
    ensures MarkedBy(db, o, InventoryCompensationWorker) <==> Emitted(db, o, InventoryReleased)
    ensures MarkedBy(db, o, OrderProjectionWorker) <==> !db.orders[o].status.OrderPending?
  {
    hide Sound, MarkedBy, Emitted, HasPayment, HasInvoice, HasNotification;
    RecordsAreEmitted(cfg, db, o);
    ProjectionMarks(cfg, db, o);
    MarkedIffHandedOn(cfg, db, o, OrderCreated);
    MarkedIffHandedOn(cfg, db, o, InventoryReserved);
    MarkedIffHandedOn(cfg, db, o, PaymentAuthorized);
    MarkedIffHandedOn(cfg, db, o, InvoiceCreated);
    MarkedIffHandedOn(cfg, db, o, PaymentFailed);
    assert Follows(InventoryReserved, OrderCreated) && Follows(InventoryReservationFailed, OrderCreated);
    assert Follows(PaymentAuthorized, InventoryReserved) && Follows(PaymentFailed, InventoryReserved);
    assert Follows(InvoiceCreated, PaymentAuthorized) && Follows(NotificationSent, InvoiceCreated);
    assert Follows(InventoryReleased, PaymentFailed);
  }
}
