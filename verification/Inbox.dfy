/** The consumer inbox: a handler body and its marker row share one transaction. */
module Inbox {
  import opened Tables
  import opened Lines
  import opened Sessions
  import InventoryWorker
  import PaymentWorker
  import InvoiceWorker
  import NotificationWorker
  import OrderProjectionWorker

  predicate HasProcessed(db: Db, e: Envelope) {
    (ConsumerOf(e.event.etype), e.id) in db.inbox
  }

  /** The business half of each handler. No handler is written for InventoryReservationFailed. */
  function Body(db: Db, e: Envelope, ch: Choice): (outcome: Outcome)
    ensures !outcome.Skipped? && db.outbox.Keys <= outcome.db.outbox.Keys
  {
    match e.event.etype
    case OrderCreated => InventoryWorker.Reserve(db, e, ch)
    case InventoryReserved => PaymentWorker.Authorize(db, e, ch)
    case PaymentAuthorized => InvoiceWorker.Create(db, e, ch)
    case InvoiceCreated => NotificationWorker.Send(db, e, ch)
    case NotificationSent => OrderProjectionWorker.Mark(db, e, OrderCompleted)
    case PaymentFailed => InventoryWorker.Release(db, e, ch)
    case InventoryReleased => OrderProjectionWorker.Mark(db, e, OrderCancelled)
    case InventoryReservationFailed => Raised(db)
  }

  /** All that a handler body may write, raising or not: stock, statuses, one record and one outbox row under the fresh
      keys, the row citing the envelope. The inbox is left to `process_once`, keys and bookkeeping to others. */
  ghost predicate BodyWrites(a: Db, b: Db, e: Envelope, ch: Choice) {
    && b.inbox == a.inbox && b.keys == a.keys && b.attempts == a.attempts && b.deadLetters == a.deadLetters
    && b.orders.Keys == a.orders.Keys
    && (b.outbox == a.outbox
        || (ch.eventId in b.outbox && b.outbox == a.outbox[ch.eventId := b.outbox[ch.eventId]]
            && b.outbox[ch.eventId] == Row(b.outbox[ch.eventId].event, ch.now, Pending, None, 0)
            && b.outbox[ch.eventId].event.causation == Some(e.id)))
    && b.payments.Keys <= a.payments.Keys + {ch.recordId} && b.invoices.Keys <= a.invoices.Keys + {ch.recordId}
    && b.notifications.Keys <= a.notifications.Keys + {ch.recordId}
  }

  lemma BodyLeaves(db: Db, e: Envelope, ch: Choice)
    ensures BodyWrites(db, Body(db, e, ch).db, e, ch)
  {
    hide InventoryWorker.Reserve, InventoryWorker.Release, PaymentWorker.Authorize, InvoiceWorker.Create,
         NotificationWorker.Send, OrderProjectionWorker.Mark, BodyWrites;
    match e.event.etype {
      case OrderCreated => ReserveWrites(db, e, ch);
      case InventoryReserved => PaymentWrites(db, e, ch);
      case PaymentAuthorized => InvoiceWrites(db, e, ch);
      case InvoiceCreated => NotificationWrites(db, e, ch);
      case NotificationSent => ProjectionWrites(db, e, ch, OrderCompleted);
      case PaymentFailed => ReleaseWrites(db, e, ch);
      case InventoryReleased => ProjectionWrites(db, e, ch, OrderCancelled);
      case InventoryReservationFailed => PlainWrites(db, db, e, ch);
    }
  }

  lemma EmitWrites(a: Db, mid: Db, e: Envelope, ch: Choice, t: EventType, order: Id, payload: Payload)
    requires BodyWrites(a, mid, e, ch) && mid.outbox == a.outbox
    ensures BodyWrites(a, Emit(mid, e, ch, t, order, payload), e, ch)
  {
  }

  /** Stock and statuses are among the writes. */
  lemma PlainWrites(db: Db, b: Db, e: Envelope, ch: Choice)
    requires b == db.(inventory := b.inventory, orders := b.orders) && b.orders.Keys == db.orders.Keys
    ensures BodyWrites(db, b, e, ch)
  {
  }

  lemma ReserveWrites(db: Db, e: Envelope, ch: Choice)
    ensures BodyWrites(db, InventoryWorker.Reserve(db, e, ch).db, e, ch)
  {
    hide Take, Entries, Emit, BodyWrites, InventoryWorker.ItemsPayload;
    var p := e.event.payload;
    PlainWrites(db, db, e, ch);
    match InventoryWorker.Decide(db.inventory, p) {
      case Malformed =>
      case Rejected =>
        EmitWrites(db, db, e, ch, InventoryReservationFailed, p.orderId.value, InventoryWorker.ItemsPayload(p));
      case Accepted =>
        var taken := db.(inventory := Take(db.inventory, Entries(p.items.lines)));
        PlainWrites(db, taken, e, ch);
        EmitWrites(db, taken, e, ch, InventoryReserved, p.orderId.value, InventoryWorker.ItemsPayload(p));
    }
  }

  lemma ReleaseWrites(db: Db, e: Envelope, ch: Choice)
    ensures BodyWrites(db, InventoryWorker.Release(db, e, ch).db, e, ch)
  {
    hide Put, Entries, Emit, BodyWrites, InventoryWorker.ItemsPayload,
         InventoryWorker.Known, InventoryWorker.HasSkus, InventoryWorker.GoodPrefix;
    var p := e.event.payload;
    PlainWrites(db, db, e, ch);
    if p.orderId.Some? && p.items.ItemList? {
      var es := Entries(p.items.lines);
      var put := db.(inventory := Put(db.inventory, es[..InventoryWorker.GoodPrefix(es)]));
      PlainWrites(db, put, e, ch);
      EmitWrites(db, put, e, ch, InventoryReleased, p.orderId.value,
                 InventoryWorker.ItemsPayload(p).(paymentId := p.paymentId));
    }
  }

  lemma PaymentWrites(db: Db, e: Envelope, ch: Choice)
    ensures BodyWrites(db, PaymentWorker.Authorize(db, e, ch).db, e, ch)
  {
    hide Emit, PaymentWorker.PayloadAmount, PaymentWorker.ForwardedItems;
    var p, amount := e.event.payload, PaymentWorker.PayloadAmount(e.event.payload);
    if p.orderId.Some? {
      var order := p.orderId.value;
      var paid := db.(payments := db.payments[ch.recordId := Payment(order, !p.shouldFail, amount)]);
      var result := NO_PAYLOAD.(orderId := Some(order), paymentId := Some(ch.recordId), amount := Some(amount));
      if p.shouldFail {
        EmitWrites(db, paid, e, ch, PaymentFailed, order, result.(items := PaymentWorker.ForwardedItems(p.items)));
      } else {
        EmitWrites(db, paid, e, ch, PaymentAuthorized, order, result);
      }
    }
  }

  lemma InvoiceWrites(db: Db, e: Envelope, ch: Choice)
    ensures BodyWrites(db, InvoiceWorker.Create(db, e, ch).db, e, ch)
  {
    hide Emit;
    var p := e.event.payload;
    if p.orderId.Some? && p.paymentId.Some? && p.amount.Some? {
      var invoice := Invoice(p.orderId.value, p.paymentId.value, p.amount.value);
      EmitWrites(db, db.(invoices := db.invoices[ch.recordId := invoice]), e, ch, InvoiceCreated, p.orderId.value,
                 NO_PAYLOAD.(orderId := p.orderId, paymentId := p.paymentId,
                             invoiceId := Some(ch.recordId), amount := p.amount));
    }
  }

  lemma NotificationWrites(db: Db, e: Envelope, ch: Choice)
    ensures BodyWrites(db, NotificationWorker.Send(db, e, ch).db, e, ch)
  {
    hide Emit;
    var p := e.event.payload;
    if p.orderId.Some? && p.invoiceId.Some? {
      var notification := Notification(p.orderId.value, p.invoiceId.value, p.amount);
      EmitWrites(db, db.(notifications := db.notifications[ch.recordId := notification]), e, ch, NotificationSent,
                 p.orderId.value, NO_PAYLOAD.(orderId := p.orderId, invoiceId := p.invoiceId,
                                              notificationId := Some(ch.recordId)));
    }
  }

  lemma ProjectionWrites(db: Db, e: Envelope, ch: Choice, status: OrderStatus)
    ensures BodyWrites(db, OrderProjectionWorker.Mark(db, e, status).db, e, ch)
  {
    hide BodyWrites;
    PlainWrites(db, OrderProjectionWorker.Mark(db, e, status).db, e, ch);
  }

  function Marked(db: Db, e: Envelope): Db {
    db.(inbox := db.inbox + {(ConsumerOf(e.event.etype), e.id)})
  }

  /** `process_once`. `ch.fault` is a raise of the body before its first mutation. */
  function Handle(db: Db, e: Envelope, ch: Choice): (outcome: Outcome)
    ensures !outcome.Skipped? ==> db.outbox.Keys <= outcome.db.outbox.Keys
  {
    if HasProcessed(db, e) then Skipped
    else if ch.fault then Raised(db)
    else
      var outcome := Body(db, e, ch);
      if outcome.Applied? then Applied(Marked(outcome.db, e)) else outcome
  }

  datatype Result = NothingDone | Done | Error

  class ConsumerInbox {
    const session: Session

    constructor (session: Session)
      ensures this.session == session
    {
      this.session := session;
    }

    /** One registered handler: run the body once per (consumer, event) and commit when it ran. */
    method ProcessOnce(e: Envelope, ch: Choice) returns (result: Result)
      modifies session
      ensures match Handle(old(session.db), e, ch)
              case Skipped => result == NothingDone && session.db == old(session.db)
                              && session.committed == old(session.committed) && session.log == old(session.log)
              case Applied(db) => result == Done && session.db == session.committed == db
                                  && session.log == old(session.log) + [db]
              case Raised(db) => result == Error && session.db == db
                                 && session.committed == old(session.committed) && session.log == old(session.log)
    {
      if HasProcessed(session.db, e) {
        return NothingDone;
      }
      if ch.fault {
        return Error;
      }
      var raised := RunBody(e, ch);
      if raised {
        return Error;
      }
      session.db := Marked(session.db, e);
      session.Commit();
      return Done;
    }

    method RunBody(e: Envelope, ch: Choice) returns (raised: bool)
      modifies session`db
      ensures raised <==> Body(old(session.db), e, ch).Raised?
      ensures session.db == Body(old(session.db), e, ch).db
    {
      match e.event.etype {
        case OrderCreated => raised := InventoryWorker.ReserveInventory(session, e, ch);
        case InventoryReserved => raised := PaymentWorker.AuthorizePayment(session, e, ch);
        case PaymentAuthorized => raised := InvoiceWorker.CreateInvoice(session, e, ch);
        case InvoiceCreated => raised := NotificationWorker.SendInvoiceNotification(session, e, ch);
        case NotificationSent => raised := OrderProjectionWorker.MarkOrder(session, e, OrderCompleted);
        case PaymentFailed => raised := InventoryWorker.ReleaseInventory(session, e, ch);
        case InventoryReleased => raised := OrderProjectionWorker.MarkOrder(session, e, OrderCancelled);
        case InventoryReservationFailed => raised := true;
      }
    }
  }
}
