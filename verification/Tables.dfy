/** The database of the order saga: one map per table, keyed by primary key.
    Identifiers are UUID strings in the program; here they are natural numbers, which keeps
    exactly what the program uses of them: equality and a total order. Times are integers. */
module Tables {
  datatype Option<+T> = None | Some(value: T)

  type Id = nat
  type Sku = string

  datatype EventType =
    | OrderCreated
    | InventoryReserved
    | InventoryReservationFailed
    | PaymentAuthorized
    | PaymentFailed
    | InvoiceCreated
    | NotificationSent
    | InventoryReleased

  datatype Consumer =
    | InventoryWorker
    | PaymentWorker
    | InvoiceWorker
    | NotificationWorker
    | OrderProjectionWorker
    | InventoryCompensationWorker
    | BrokerlessDispatcher

  /** One element of a payload's "items" list. A field is None when it is absent or, for the
      numbers, when it is not an integer. */
  datatype RawLine = NotADict | Entry(sku: Option<Sku>, quantity: Option<int>, unitPrice: Option<int>)

  datatype Items = Missing | NotAList | ItemList(lines: seq<RawLine>)

  datatype Payload = Payload(
    orderId: Option<Id>,
    items: Items,
    paymentId: Option<Id>,
    invoiceId: Option<Id>,
    notificationId: Option<Id>,
    amount: Option<int>,
    shouldFail: bool)

  /** What a replay copies: everything of an outbox row except its identity and its progress. */
  datatype Event = Event(etype: EventType, order: Id, correlation: Id, causation: Option<Id>, payload: Payload)

  datatype Envelope = Envelope(id: Id, event: Event)

  datatype RowStatus = Pending | Published | Failed

  datatype Row = Row(
    event: Event,
    occurredAt: int,
    status: RowStatus,
    nextAttemptAt: Option<int>,
    failureCount: nat)

  datatype Attempt = Attempt(eventId: Id, consumer: Consumer, number: int, at: int)

  datatype DeadLetter = DeadLetter(
    eventId: Id,
    event: Event,
    consumer: Consumer,
    attemptNumber: int,
    failedAt: int,
    replayedAt: Option<int>)

  datatype StockItem = StockItem(available: int, unitPrice: int)

  type Inventory = map<Sku, StockItem>

  datatype OrderStatus = OrderPending | OrderCompleted | OrderCancelled

  datatype Line = Line(sku: Sku, quantity: int, unitPrice: int)

  datatype Order = Order(status: OrderStatus, lines: seq<Line>)

  datatype Payment = Payment(order: Id, authorized: bool, amount: int)

  datatype Invoice = Invoice(order: Id, payment: Id, amount: int)

  datatype Notification = Notification(order: Id, invoice: Id, amount: Option<int>)

  /** The order as the API returns it. */
  datatype OrderRead = OrderRead(id: Id, order: Order)

  datatype KeyRow = KeyRow(hash: int, expiresAt: int, response: Option<OrderRead>)

  datatype Db = Db(
    inventory: Inventory,
    orders: map<Id, Order>,
    outbox: map<Id, Row>,
    inbox: set<(Consumer, Id)>,
    attempts: seq<Attempt>,
    deadLetters: map<Id, DeadLetter>,
    payments: map<Id, Payment>,
    invoices: map<Id, Invoice>,
    notifications: map<Id, Notification>,
    keys: map<string, KeyRow>)

  /** What the environment contributes to one delivery: the clock reading, the fresh keys of the
      rows it may add, and whether the handler body raises before its first mutation. */
  datatype Choice = Choice(now: int, eventId: Id, recordId: Id, fault: bool)

  /** How a handler call ends. A raise leaves the working copy as the handler left it. */
  datatype Outcome = Skipped | Applied(db: Db) | Raised(db: Db)

  const NO_PAYLOAD := Payload(None, Missing, None, None, None, None, false)

  function ConsumerOf(t: EventType): Consumer {
    match t
    case OrderCreated => InventoryWorker
    case InventoryReserved => PaymentWorker
    case PaymentAuthorized => InvoiceWorker
    case InvoiceCreated => NotificationWorker
    case NotificationSent => OrderProjectionWorker
    case PaymentFailed => InventoryCompensationWorker
    case InventoryReleased => OrderProjectionWorker
    case InventoryReservationFailed => BrokerlessDispatcher
  }

  /** Adds an outbox row caused by the envelope `e`. */
  function Emit(db: Db, e: Envelope, ch: Choice, t: EventType, order: Id, payload: Payload): Db {
    var event := Event(t, order, e.event.correlation, Some(e.id), payload);
    db.(outbox := db.outbox[ch.eventId := Row(event, ch.now, Pending, None, 0)])
  }
}
