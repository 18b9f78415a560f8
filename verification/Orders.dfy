/** Order creation: the service that writes order and event together, and the endpoint around it. */
module Orders {
  import opened Tables
  import opened Lines
  import opened Sessions
  import opened Idempotency

  datatype Item = Item(sku: Sku, quantity: int)

  datatype KeyUse = KeyUse(key: string, hash: int)

  /** What the request schema lets through. */
  predicate ValidRequest(items: seq<Item>) {
    items != [] && forall item | item in items :: item.quantity > 0
  }

  predicate AllStocked(inv: Inventory, items: seq<Item>) {
    forall item | item in items :: item.sku in inv
  }

  /** The order's lines, priced from the inventory at creation time. */
  function Priced(inv: Inventory, items: seq<Item>): (lines: seq<Line>)
    requires AllStocked(inv, items)
    ensures |lines| == |items|
  {
    seq(|items|, i requires 0 <= i < |items| =>
      Line(items[i].sku, items[i].quantity, inv[items[i].sku].unitPrice))
  }

  function CreatedEvent(order: Id, lines: seq<Line>, correlation: Id): Event {
    Event(OrderCreated, order, correlation, None,
          NO_PAYLOAD.(orderId := Some(order), items := ItemList(Raw(lines))))
  }

  function Created(db: Db, order: Id, items: seq<Item>, correlation: Id, ch: Choice): Db
    requires AllStocked(db.inventory, items)
  {
    var lines := Priced(db.inventory, items);
    db.(orders := db.orders[order := Order(OrderPending, lines)],
        outbox := db.outbox[ch.eventId := Row(CreatedEvent(order, lines, correlation), ch.now, Pending, None, 0)])
  }

  method CreateOrder(session: Session, order: Id, items: seq<Item>, correlation: Id, ch: Choice)
    returns (found: bool)
    modifies session
    ensures found <==> AllStocked(old(session.db).inventory, items)
    ensures found ==> session.db == session.committed == Created(old(session.db), order, items, correlation, ch)
                      && session.log == old(session.log) + [session.db]
    ensures !found ==> session.db == old(session.db) && session.committed == old(session.committed)
                       && session.log == old(session.log)
  {
    var orderItems, eventItems := [], [];
    var inv := session.db.inventory;
    for i := 0 to |items|
      invariant AllStocked(inv, items[..i])
      invariant orderItems == Priced(inv, items[..i])
      invariant eventItems == Raw(orderItems)
    {
      var item := items[i];
      if item.sku !in inv {
        assert item in items;
        return false;
      }
      assert items[..i + 1] == items[..i] + [item];
      orderItems := orderItems + [Line(item.sku, item.quantity, inv[item.sku].unitPrice)];
      eventItems := eventItems + [Entry(Some(item.sku), Some(item.quantity), Some(inv[item.sku].unitPrice))];
    }
    assert items[..|items|] == items;
    session.db := session.db.(orders := session.db.orders[order := Order(OrderPending, orderItems)]);
    var event := Event(OrderCreated, order, correlation, None,
                       NO_PAYLOAD.(orderId := Some(order), items := ItemList(eventItems)));
    session.db := session.db.(outbox := session.db.outbox[ch.eventId := Row(event, ch.now, Pending, None, 0)]);
    session.Commit();
    return true;
  }

  datatype Response =
    | OrderMade(body: OrderRead)       // 201
    | StoredResponse(body: OrderRead)  // the stored status code and body
    | KeyConflict                      // 409, another request body or still in progress
    | SkuNotFound                      // 404

  function OrderBody(db: Db, order: Id): OrderRead
    requires order in db.orders
  {
    OrderRead(order, db.orders[order])
  }

  /** The copies the endpoint commits: reservation and order together, then the stored response. */
  function EndpointCommits(db: Db, use: Option<KeyUse>, order: Id, items: seq<Item>, correlation: Id, ch: Choice)
    : seq<Db>
  {
    if use.Some? && !StartOutcome(db, use.value.key, use.value.hash, ch.now).Reserved? then []
    else if !AllStocked(db.inventory, items) then []
    else if use.None? then [Created(db, order, items, correlation, ch)]
    else
      var first := Created(WithKey(db, use.value.key, use.value.hash, ch.now), order, items, correlation, ch);
      [first, WithResponse(first, use.value.key, OrderBody(first, order))]
  }

  method CreateOrderEndpoint(session: Session, use: Option<KeyUse>, order: Id,
                             items: seq<Item>, correlation: Id, ch: Choice)
    returns (response: Response)
    requires session.db == session.committed
    modifies session
    ensures var commits := EndpointCommits(old(session.db), use, order, items, correlation, ch);
            && session.log == old(session.log) + commits
            && session.committed == (if commits == [] then old(session.committed) else commits[|commits| - 1])
            && (response.OrderMade? <==> commits != [])
            && (response.OrderMade? ==> response.body == OrderBody(commits[0], order))
    ensures use.Some? ==>
              var start := StartOutcome(old(session.db), use.value.key, use.value.hash, ch.now);
              && (response.KeyConflict? <==> start.Conflict? || start.InProgress?)
              && (start.Stored? <==> response.StoredResponse?)
              && (start.Stored? ==> response.body == start.response)
    ensures use.None? ==> response.OrderMade? || response.SkuNotFound?
  {
    var service := new IdempotencyService(session);
    if use.Some? {
      var start := service.StartRequest(use.value.key, use.value.hash, ch.now);
      if start.Conflict? || start.InProgress? {
        return KeyConflict;
      }
      if start.Stored? {
        return StoredResponse(start.response);
      }
    }
    var found := CreateOrder(session, order, items, correlation, ch);
    if !found {
      return SkuNotFound;
    }
    var body := OrderBody(session.db, order);
    if use.Some? {
      var stored := service.StoreResponse(use.value.key, body);
      session.Commit();
    }
    return OrderMade(body);
  }
}
