/** Payment: the branch point of the saga. */
module PaymentWorker {
  import opened Tables
  import opened Lines
  import opened Sessions

  function PayloadAmount(p: Payload): int {
    if p.items.ItemList? then AmountCents(p.items.lines) else 0
  }

  function Authorize(db: Db, e: Envelope, ch: Choice): Outcome {
    var p := e.event.payload;
    if p.orderId.None? then Raised(db)
    else
      var order, amount := p.orderId.value, PayloadAmount(p);
      var paid := db.(payments := db.payments[ch.recordId := Payment(order, !p.shouldFail, amount)]);
      var result := NO_PAYLOAD.(orderId := Some(order), paymentId := Some(ch.recordId), amount := Some(amount));
      if p.shouldFail then
        Applied(Emit(paid, e, ch, PaymentFailed, order, result.(items := ForwardedItems(p.items))))
      else
        Applied(Emit(paid, e, ch, PaymentAuthorized, order, result))
  }

  /** The "items" entry handed to the compensation, an empty list when there is none. */
  function ForwardedItems(items: Items): Items {
    if items.Missing? then ItemList([]) else items
  }

  method SumAmount(p: Payload) returns (total: int)
    ensures total == PayloadAmount(p)
  {
    total := 0;
    if !p.items.ItemList? {
      return;
    }
    var items := p.items.lines;
    for i := 0 to |items|
      invariant total == AmountCents(items[..i])
    {
      assert items[..i + 1][..i] == items[..i];
      if items[i].Entry? && items[i].quantity.Some? && items[i].unitPrice.Some? {
        total := total + items[i].quantity.value * items[i].unitPrice.value;
      }
    }
    assert items[..|items|] == items;
  }

  method AuthorizePayment(session: Session, e: Envelope, ch: Choice) returns (raised: bool)
    modifies session`db
    ensures Authorize(old(session.db), e, ch) == if raised then Raised(session.db) else Applied(session.db)
  {
    var p := e.event.payload;
    if p.orderId.None? {
      return true;
    }
    var order := p.orderId.value;
    var amount := SumAmount(p);
    var result := NO_PAYLOAD.(orderId := Some(order), paymentId := Some(ch.recordId), amount := Some(amount));
    if p.shouldFail {
      session.db := session.db.(payments := session.db.payments[ch.recordId := Payment(order, false, amount)]);
      session.db := Emit(session.db, e, ch, PaymentFailed, order, result.(items := ForwardedItems(p.items)));
      return false;
    }
    session.db := session.db.(payments := session.db.payments[ch.recordId := Payment(order, true, amount)]);
    session.db := Emit(session.db, e, ch, PaymentAuthorized, order, result);
    return false;
  }
}
