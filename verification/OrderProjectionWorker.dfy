/** The order status, written without looking at its current value. */
module OrderProjectionWorker {
  import opened Tables
  import opened Sessions

  function Mark(db: Db, e: Envelope, status: OrderStatus): Outcome {
    var p := e.event.payload;
    if p.orderId.None? || p.orderId.value !in db.orders then Raised(db)
    else Applied(db.(orders := db.orders[p.orderId.value := db.orders[p.orderId.value].(status := status)]))
  }

  method MarkOrder(session: Session, e: Envelope, status: OrderStatus) returns (raised: bool)
    modifies session`db
    ensures Mark(old(session.db), e, status) == if raised then Raised(session.db) else Applied(session.db)
  {
    var p := e.event.payload;
    if p.orderId.None? || p.orderId.value !in session.db.orders {
      return true;
    }
    var order := session.db.orders[p.orderId.value];
    session.db := session.db.(orders := session.db.orders[p.orderId.value := order.(status := status)]);
    return false;
  }
}
