/** Invoicing of an authorized payment. */
module InvoiceWorker {
  import opened Tables
  import opened Sessions

  function Create(db: Db, e: Envelope, ch: Choice): Outcome {
    var p := e.event.payload;
    if p.orderId.None? || p.paymentId.None? || p.amount.None? then Raised(db)
    else
      var invoice := Invoice(p.orderId.value, p.paymentId.value, p.amount.value);
      var invoiced := db.(invoices := db.invoices[ch.recordId := invoice]);
      Applied(Emit(invoiced, e, ch, InvoiceCreated, p.orderId.value,
                   NO_PAYLOAD.(orderId := p.orderId, paymentId := p.paymentId,
                               invoiceId := Some(ch.recordId), amount := p.amount)))
  }

  method CreateInvoice(session: Session, e: Envelope, ch: Choice) returns (raised: bool)
    modifies session`db
    ensures Create(old(session.db), e, ch) == if raised then Raised(session.db) else Applied(session.db)
  {
    var p := e.event.payload;
    if p.orderId.None? || p.paymentId.None? || p.amount.None? {
      return true;
    }
    var invoice := Invoice(p.orderId.value, p.paymentId.value, p.amount.value);
    session.db := session.db.(invoices := session.db.invoices[ch.recordId := invoice]);
    session.db := Emit(session.db, e, ch, InvoiceCreated, p.orderId.value,
                       NO_PAYLOAD.(orderId := p.orderId, paymentId := p.paymentId,
                                   invoiceId := Some(ch.recordId), amount := p.amount));
    return false;
  }
}
