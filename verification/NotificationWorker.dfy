/** Notification of a created invoice, the last link before completion. */
module NotificationWorker {
  import opened Tables
  import opened Sessions

  function Send(db: Db, e: Envelope, ch: Choice): Outcome {
    var p := e.event.payload;
    if p.orderId.None? || p.invoiceId.None? then Raised(db)
    else
      var notification := Notification(p.orderId.value, p.invoiceId.value, p.amount);
      var notified := db.(notifications := db.notifications[ch.recordId := notification]);
      Applied(Emit(notified, e, ch, NotificationSent, p.orderId.value,
                   NO_PAYLOAD.(orderId := p.orderId, invoiceId := p.invoiceId,
                               notificationId := Some(ch.recordId))))
  }

  method SendInvoiceNotification(session: Session, e: Envelope, ch: Choice) returns (raised: bool)
    modifies session`db
    ensures Send(old(session.db), e, ch) == if raised then Raised(session.db) else Applied(session.db)
  {
    var p := e.event.payload;
    if p.orderId.None? || p.invoiceId.None? {
      return true;
    }
    var notification := Notification(p.orderId.value, p.invoiceId.value, p.amount);
    session.db := session.db.(notifications := session.db.notifications[ch.recordId := notification]);
    session.db := Emit(session.db, e, ch, NotificationSent, p.orderId.value,
                       NO_PAYLOAD.(orderId := p.orderId, invoiceId := p.invoiceId,
                                   notificationId := Some(ch.recordId)));
    return false;
  }
}
