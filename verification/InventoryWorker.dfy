/** Reservation of an order's items and its compensation. */
module InventoryWorker {
  import opened Tables
  import opened Lines
  import opened Sessions

  datatype Verdict = Malformed | Rejected | Accepted

  predicate HasSkus(es: seq<RawLine>) {
    forall e | e in es :: e.Entry? && e.sku.Some?
  }

  predicate Known(inv: Inventory, es: seq<RawLine>)
    requires HasSkus(es)
  {
    forall e | e in es :: e.sku.value in inv
  }

  /** The per-line check: each line alone fits what is available. */
  predicate Fits(inv: Inventory, es: seq<RawLine>)
    requires HasSkus(es) && Known(inv, es)
  {
    forall e | e in es :: e.quantity.Some? && e.quantity.value <= inv[e.sku.value].available
  }

  /** Malformed payloads raise out of the handler; everything else ends in an event. */
  function Decide(inv: Inventory, p: Payload): Verdict {
    if p.orderId.None? || !p.items.ItemList? || !HasSkus(Entries(p.items.lines)) then Malformed
    else if Known(inv, Entries(p.items.lines)) && Fits(inv, Entries(p.items.lines)) then Accepted
    else Rejected
  }

  function Reserve(db: Db, e: Envelope, ch: Choice): Outcome {
    var p := e.event.payload;
    match Decide(db.inventory, p)
    case Malformed => Raised(db)
    case Rejected =>
      Applied(Emit(db, e, ch, InventoryReservationFailed, p.orderId.value, ItemsPayload(p)))
    case Accepted =>
      var taken := db.(inventory := Take(db.inventory, Entries(p.items.lines)));
      Applied(Emit(taken, e, ch, InventoryReserved, p.orderId.value, ItemsPayload(p)))
  }

  function ItemsPayload(p: Payload): Payload
    requires p.items.ItemList?
  {
    NO_PAYLOAD.(orderId := p.orderId, items := ItemList(Entries(p.items.lines)))
  }

  /** How many leading entries have an integer quantity. */
  function GoodPrefix(es: seq<RawLine>): (g: nat)
    ensures g <= |es|
    ensures forall i | 0 <= i < g :: es[i].Entry? && es[i].quantity.Some?
    ensures g < |es| ==> !(es[g].Entry? && es[g].quantity.Some?)
  {
    if es != [] && es[0].Entry? && es[0].quantity.Some? then 1 + GoodPrefix(es[1..]) else 0
  }

  /** Quantities are checked inside the releasing loop, so a bad one raises after the lines before it
      have already been put back into the working copy. */
  function Release(db: Db, e: Envelope, ch: Choice): Outcome {
    var p := e.event.payload;
    if p.orderId.None? || !p.items.ItemList? then Raised(db)
    else
      var es := Entries(p.items.lines);
      if !HasSkus(es) || !Known(db.inventory, es) then Raised(db)
      else
        var g := GoodPrefix(es);
        var put := db.(inventory := Put(db.inventory, es[..g]));
        if g < |es| then Raised(put)
        else Applied(Emit(put, e, ch, InventoryReleased, p.orderId.value,
                          ItemsPayload(p).(paymentId := p.paymentId)))
  }

  method EnsureInventoryAvailable(inv: Inventory, requested: seq<RawLine>) returns (ok: bool)
    requires HasSkus(requested) && Known(inv, requested)
    ensures ok <==> Fits(inv, requested)
  {
    for i := 0 to |requested|
      invariant forall e | e in requested[..i] :: e.quantity.Some? && e.quantity.value <= inv[e.sku.value].available
    {
      var quantity := requested[i].quantity;
      if quantity.None? || inv[requested[i].sku.value].available < quantity.value {
        assert requested[i] in requested;
        return false;
      }
      assert requested[..i + 1] == requested[..i] + [requested[i]];
    }
    assert requested[..|requested|] == requested;
    return true;
  }

  method ReserveInventory(session: Session, e: Envelope, ch: Choice) returns (raised: bool)
    modifies session`db
    ensures Reserve(old(session.db), e, ch) == if raised then Raised(session.db) else Applied(session.db)
  {
    var p := e.event.payload;
    if p.orderId.None? || !p.items.ItemList? {
      return true;
    }
    var requested := Entries(p.items.lines);
    if !HasSkus(requested) {
      return true;
    }
    var ok := Known(session.db.inventory, requested);
    if ok {
      ok := EnsureInventoryAvailable(session.db.inventory, requested);
    }
    if !ok {
      session.db := Emit(session.db, e, ch, InventoryReservationFailed, p.orderId.value, ItemsPayload(p));
      return false;
    }

    ghost var before := session.db;
    assert Take(before.inventory, []) == before.inventory;
    hide Demand;
    for i := 0 to |requested|
      invariant session.db == before.(inventory := Take(before.inventory, requested[..i]))
    {
      var sku, quantity := requested[i].sku.value, requested[i].quantity.value;
      var item := session.db.inventory[sku];
      item := item.(available := item.available - quantity);
      session.db := session.db.(inventory := session.db.inventory[sku := item]);
      TakeOneMore(before.inventory, requested, i);
    }
    assert requested[..|requested|] == requested;
    session.db := Emit(session.db, e, ch, InventoryReserved, p.orderId.value, ItemsPayload(p));
    return false;
  }

  method ReleaseInventory(session: Session, e: Envelope, ch: Choice) returns (raised: bool)
    modifies session`db
    ensures Release(old(session.db), e, ch) == if raised then Raised(session.db) else Applied(session.db)
  {
    hide Put, Demand, Entries, Emit, ItemsPayload;
    var p := e.event.payload;
    if p.orderId.None? || !p.items.ItemList? {
      return true;
    }
    var released := Entries(p.items.lines);
    if !HasSkus(released) || !Known(session.db.inventory, released) {
      return true;
    }

    ghost var before := session.db;
    PutNothing(before.inventory);
    for i := 0 to |released|
      invariant i <= GoodPrefix(released)
      invariant session.db == before.(inventory := Put(before.inventory, released[..i]))
    {
      if released[i].quantity.None? {
        return true;
      }
      var sku, quantity := released[i].sku.value, released[i].quantity.value;
      PutOneMore(before.inventory, released, i);
      var item := session.db.inventory[sku];
      item := item.(available := item.available + quantity);
      session.db := session.db.(inventory := session.db.inventory[sku := item]);
    }
    assert released[..|released|] == released;
    session.db := Emit(session.db, e, ch, InventoryReleased, p.orderId.value,
                       ItemsPayload(p).(paymentId := p.paymentId));
    return false;
  }

  lemma TakeOneMore(inv: Inventory, es: seq<RawLine>, i: nat)
    requires i < |es| && es[i].Entry? && es[i].sku.Some? && es[i].sku.value in inv && es[i].quantity.Some?
    ensures var sku, part := es[i].sku.value, Take(inv, es[..i]);
            Take(inv, es[..i + 1]) == part[sku := part[sku].(available := part[sku].available - es[i].quantity.value)]
  {
    assert es[..i + 1][..i] == es[..i];
  }

  lemma PutNothing(inv: Inventory)
    ensures Put(inv, []) == inv
  {
  }

  lemma PutOneMore(inv: Inventory, es: seq<RawLine>, i: nat)
    requires i < |es| && es[i].Entry? && es[i].sku.Some? && es[i].sku.value in inv && es[i].quantity.Some?
    ensures var sku, part := es[i].sku.value, Put(inv, es[..i]);
            && sku in part
            && Put(inv, es[..i + 1])
               == part[sku := part[sku].(available := part[sku].available + es[i].quantity.value)]
  {
    assert es[..i + 1][..i] == es[..i];
  }
}
