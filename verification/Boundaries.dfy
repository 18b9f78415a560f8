/** Where the guarantees end: the exact conditions under which the code does not meet them. */
module Boundaries {
  import opened Tables
  import opened Lines
  import opened EventsRepository
  import opened InventoryWorker
  import opened Inbox
  import opened Dispatcher
  import opened Saga
  import opened Chain
  import opened Business
  import opened Soundness
  import opened Deliveries
  import PaymentWorker

  // ----- failed deliveries of arbitrary rows -----

  /** The lines a raising release has put back, when it was a bad quantity that stopped it. */
  function PutBack(inv: Inventory, p: Payload): seq<RawLine> {
    if p.orderId.None? || !p.items.ItemList? then []
    else
      var es := Entries(p.items.lines);
      if HasSkus(es) && Known(inv, es) && GoodPrefix(es) < |es| then es[..GoodPrefix(es)] else []
  }

  /** Their quantities do not cancel out for every SKU. */
  predicate ChangesStock(inv: Inventory, es: seq<RawLine>) {
    exists s | s in inv :: Demand(es, s) != 0
  }

  lemma PutChangesStock(inv: Inventory, es: seq<RawLine>)
    ensures Put(inv, es) != inv <==> ChangesStock(inv, es)
  {
    if ChangesStock(inv, es) {
      var s :| s in inv && Demand(es, s) != 0;
      assert Put(inv, es)[s].available != inv[s].available;
    } else {
      assert Put(inv, es) == inv;
    }
  }

  /** Whatever rows the database holds, a failed delivery leaves orders, payments, invoices, notifications, keys and
      inbox alone; and it leaves the stock alone unless it is a release stopped by a bad quantity after lines whose
      quantities do not cancel out. The dispatcher commits what such a release has put back, once per attempt. */
  lemma FailureAtomicIff(cfg: Config, db: Db, i: Id, ch: Choice)
    requires i in db.outbox && HandleRow(cfg, db, i, ch).Raised?
    ensures var after, e := Deliver(cfg, db, i, ch), db.outbox[i].event;
            && after == db.(inventory := after.inventory, outbox := after.outbox, attempts := after.attempts,
                            deadLetters := after.deadLetters)
            && (after.inventory != db.inventory <==>
                  e.etype.PaymentFailed? && e.etype in Routed(cfg) && !ch.fault
                  && ChangesStock(db.inventory, PutBack(db.inventory, e.payload)))
  {
    hide AfterFailure, Release, Put, PutBack, ChangesStock;
    var e := db.outbox[i].event;
    var left := HandleRow(cfg, db, i, ch).db;
    FailureWrites(cfg, left, i, ch);
    if e.etype.PaymentFailed? {
      ReleaseRaises(db, EnvelopeOf(db, i), ch);
    }
  }

  lemma ReleaseRaises(db: Db, e: Envelope, ch: Choice)
    ensures var outcome := Release(db, e, ch);
            outcome.Raised? ==>
              && outcome.db == db.(inventory := outcome.db.inventory)
              && (outcome.db.inventory != db.inventory <==>
                    ChangesStock(db.inventory, PutBack(db.inventory, e.event.payload)))
  {
    hide Put, Emit, ChangesStock;
    PutChangesStock(db.inventory, PutBack(db.inventory, e.event.payload));
    PutNothing(db.inventory);
  }

  lemma {:induction false} PositiveDemand(es: seq<RawLine>, s: Sku)
    requires forall e | e in es :: e.Entry? && e.sku.Some? && e.quantity.Some? && e.quantity.value > 0
    ensures Demand(es, s) >= 0
    ensures (exists e :: e in es && e.sku == Some(s)) ==> Demand(es, s) > 0
  {
    if es != [] {
      var n := |es| - 1;
      PositiveDemand(es[..n], s);
      assert es == es[..n] + [es[n]];
    }
  }

  /** With positive quantities nothing cancels out: one line put back is enough. */
  lemma PositiveLinesChangeStock(inv: Inventory, es: seq<RawLine>)
    requires HasSkus(es) && Known(inv, es)
    requires forall e | e in es :: e.quantity.Some? && e.quantity.value > 0
    ensures ChangesStock(inv, es) <==> es != []
  {
    if es != [] {
      var s := es[0].sku.value;
      assert es[0] in es;
      PositiveDemand(es, s);
    }
  }

  // ----- arbitrary payloads -----

  /** What a handler cannot do without, by event type. */
  predicate Refused(db: Db, e: Event) {
    var p := e.payload;
    match e.etype
    case OrderCreated =>
      p.orderId == None || !p.items.ItemList? || exists r | r in p.items.lines :: r.Entry? && r.sku == None
    case InventoryReserved => p.orderId == None
    case PaymentAuthorized => p.orderId == None || p.paymentId == None || p.amount == None
    case InvoiceCreated => p.orderId == None || p.invoiceId == None
    case NotificationSent => p.orderId == None || p.orderId.value !in db.orders
    case InventoryReleased => p.orderId == None || p.orderId.value !in db.orders
    case PaymentFailed =>
      p.orderId == None || !p.items.ItemList?
      || exists r | r in p.items.lines ::
           r.Entry? && (r.sku == None || r.sku.value !in db.inventory || r.quantity == None)
    case InventoryReservationFailed => true
  }

  lemma {:induction false} EntriesAre(raw: seq<RawLine>, r: RawLine)
    ensures r in Entries(raw) <==> r in raw && r.Entry?
  {
    if raw != [] {
      var n := |raw| - 1;
      EntriesAre(raw[..n], r);
      assert raw == raw[..n] + [raw[n]];
    }
  }

  /** Exactly the payloads that raise, whatever rows the database holds. */
  lemma RefusedIff(db: Db, e: Envelope, ch: Choice)
    ensures Body(db, e, ch).Raised? <==> Refused(db, e.event)
    ensures Body(db, e, ch).Raised? && !e.event.etype.PaymentFailed? ==> Body(db, e, ch) == Raised(db)
  {
    hide Reserve, Release, Entries, PaymentWorker.PayloadAmount;
    match e.event.etype {
      case OrderCreated => ReserveOutcome(db, e, ch);
      case PaymentFailed => ReleaseOutcome(db, e, ch);
      case _ =>
    }
  }

  /** Every element with a SKU names a known one and an integer quantity that fits what is available of it. */
  predicate EachFits(inv: Inventory, raw: seq<RawLine>) {
    forall r | r in raw && r.Entry? ::
      r.sku.Some? && r.sku.value in inv && r.quantity.Some? && r.quantity.value <= inv[r.sku.value].available
  }

  /** The event the call adds, for the payload's order, with the envelope as its cause, and with the elements that are
      dictionaries. */
  ghost predicate AddsEvent(a: Db, b: Db, e: Envelope, ch: Choice, t: EventType, raw: seq<RawLine>) {
    && ch.eventId in b.outbox && b.outbox == a.outbox[ch.eventId := b.outbox[ch.eventId]]
    && var event := b.outbox[ch.eventId].event;
       && event.etype == t && Some(event.order) == e.event.payload.orderId == event.payload.orderId
       && event.correlation == e.event.correlation && event.causation == Some(e.id)
       && event.payload.items.ItemList?
       && forall r :: r in event.payload.items.lines <==> r in raw && r.Entry?
  }

  /** Stock moves by what the list asks for, times `sign`. */
  ghost predicate MovesBy(a: Inventory, b: Inventory, raw: seq<RawLine>, sign: int) {
    b.Keys == a.Keys
    && forall s | s in a :: b[s] == a[s].(available := a[s].available + sign * UnitsOrdered(Countable(raw), s))
  }

  lemma TakeMoves(inv: Inventory, raw: seq<RawLine>)
    ensures MovesBy(inv, Take(inv, Entries(raw)), raw, -1) && MovesBy(inv, Put(inv, Entries(raw)), raw, 1)
    ensures MovesBy(inv, inv, raw, 0)
  {
    forall s | s in inv ensures Demand(Entries(raw), s) == UnitsOrdered(Countable(raw), s) {
      FilteringKeepsMeaning(raw, s);
      OnlyCountableDemands(raw, s);
    }
  }

  lemma EntriesAreAll(raw: seq<RawLine>)
    ensures forall r :: r in Entries(raw) <==> r in raw && r.Entry?
  {
    forall r ensures r in Entries(raw) <==> r in raw && r.Entry? {
      EntriesAre(raw, r);
    }
  }

  /** A reservation of any payload: it raises and touches nothing, or takes all that is asked for and says so, or takes
      nothing and says so; and which of the three. */
  lemma ReserveOutcome(db: Db, e: Envelope, ch: Choice)
    requires e.event.etype == OrderCreated
    ensures var outcome, p := Reserve(db, e, ch), e.event.payload;
            if Refused(db, e.event) then outcome == Raised(db)
            else
              && outcome.Applied?
              && outcome.db == db.(inventory := outcome.db.inventory, outbox := outcome.db.outbox)
              && var fits := EachFits(db.inventory, p.items.lines);
                 && MovesBy(db.inventory, outcome.db.inventory, p.items.lines, if fits then -1 else 0)
                 && AddsEvent(db, outcome.db, e, ch, if fits then InventoryReserved else InventoryReservationFailed,
                              p.items.lines)
  {
    hide Take, Entries, MovesBy, AddsEvent, Emit, Decide, EachFits;
    var p := e.event.payload;
    DecidedBy(db, e.event);
    if p.items.ItemList? && p.orderId.Some? {
      TakeMoves(db.inventory, p.items.lines);
      var taken := db.(inventory := Take(db.inventory, Entries(p.items.lines)));
      EmitAdds(db, taken, e, ch, InventoryReserved, ItemsPayload(p));
      EmitAdds(db, db, e, ch, InventoryReservationFailed, ItemsPayload(p));
    }
  }

  lemma DecidedBy(db: Db, e: Event)
    requires e.etype == OrderCreated
    ensures var p := e.payload;
            && (Decide(db.inventory, p).Malformed? <==> Refused(db, e))
            && (!Refused(db, e) ==> (Decide(db.inventory, p).Accepted? <==> EachFits(db.inventory, p.items.lines)))
  {
    hide Entries;
    if e.payload.items.ItemList? {
      EntriesAreAll(e.payload.items.lines);
    }
  }

  lemma EmitAdds(db: Db, mid: Db, e: Envelope, ch: Choice, t: EventType, payload: Payload)
    requires e.event.payload.orderId.Some? && e.event.payload.items.ItemList? && mid == db.(inventory := mid.inventory)
    requires payload.orderId == e.event.payload.orderId
    requires payload.items == ItemList(Entries(e.event.payload.items.lines))
    ensures var after := Emit(mid, e, ch, t, e.event.payload.orderId.value, payload);
            && AddsEvent(db, after, e, ch, t, e.event.payload.items.lines)
            && after == db.(inventory := mid.inventory, outbox := after.outbox)
            && after.outbox[ch.eventId].event.payload == payload
  {
    hide Entries;
    EntriesAreAll(e.event.payload.items.lines);
  }

  /** A release of any payload that returns puts back all that is asked for and carries the payment on. */
  lemma ReleaseOutcome(db: Db, e: Envelope, ch: Choice)
    requires e.event.etype == PaymentFailed
    ensures var outcome, p := Release(db, e, ch), e.event.payload;
            && (outcome.Raised? <==> Refused(db, e.event)) && !outcome.Skipped?
            && (outcome.Applied? ==>
                  && outcome.db == db.(inventory := outcome.db.inventory, outbox := outcome.db.outbox)
                  && MovesBy(db.inventory, outcome.db.inventory, p.items.lines, 1)
                  && AddsEvent(db, outcome.db, e, ch, InventoryReleased, p.items.lines)
                  && outcome.db.outbox[ch.eventId].event.payload.paymentId == p.paymentId)
  {
    hide Put, Entries, MovesBy, AddsEvent, Emit, GoodPrefix;
    var p := e.event.payload;
    if p.items.ItemList? && p.orderId.Some? {
      EntriesAreAll(p.items.lines);
      TakeMoves(db.inventory, p.items.lines);
      GoodPrefixIsAll(Entries(p.items.lines));
      var put := db.(inventory := Put(db.inventory, Entries(p.items.lines)));
      EmitAdds(db, put, e, ch, InventoryReleased, ItemsPayload(p).(paymentId := p.paymentId));
    }
  }

  lemma GoodPrefixIsAll(es: seq<RawLine>)
    ensures GoodPrefix(es) == |es| <==> forall e | e in es :: e.Entry? && e.quantity.Some?
    ensures GoodPrefix(es) == |es| ==> es[..GoodPrefix(es)] == es
  {
  }

  /** A payment of any payload with an order: one record, authorized unless the flag is set, of what the payable
      elements cost, nothing without a list; and the event that says so, forwarding the items to a compensation. */
  lemma PaymentOutcome(db: Db, e: Envelope, ch: Choice)
    requires e.event.etype == InventoryReserved && e.event.payload.orderId.Some?
    ensures var outcome, p := Body(db, e, ch), e.event.payload;
            var amount := if p.items.ItemList? then OrderTotal(Payable(p.items.lines)) else 0;
            && outcome.Applied?
            && outcome.db == db.(payments := outcome.db.payments, outbox := outcome.db.outbox)
            && outcome.db.payments == db.payments[ch.recordId := Payment(p.orderId.value, !p.shouldFail, amount)]
            && ch.eventId in outcome.db.outbox
            && outcome.db.outbox == db.outbox[ch.eventId := outcome.db.outbox[ch.eventId]]
            && var event := outcome.db.outbox[ch.eventId].event;
               && (event.etype == PaymentFailed <==> p.shouldFail)
               && (event.etype == PaymentAuthorized <==> !p.shouldFail)
               && event.payload.paymentId == Some(ch.recordId) && event.payload.amount == Some(amount)
               && event.order == p.orderId.value && event.causation == Some(e.id)
               && (p.shouldFail ==>
                     event.payload.items == if p.items == Missing then ItemList([]) else p.items)
  {
    hide AmountCents, Payable, OrderTotal;
    if e.event.payload.items.ItemList? {
      OnlyPayableCosts(e.event.payload.items.lines);
    }
  }

  // ----- handling the envelope of a dead-lettered row -----

  /** In a sound database a handler call that returns keeps it sound if and only if the row has not been given up. */
  lemma HandlingSoundIff(cfg: Config, db: Db, i: Id, forced: bool, ch: Choice)
    requires Sound(cfg, db) && MayHandle(cfg, db, i, forced, ch)
    ensures Sound(cfg, HandledDb(db, Delivered(db, i, forced), ch)) <==> !db.outbox[i].status.Failed?
  {
    if db.outbox[i].status.Failed? {
      FailedRowProcessed(cfg, db, i, forced, ch);
    } else {
      HandledKeepsSound(cfg, db, i, forced, ch);
    }
  }

  lemma FailedRowProcessed(cfg: Config, db: Db, i: Id, forced: bool, ch: Choice)
    requires Sound(cfg, db) && MayHandle(cfg, db, i, forced, ch) && db.outbox[i].status.Failed?
    ensures !Sound(cfg, HandledDb(db, Delivered(db, i, forced), ch))
  {
    hide Body;
    var after := HandledDb(db, Delivered(db, i, forced), ch);
    HandlerConfined(db, Delivered(db, i, forced), ch);
    assert Processed(ShapeOf(after), i);
  }

  /** And then the effect does happen twice: when the envelope of a dead-lettered InventoryReserved row is handled
      after all and its dead letter replayed, the replay, whose event id the inbox does not know, is handled as well
      and the order is charged a second time. */
  lemma GivenUpThenReplayedChargesTwice(cfg: Config, db: Db, d: Id, ch1: Choice, ch2: Choice, ch3: Choice)
    requires Sound(cfg, db) && Replayable(db, d) && db.deadLetters[d].event.etype.InventoryReserved?
    requires InventoryReserved in Routed(cfg) && !ch1.fault && !ch3.fault
    requires FreshIds(db, ch1) && FreshIds(db, ch2) && FreshIds(db, ch3)
    requires ch1.eventId != ch2.eventId && ch2.eventId != ch3.eventId && ch1.eventId != ch3.eventId
    requires ch1.recordId != ch3.recordId
    ensures var i := db.deadLetters[d].eventId;
            i in db.outbox && db.outbox[i].status.Failed? && MayHandle(cfg, db, i, false, ch1)
    ensures var handled := HandledDb(db, Delivered(db, db.deadLetters[d].eventId, false), ch1);
            Replayable(handled, d)
            && MayHandle(cfg, WithReplay(handled, d, ch2.now, ch2.eventId), ch2.eventId, false, ch3)
    ensures var handled := HandledDb(db, Delivered(db, db.deadLetters[d].eventId, false), ch1);
            var replayed := WithReplay(handled, d, ch2.now, ch2.eventId);
            var after := HandledDb(replayed, Delivered(replayed, ch2.eventId, false), ch3);
            && ch1.recordId in after.payments && ch3.recordId in after.payments
            && after.payments[ch1.recordId] == after.payments[ch3.recordId]
            && after.payments[ch1.recordId].order == db.deadLetters[d].event.order
  {
    hide PaymentWorker.PayloadAmount, LinkedRow, HasRep, Linear, OneLive, HandedOn, Projected, RecordsCited, OrdersOk;
    var i := db.deadLetters[d].eventId;
    assert PayloadOk(db, db.outbox[i].event);
  }

  // ----- over whole runs -----

  /** Sound after every step. */
  ghost predicate SoundThroughout(cfg: Config, db: Db, run: seq<Step>)
    requires AcceptedRun(cfg, db, run)
    decreases |run|
  {
    Sound(cfg, AcceptedAfter(cfg, db, run)) && (run != [] ==> SoundThroughout(cfg, db, run[..|run| - 1]))
  }

  /** No call for a row that has been given up. */
  predicate NeverGivenUp(cfg: Config, db: Db, run: seq<Step>)
    requires AcceptedRun(cfg, db, run)
    decreases |run|
  {
    run != [] ==>
      var front := run[..|run| - 1];
      NeverGivenUp(cfg, db, front) && !HandlesGivenUp(AcceptedAfter(cfg, db, front), run[|run| - 1])
  }

  lemma StepSoundIff(cfg: Config, db: Db, step: Step)
    requires Sound(cfg, db) && Accepts(cfg, db, step)
    ensures Sound(cfg, AcceptedNext(cfg, db, step)) <==> !HandlesGivenUp(db, step)
  {
    hide Sound, Handle, Next, Enabled;
    if step.EventHandled? {
      HandlingSoundIff(cfg, db, step.i, step.forced, step.ch);
    } else {
      StepKeepsSound(cfg, db, step);
    }
  }

  /** Of all the runs the code accepts, exactly those keep the invariant throughout that never handle a row that was
      given up; they are the runs of the state machine. */
  lemma {:induction false} SoundThroughoutIff(cfg: Config, db: Db, run: seq<Step>)
    requires Sound(cfg, db) && AcceptedRun(cfg, db, run)
    ensures SoundThroughout(cfg, db, run) <==> NeverGivenUp(cfg, db, run)
    ensures NeverGivenUp(cfg, db, run) ==> Valid(cfg, db, run) && After(cfg, db, run) == AcceptedAfter(cfg, db, run)
    decreases |run|
  {
    hide Sound, Handle, Body, Accepts, AcceptedNext, HandlesGivenUp, Next, Enabled;
    if run != [] {
      var front, step := run[..|run| - 1], run[|run| - 1];
      SoundThroughoutIff(cfg, db, front);
      if SoundThroughout(cfg, db, front) {
        StepSoundIff(cfg, AcceptedAfter(cfg, db, front), step);
      }
      if !HandlesGivenUp(AcceptedAfter(cfg, db, front), step) {
        SameStep(cfg, AcceptedAfter(cfg, db, front), step);
      }
    }
  }
}
