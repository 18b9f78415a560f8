/** One greedy allocator behind many interleaved stages: the deliveries of a dispatcher run hand out and take back
    stock in the order of one queue, whatever else they interleave with. */
module Allocator {
  import opened Tables
  import opened Lines
  import opened EventsRepository
  import opened Inbox
  import opened Dispatcher
  import opened Saga
  import opened Chain
  import opened Business
  import opened Soundness
  import opened Guarantees
  import opened Conservation
  import opened RetryLedger
  import opened Deliveries
  import opened Termination

  // ----- the reference: check all lines, then subtract all lines, order by order -----

  /** What an event does to stock when its turn comes. */
  datatype Move = Reservation(lines: seq<Line>) | Compensation(lines: seq<Line>)

  function GreedyStep(inv: Inventory, move: Move): Inventory {
    if move.Compensation? then Put(inv, Raw(move.lines))
    else if FitsLines(inv, move.lines) then Take(inv, Raw(move.lines))
    else inv
  }

  function GreedyStock(inv: Inventory, moves: seq<Move>): Inventory {
    if moves == [] then inv else GreedyStep(GreedyStock(inv, moves[..|moves| - 1]), moves[|moves| - 1])
  }

  predicate GreedyAccepts(inv: Inventory, moves: seq<Move>, k: nat)
    requires k < |moves|
  {
    moves[k].Reservation? && FitsLines(GreedyStock(inv, moves[..k]), moves[k].lines)
  }

  // ----- the queue of events waiting to move stock -----

  /** A rejection has no handler and is retried on its own; it moves nothing. */
  predicate Rejection(row: Row) {
    row.event.etype.InventoryReservationFailed?
  }

  predicate MovesStock(event: Event) {
    event.etype.OrderCreated? || event.etype.PaymentFailed?
  }

  /** An order, or a failed payment, nothing has handled yet. */
  ghost predicate Queued(db: Db, i: Id) {
    && i in db.outbox && MovesStock(db.outbox[i].event) && db.outbox[i].status.Pending?
    && !Processed(ShapeOf(db), i)
  }

  ghost function QueuedIds(db: Db): (ids: set<Id>)
    ensures ids <= db.outbox.Keys
  {
    set i | i in db.outbox && Queued(db, i)
  }

  /** The waiting rows by occurred_at, then event_id. */
  ghost function Queue(db: Db): seq<Id> {
    InOrder(db.outbox, QueuedIds(db))
  }

  /** Where a dispatch may start: no waiting row is backing off. What was published, given up, replayed, cancelled or
      left half done by a crash before does not matter, nor do back-offs of rows that move no stock. */
  ghost predicate Settled(db: Db, now: int) {
    forall i | i in db.outbox && Queued(db, i) :: Ready(db.outbox[i], now)
  }

  function LinesOf(db: Db, i: Id): seq<Line> {
    if i in db.outbox && db.outbox[i].event.order in db.orders then db.orders[db.outbox[i].event.order].lines else []
  }

  function MoveOf(db: Db, i: Id): Move {
    if i in db.outbox && db.outbox[i].event.etype.PaymentFailed? then Compensation(LinesOf(db, i))
    else Reservation(LinesOf(db, i))
  }

  function MovesOf(db: Db, q: seq<Id>): (moves: seq<Move>)
    ensures |moves| == |q|
  {
    seq(|q|, n requires 0 <= n < |q| => MoveOf(db, q[n]))
  }

  /** The first k rows of the queue have been dispatched, the others are as they were. */
  ghost predicate QueueAt(start: Db, db: Db, q: seq<Id>, k: nat) {
    && k <= |q|
    && (forall n | 0 <= n < |q| ::
          && Queued(start, q[n]) && q[n] in db.outbox
          && MoveOf(db, q[n]) == MoveOf(start, q[n])
          && db.outbox[q[n]].event == start.outbox[q[n]].event
          && db.outbox[q[n]].occurredAt == start.outbox[q[n]].occurredAt)
    && (forall n | 0 <= n < k :: db.outbox[q[n]].status.Published?)
    && (forall n | k <= n < |q| :: db.outbox[q[n]] == start.outbox[q[n]] && !Processed(ShapeOf(db), q[n]))
  }

  /** Rows a run has found unhandled, or has added itself. */
  ghost predicate Handed(start: Db, i: Id) {
    i in start.outbox ==> start.outbox[i].status.Pending? && !Processed(ShapeOf(start), i)
  }

  /** What a calm run adds: nothing that moves stock, following from a row it was handed, ready at once and never
      given up, unless it is a rejection. */
  ghost predicate CalmNew(start: Db, row: Row) {
    && !MovesStock(row.event)
    && row.event.causation.Some? && Handed(start, row.event.causation.value)
    && (Rejection(row) || row.status.Published? || (row.status.Pending? && row.nextAttemptAt.None?))
  }

  /** What it makes of a row it found: rejections are retried, others stay or are published, the rest is history. */
  predicate CalmOld(was: Row, row: Row) {
    row == was || (was.status.Pending? && (row.status.Published? || Rejection(row)))
  }

  ghost predicate Calm(start: Db, db: Db, q: seq<Id>) {
    && (forall i :: Queued(db, i) ==> i in q)
    && (forall i | i in db.outbox ::
          if i in start.outbox then CalmOld(start.outbox[i], db.outbox[i]) else CalmNew(start, db.outbox[i]))
  }

  /** The verdicts on orders waiting at the n-th place, as far as the outbox shows them. */
  ghost predicate VerdictShown(start: Db, db: Db, q: seq<Id>, n: nat)
    requires n < |q|
  {
    var moves := MovesOf(start, q);
    q[n] in start.outbox
    && (moves[n].Reservation? ==>
          && (Emitted(db, start.outbox[q[n]].event.order, InventoryReserved) <==>
              GreedyAccepts(start.inventory, moves, n))
          && (Emitted(db, start.outbox[q[n]].event.order, InventoryReservationFailed) <==>
              !GreedyAccepts(start.inventory, moves, n)))
  }

  /** The stock is the greedy stock after the first k moves, and reservations exist for exactly those accepted. */
  ghost predicate AllocatedTo(start: Db, db: Db, q: seq<Id>, k: nat)
    requires k <= |q|
  {
    && db.inventory == GreedyStock(start.inventory, MovesOf(start, q)[..k])
    && forall n | 0 <= n < k :: VerdictShown(start, db, q, n)
  }

  ghost predicate Along(cfg: Config, start: Db, db: Db, q: seq<Id>, k: nat, now: int) {
    && Sound(cfg, start) && Settled(start, now) && Sound(cfg, db) && Ledger(cfg, db) && Keeps(start, db)
    && QueueAt(start, db, q, k) && Calm(start, db, q) && AllocatedTo(start, db, q, k)
    && (forall n, m | 0 <= n < m < |q| :: q[n] != q[m])
  }

  /** What an undisturbed dispatcher run is given: the default handlers and no raising bodies. */
  predicate Undisturbed(cfg: Config, ch: Choice) {
    (cfg.handlers == {} || cfg.handlers == DEFAULT_HANDLERS) && !ch.fault
  }

  ghost predicate Deliverable(cfg: Config, db: Db, i: Id, ch: Choice) {
    Undisturbed(cfg, ch) && i in db.outbox && Ready(db.outbox[i], ch.now) && FreshIds(db, ch)
  }

  // ----- what a delivery does in a calm run -----

  /** In a calm run only rejections fail. */
  lemma OnlyRejectionsFail(cfg: Config, db: Db, i: Id, ch: Choice)
    requires Sound(cfg, db) && Deliverable(cfg, db, i, ch)
    ensures HandleRow(cfg, db, i, ch).Raised? <==> db.outbox[i].event.etype.InventoryReservationFailed?
  {
    hide Handle;
    var e := db.outbox[i].event;
    assert PayloadOk(db, e);
    if HandleRow(cfg, db, i, ch).Raised? {
      RaiseIsClean(cfg, db, i, ch);
    }
  }

  lemma DeliveryKeeps(cfg: Config, db: Db, i: Id, ch: Choice)
    requires Sound(cfg, db) && i in db.outbox && Ready(db.outbox[i], ch.now) && FreshIds(db, ch)
    ensures Keeps(db, Deliver(cfg, db, i, ch))
  {
    hide Handle, AfterFailure, Sound;
    match HandleRow(cfg, db, i, ch) {
      case Raised(_) =>
        FailureKeeps(cfg, db, i, ch);
      case Skipped =>
      case Applied(handled) =>
        AfterHandler(cfg, db, i, ch);
        HandledKeeps(cfg, db, i, false, ch);
    }
  }

  /** The queue stays where it is, or its head leaves it. */
  lemma QueueMoves(start: Db, a: Db, b: Db, q: seq<Id>, k: nat, k': nat, i: Id)
    requires QueueAt(start, a, q, k) && Keeps(a, b) && i in a.outbox
    requires forall n, m | 0 <= n < m < |q| :: q[n] != q[m]
    requires forall o | o in b.orders && o !in a.orders :: forall n | 0 <= n < |q| :: a.outbox[q[n]].event.order != o
    requires forall j | j in a.outbox && j != i :: b.outbox[j] == a.outbox[j]
    requires forall j | j in a.outbox && j != i :: Processed(ShapeOf(b), j) <==> Processed(ShapeOf(a), j)
    requires b.outbox[i].occurredAt == a.outbox[i].occurredAt
    requires if k' == k then i !in q else k < |q| && k' == k + 1 && i == q[k] && b.outbox[i].status.Published?
    ensures QueueAt(start, b, q, k')
  {
  }

  /** An order not in the queue's way: same stock, same reservations. */
  lemma AllocationKept(start: Db, a: Db, b: Db, q: seq<Id>, k: nat)
    requires k <= |q| && AllocatedTo(start, a, q, k) && b.inventory == a.inventory
    requires forall o: Id, t: EventType | t.InventoryReserved? || t.InventoryReservationFailed? ::
               Emitted(b, o, t) <==> Emitted(a, o, t)
    ensures AllocatedTo(start, b, q, k)
  {
    hide Emitted;
    forall n | 0 <= n < k ensures VerdictShown(start, b, q, n) {
      assert VerdictShown(start, a, q, n);
    }
  }

  /** A row as a handler adds it in a calm run. */
  predicate CalmNext(row: Row, i: Id) {
    !MovesStock(row.event) && row.status.Pending? && row.nextAttemptAt.None? && row.event.causation == Some(i)
  }

  lemma CalmKept(start: Db, a: Db, b: Db, q: seq<Id>, i: Id, n: Id)
    requires Calm(start, a, q) && Keeps(start, a)
    requires i in a.outbox && i in b.outbox && a.outbox[i].status.Pending? && n !in a.outbox
    requires forall j | j in b.outbox && j != i && j != n :: j in a.outbox && b.outbox[j] == a.outbox[j]
    requires forall j | j in a.outbox && j != i :: Processed(ShapeOf(b), j) <==> Processed(ShapeOf(a), j)
    requires b.outbox[i].event == a.outbox[i].event
    requires b.outbox[i].status.Published? || Rejection(b.outbox[i])
    requires n in b.outbox ==> CalmNext(b.outbox[n], i) && !Processed(ShapeOf(a), i)
    ensures Calm(start, b, q)
  {
    hide Grown;
    forall j | Queued(b, j) ensures j in q {
      assert Queued(a, j);
    }
  }

  /** Everything about a delivery that does not concern the queue's head. */
  lemma SideDelivery(cfg: Config, start: Db, db: Db, q: seq<Id>, k: nat, now: int, i: Id, ch: Choice)
    requires Along(cfg, start, db, q, k, now) && Deliverable(cfg, db, i, ch) && !Queued(db, i)
    requires HandleRow(cfg, db, i, ch).Applied? && !Ends(db.outbox[i].event.etype)
    ensures var after := Deliver(cfg, db, i, ch);
            QueueAt(start, after, q, k) && Calm(start, after, q) && AllocatedTo(start, after, q, k)
  {
    hide Handle, LinkAdded, Runnable, Sound, Ledger, AllocatedTo, QueueAt, Calm, Emitted;
    var after, mid := Deliver(cfg, db, i, ch), HandledDb(db, Delivered(db, i, false), ch);
    AfterHandler(cfg, db, i, ch);
    HandledCases(cfg, db, i, false, ch);
    DeliveryKeeps(cfg, db, i, ch);
    SuccessShape(cfg, db, i, ch);
    SideLink(cfg, db, i, ch);
    NotInQueue(start, db, q, k, i);
    QueueMoves(start, db, after, q, k, k, i);
    CalmKept(start, db, after, q, i, ch.eventId);
    forall o: Id, t: EventType | t.InventoryReserved? || t.InventoryReservationFailed?
      ensures Emitted(after, o, t) <==> Emitted(db, o, t)
    {
      LinkEmits(cfg, db, mid, i, ch, o, t);
      PublishEmitsNothing(mid, i, o, t);
    }
    AllocationKept(start, db, after, q, k);
  }

  lemma PublishEmitsNothing(db: Db, i: Id, o: Id, t: EventType)
    requires i in db.outbox
    ensures Emitted(WithPublished(db, i), o, t) <==> Emitted(db, o, t)
  {
    EmittedSame(db, WithPublished(db, i), o, t);
  }

  lemma NotInQueue(start: Db, db: Db, q: seq<Id>, k: nat, i: Id)
    requires QueueAt(start, db, q, k) && i in db.outbox && db.outbox[i].status.Pending? && !Queued(db, i)
    ensures i !in q
  {
  }

  /** Rows that are not queued move no stock and emit no verdict. */
  lemma SideLink(cfg: Config, db: Db, i: Id, ch: Choice)
    requires Runnable(cfg, db, i, false, ch) && db.outbox[i].event.order in db.orders
    requires db.outbox[i].status.Pending? && !Queued(db, i) && !Ends(db.outbox[i].event.etype)
    requires LinkAdded(db, HandledDb(db, Delivered(db, i, false), ch), i, ch)
    ensures var mid := HandledDb(db, Delivered(db, i, false), ch);
            && ch.eventId in mid.outbox && mid.inventory == db.inventory && mid.orders == db.orders
            && CalmNext(mid.outbox[ch.eventId], i) && Stage(mid.outbox[ch.eventId].event.etype) >= 2
  {
  }

  lemma LastDelivery(cfg: Config, start: Db, db: Db, q: seq<Id>, k: nat, now: int, i: Id, ch: Choice)
    requires Along(cfg, start, db, q, k, now) && Deliverable(cfg, db, i, ch)
    requires HandleRow(cfg, db, i, ch).Applied? && Ends(db.outbox[i].event.etype)
    ensures var after := Deliver(cfg, db, i, ch);
            QueueAt(start, after, q, k) && Calm(start, after, q) && AllocatedTo(start, after, q, k)
  {
    hide Handle, Runnable, Sound, Ledger, AllocatedTo, QueueAt, Calm, Emitted;
    var after := Deliver(cfg, db, i, ch);
    DeliveryKeeps(cfg, db, i, ch);
    SuccessShape(cfg, db, i, ch);
    FinishWrites(cfg, db, i, ch);
    NotInQueue(start, db, q, k, i);
    QueueMoves(start, db, after, q, k, k, i);
    CalmKept(start, db, after, q, i, ch.eventId);
    forall o: Id, t: EventType | t.InventoryReserved? || t.InventoryReservationFailed?
      ensures Emitted(after, o, t) <==> Emitted(db, o, t)
    {
      EmittedSame(db, after, o, t);
    }
    AllocationKept(start, db, after, q, k);
  }

  lemma FinishWrites(cfg: Config, db: Db, i: Id, ch: Choice)
    requires Sound(cfg, db) && Deliverable(cfg, db, i, ch)
    requires HandleRow(cfg, db, i, ch).Applied? && Ends(db.outbox[i].event.etype)
    ensures var after := Deliver(cfg, db, i, ch);
            && after.inventory == db.inventory && after.orders.Keys == db.orders.Keys
            && after.outbox == WithPublished(db, i).outbox
  {
    hide Handle, Sound, Runnable;
    AfterHandler(cfg, db, i, ch);
    HandledCases(cfg, db, i, false, ch);
    HandlerFinishes(cfg, db, i, false, ch);
  }

  lemma RejectedDelivery(cfg: Config, start: Db, db: Db, q: seq<Id>, k: nat, now: int, i: Id, ch: Choice)
    requires Along(cfg, start, db, q, k, now) && Deliverable(cfg, db, i, ch) && HandleRow(cfg, db, i, ch).Raised?
    ensures var after := Deliver(cfg, db, i, ch);
            QueueAt(start, after, q, k) && Calm(start, after, q) && AllocatedTo(start, after, q, k)
  {
    hide Handle, AfterFailure, Sound, Ledger, AllocatedTo, QueueAt, Calm, Emitted;
    var after := Deliver(cfg, db, i, ch);
    OnlyRejectionsFail(cfg, db, i, ch);
    FailureIsClean(cfg, db, i, ch);
    FailureWrites(cfg, db, i, ch);
    DeliveryKeeps(cfg, db, i, ch);
    NotInQueue(start, db, q, k, i);
    QueueMoves(start, db, after, q, k, k, i);
    CalmKept(start, db, after, q, i, ch.eventId);
    forall o: Id, t: EventType | t.InventoryReserved? || t.InventoryReservationFailed?
      ensures Emitted(after, o, t) <==> Emitted(db, o, t)
    {
      EmittedSame(db, after, o, t);
    }
    AllocationKept(start, db, after, q, k);
  }

  lemma SkippedDelivery(cfg: Config, start: Db, db: Db, q: seq<Id>, k: nat, now: int, i: Id, ch: Choice)
    requires Along(cfg, start, db, q, k, now) && Deliverable(cfg, db, i, ch) && HandleRow(cfg, db, i, ch).Skipped?
    ensures var after := Deliver(cfg, db, i, ch);
            QueueAt(start, after, q, k) && Calm(start, after, q) && AllocatedTo(start, after, q, k)
  {
    hide Handle, Sound, Ledger, AllocatedTo, Calm, Emitted;
    var after := Deliver(cfg, db, i, ch);
    AfterHandler(cfg, db, i, ch);
    DeliveryKeeps(cfg, db, i, ch);
    assert i !in q;
    QueueMoves(start, db, after, q, k, k, i);
    CalmKept(start, db, after, q, i, ch.eventId);
    forall o: Id, t: EventType | t.InventoryReserved? || t.InventoryReservationFailed?
      ensures Emitted(after, o, t) <==> Emitted(db, o, t)
    {
      EmittedSame(db, after, o, t);
    }
    AllocationKept(start, db, after, q, k);
  }

  /** The head of the queue is allocated exactly as the reference does it. */
  lemma HeadDelivery(cfg: Config, start: Db, db: Db, q: seq<Id>, k: nat, now: int, ch: Choice)
    requires Along(cfg, start, db, q, k, now) && k < |q| && Deliverable(cfg, db, q[k], ch)
    ensures var after := Deliver(cfg, db, q[k], ch);
            QueueAt(start, after, q, k + 1) && Calm(start, after, q) && AllocatedTo(start, after, q, k + 1)
  {
    hide Handle, LinkAdded, Runnable, Sound, Ledger, Calm, Emitted, QueueAt, AllocatedTo, WithPublished;
    var i := q[k];
    HeadShape(cfg, start, db, q, k, now, ch);
    DeliveryKeeps(cfg, db, i, ch);
    SuccessShape(cfg, db, i, ch);
    QueueMoves(start, db, Deliver(cfg, db, i, ch), q, k, k + 1, i);
    CalmKept(start, db, Deliver(cfg, db, i, ch), q, i, ch.eventId);
    HeadAllocates(cfg, start, db, q, k, now, ch);
  }

  lemma HeadShape(cfg: Config, start: Db, db: Db, q: seq<Id>, k: nat, now: int, ch: Choice)
    requires Along(cfg, start, db, q, k, now) && k < |q| && Deliverable(cfg, db, q[k], ch)
    ensures var after := Deliver(cfg, db, q[k], ch);
            && HandleRow(cfg, db, q[k], ch).Applied? && after.orders == db.orders
            && after.outbox[q[k]].occurredAt == db.outbox[q[k]].occurredAt
            && after.outbox[q[k]].event == db.outbox[q[k]].event
            && ch.eventId in after.outbox && CalmNext(after.outbox[ch.eventId], q[k])
  {
    hide Handle, LinkAdded, Runnable, Sound, Ledger, Calm, Emitted, Body, AllocatedTo;
    var i := q[k];
    OnlyRejectionsFail(cfg, db, i, ch);
    AfterHandler(cfg, db, i, ch);
    HandledCases(cfg, db, i, false, ch);
    HeadLink(cfg, db, i, ch);
  }

  /** What the head's handler does: the move, and the event that shows it. */
  lemma HeadLink(cfg: Config, db: Db, i: Id, ch: Choice)
    requires Runnable(cfg, db, i, false, ch) && db.outbox[i].event.order in db.orders
    requires MovesStock(db.outbox[i].event)
    requires LinkAdded(db, HandledDb(db, Delivered(db, i, false), ch), i, ch)
    ensures var mid := HandledDb(db, Delivered(db, i, false), ch);
            && ch.eventId in mid.outbox && CalmNext(mid.outbox[ch.eventId], i) && mid.orders == db.orders
            && mid.inventory == GreedyStep(db.inventory, MoveOf(db, i))
            && mid.outbox[ch.eventId].event.etype == MoveShown(db.inventory, MoveOf(db, i))
  {
    hide Handle, Body, PayloadOk, Grown, OnlyCitedAdded;
  }

  function MoveShown(inv: Inventory, move: Move): EventType {
    if move.Compensation? then InventoryReleased
    else if FitsLines(inv, move.lines) then InventoryReserved
    else InventoryReservationFailed
  }

  /** Orders in the queue are different orders. */
  lemma QueuedOrdersDiffer(cfg: Config, db: Db, i: Id, j: Id)
    requires Sound(cfg, db) && Queued(db, i) && Queued(db, j) && i != j
    requires db.outbox[i].event.etype.OrderCreated? && db.outbox[j].event.etype.OrderCreated?
    ensures db.outbox[i].event.order != db.outbox[j].event.order
  {
    assert Live(ShapeOf(db), RowRep(i)) && Live(ShapeOf(db), RowRep(j));
  }

  lemma HeadAllocates(cfg: Config, start: Db, db: Db, q: seq<Id>, k: nat, now: int, ch: Choice)
    requires Along(cfg, start, db, q, k, now) && k < |q| && Deliverable(cfg, db, q[k], ch)
    ensures AllocatedTo(start, Deliver(cfg, db, q[k], ch), q, k + 1)
  {
    hide Emitted, Along, Sound, FitsLines, Deliver, VerdictShown, Queued, MoveOf;
    var moves := MovesOf(start, q);
    var after := Deliver(cfg, db, q[k], ch);
    AlongParts(cfg, start, db, q, k, now);
    assert moves[..k + 1][..k] == moves[..k];
    HeadStock(cfg, start, db, q, k, now, ch);
    assert MoveOf(db, q[k]) == moves[k];
    forall n | 0 <= n < k + 1 ensures VerdictShown(start, after, q, n) {
      HeadVerdict(cfg, start, db, q, k, now, ch, n);
    }
  }

  lemma HeadStock(cfg: Config, start: Db, db: Db, q: seq<Id>, k: nat, now: int, ch: Choice)
    requires Along(cfg, start, db, q, k, now) && k < |q| && Deliverable(cfg, db, q[k], ch)
    ensures Deliver(cfg, db, q[k], ch).inventory == GreedyStep(db.inventory, MoveOf(db, q[k]))
  {
    hide Handle, LinkAdded, Runnable, Ledger, Calm, Body, Along, Sound, AllocatedTo, MoveOf, GreedyStep;
    AlongParts(cfg, start, db, q, k, now);
    OnlyRejectionsFail(cfg, db, q[k], ch);
    AfterHandler(cfg, db, q[k], ch);
    HandledCases(cfg, db, q[k], false, ch);
    HeadLink(cfg, db, q[k], ch);
  }

  /** The head's delivery adds one event, and it shows the head's verdict. */
  lemma HeadEmits(cfg: Config, start: Db, db: Db, q: seq<Id>, k: nat, now: int, ch: Choice, o: Id, t: EventType)
    requires Along(cfg, start, db, q, k, now) && k < |q| && Deliverable(cfg, db, q[k], ch)
    ensures Emitted(Deliver(cfg, db, q[k], ch), o, t) <==>
            Emitted(db, o, t) || (o == db.outbox[q[k]].event.order && t == MoveShown(db.inventory, MoveOf(db, q[k])))
  {
    hide Handle, LinkAdded, Runnable, Ledger, Calm, Emitted, Body,
         Along, WithPublished, AllocatedTo, MoveOf, MoveShown, Sound;
    var i := q[k];
    AlongParts(cfg, start, db, q, k, now);
    OnlyRejectionsFail(cfg, db, i, ch);
    AfterHandler(cfg, db, i, ch);
    var mid := HandledDb(db, Delivered(db, i, false), ch);
    HandledCases(cfg, db, i, false, ch);
    HeadLink(cfg, db, i, ch);
    LinkEmits(cfg, db, mid, i, ch, o, t);
    PublishEmitsNothing(mid, i, o, t);
  }

  lemma HeadVerdict(cfg: Config, start: Db, db: Db, q: seq<Id>, k: nat, now: int, ch: Choice, n: nat)
    requires Along(cfg, start, db, q, k, now) && k < |q| && Deliverable(cfg, db, q[k], ch) && n <= k
    ensures VerdictShown(start, Deliver(cfg, db, q[k], ch), q, n)
  {
    hide Emitted, Along, Sound, FitsLines, Deliver, GreedyStock, Deliverable;
    AlongParts(cfg, start, db, q, k, now);
    assert Queued(start, q[n]) && Queued(start, q[k]);
    var o := start.outbox[q[n]].event.order;
    HeadEmits(cfg, start, db, q, k, now, ch, o, InventoryReserved);
    HeadEmits(cfg, start, db, q, k, now, ch, o, InventoryReservationFailed);
    if n < k {
      assert VerdictShown(start, db, q, n);
      if start.outbox[q[n]].event.etype.OrderCreated? && start.outbox[q[k]].event.etype.OrderCreated? {
        QueuedOrdersDiffer(cfg, start, q[n], q[k]);
      }
    } else if start.outbox[q[k]].event.etype.OrderCreated? {
      NothingAtFront(cfg, db, q[k]);
    }
  }

  lemma AlongParts(cfg: Config, start: Db, db: Db, q: seq<Id>, k: nat, now: int)
    requires Along(cfg, start, db, q, k, now)
    ensures Sound(cfg, start) && Sound(cfg, db) && QueueAt(start, db, q, k) && AllocatedTo(start, db, q, k)
    ensures forall n, m | 0 <= n < m < |q| :: q[n] != q[m]
  {
  }

  lemma NothingAtFront(cfg: Config, db: Db, i: Id)
    requires Sound(cfg, db) && i in db.outbox && !db.outbox[i].status.Failed? && !Processed(ShapeOf(db), i)
    requires db.outbox[i].event.etype.OrderCreated?
    ensures !Emitted(db, db.outbox[i].event.order, InventoryReserved)
    ensures !Emitted(db, db.outbox[i].event.order, InventoryReservationFailed)
  {
    forall j | j in db.outbox && db.outbox[j].event.order == db.outbox[i].event.order
      ensures Stage(db.outbox[j].event.etype) != 1
    {
      NextStageEmpty(ShapeOf(db), i, j);
    }
  }
}
