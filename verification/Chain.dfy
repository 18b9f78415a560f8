/** The shape of the outbox: per order one chain of events, per event one live representative. */
module Chain {
  import opened Tables

  /** How far along the saga an event type is. Two types share a stage when an order takes one or the other. */
  function Stage(t: EventType): nat {
    match t
    case OrderCreated => 0
    case InventoryReserved => 1
    case InventoryReservationFailed => 1
    case PaymentAuthorized => 2
    case PaymentFailed => 2
    case InvoiceCreated => 3
    case InventoryReleased => 3
    case NotificationSent => 4
  }

  predicate Follows(next: EventType, t: EventType) {
    match t
    case OrderCreated => next.InventoryReserved? || next.InventoryReservationFailed?
    case InventoryReserved => next.PaymentAuthorized? || next.PaymentFailed?
    case PaymentAuthorized => next.InvoiceCreated?
    case InvoiceCreated => next.NotificationSent?
    case PaymentFailed => next.InventoryReleased?
    case _ => false
  }

  predicate Ends(t: EventType) {
    t.NotificationSent? || t.InventoryReleased?
  }

  predicate SameStage(a: Event, b: Event) {
    a.order == b.order && Stage(a.etype) == Stage(b.etype)
  }

  /** The part of the database the shape is about. */
  datatype Shape = Shape(
    orders: set<Id>,
    outbox: map<Id, Row>,
    inbox: set<(Consumer, Id)>,
    deadLetters: map<Id, DeadLetter>)

  function ShapeOf(db: Db): Shape {
    Shape(db.orders.Keys, db.outbox, db.inbox, db.deadLetters)
  }

  predicate Processed(s: Shape, i: Id) {
    i in s.outbox && (ConsumerOf(s.outbox[i].event.etype), i) in s.inbox
  }

  /** A representative of an event: an outbox row or a dead letter. */
  datatype Rep = RowRep(i: Id) | LetterRep(d: Id)

  /** Rows still pending or already published, and dead letters not replayed yet. */
  predicate Live(s: Shape, rep: Rep) {
    match rep
    case RowRep(i) => i in s.outbox && !s.outbox[i].status.Failed?
    case LetterRep(d) => d in s.deadLetters && s.deadLetters[d].replayedAt.None?
  }

  function Represented(s: Shape, rep: Rep): Event
    requires Live(s, rep)
  {
    match rep
    case RowRep(i) => s.outbox[i].event
    case LetterRep(d) => s.deadLetters[d].event
  }

  // ----- the invariants -----

  ghost predicate LinkedRow(s: Shape, event: Event) {
    && event.order in s.orders
    && match event.causation
       case None => event.etype.OrderCreated?
       case Some(c) =>
         && Processed(s, c)
         && var cause := s.outbox[c].event;
            event.order == cause.order && event.correlation == cause.correlation && Follows(event.etype, cause.etype)
  }

  ghost predicate Linked(s: Shape) {
    forall i {:trigger LinkedRow(s, s.outbox[i].event)} | i in s.outbox :: LinkedRow(s, s.outbox[i].event)
  }

  /** An order has one event per stage, however many rows carry it. */
  ghost predicate Linear(s: Shape) {
    forall i, j | i in s.outbox && j in s.outbox && SameStage(s.outbox[i].event, s.outbox[j].event) ::
      s.outbox[i].event == s.outbox[j].event
  }

  ghost predicate OneLive(s: Shape) {
    forall a, b | Live(s, a) && Live(s, b) && SameStage(Represented(s, a), Represented(s, b)) :: a == b
  }

  ghost predicate HasLive(s: Shape) {
    forall i {:trigger HasRep(s, s.outbox[i].event)} | i in s.outbox :: HasRep(s, s.outbox[i].event)
  }

  ghost predicate HasRep(s: Shape, event: Event) {
    exists rep :: LiveFor(s, rep, event)
  }

  predicate LiveFor(s: Shape, rep: Rep, event: Event) {
    Live(s, rep) && Represented(s, rep) == event
  }

  ghost predicate Statuses(s: Shape) {
    forall i | i in s.outbox ::
      && (s.outbox[i].status.Failed? ==> !Processed(s, i))
      && (s.outbox[i].status.Published? ==> Processed(s, i))
  }

  ghost predicate Letters(s: Shape) {
    && (forall d | d in s.deadLetters ::
          var letter := s.deadLetters[d];
          letter.eventId in s.outbox && s.outbox[letter.eventId].status.Failed?
          && s.outbox[letter.eventId].event == letter.event)
    && (forall c, d | c in s.deadLetters && d in s.deadLetters
                      && s.deadLetters[c].eventId == s.deadLetters[d].eventId :: c == d)
    && (forall i {:trigger HasLetter(s, i)} | i in s.outbox && s.outbox[i].status.Failed? :: HasLetter(s, i))
  }

  ghost predicate HasLetter(s: Shape, i: Id) {
    exists d :: LetterOf(s, d, i)
  }

  predicate LetterOf(s: Shape, d: Id, i: Id) {
    d in s.deadLetters && s.deadLetters[d].eventId == i
  }

  ghost predicate InboxSound(s: Shape, routed: set<EventType>) {
    forall m | m in s.inbox ::
      && m.1 in s.outbox
      && m.0 == ConsumerOf(s.outbox[m.1].event.etype) && s.outbox[m.1].event.etype in routed
  }

  ghost predicate OneCorrelation(s: Shape) {
    forall i, j | i in s.outbox && j in s.outbox && s.outbox[i].event.order == s.outbox[j].event.order ::
      s.outbox[i].event.correlation == s.outbox[j].event.correlation
  }

  ghost predicate HasNext(s: Shape, i: Id)
    requires i in s.outbox
  {
    exists j :: j in s.outbox && s.outbox[j].event.causation == Some(i)
  }

  /** A processed event has handed the order on. */
  ghost predicate HandedOn(s: Shape) {
    forall i {:trigger HasNext(s, i)} | Processed(s, i) && !Ends(s.outbox[i].event.etype) :: HasNext(s, i)
  }

  ghost predicate Chained(s: Shape, routed: set<EventType>) {
    && Linked(s) && Linear(s) && OneLive(s) && HasLive(s) && Statuses(s) && Letters(s)
    && InboxSound(s, routed) && OneCorrelation(s) && HandedOn(s)
  }

  // ----- the kinds of change a step makes to the shape -----

  ghost predicate Rooted(a: Shape, b: Shape, n: Id, row: Row) {
    && n !in a.outbox && b.outbox == a.outbox[n := row]
    && row.event.etype.OrderCreated? && row.event.causation.None? && row.status.Pending?
    && row.event.order !in a.orders && b.orders == a.orders + {row.event.order}
    && b.inbox == a.inbox && b.deadLetters == a.deadLetters
  }

  /** The handler of row i ran and added row n. */
  ghost predicate Extended(a: Shape, b: Shape, i: Id, n: Id, row: Row) {
    && i in a.outbox && !Processed(a, i)
    && n !in a.outbox && b.outbox == a.outbox[n := row]
    && Follows(row.event.etype, a.outbox[i].event.etype) && row.event.order == a.outbox[i].event.order
    && row.event.correlation == a.outbox[i].event.correlation && row.event.causation == Some(i) && row.status.Pending?
    && b.inbox == a.inbox + {(ConsumerOf(a.outbox[i].event.etype), i)}
    && b.deadLetters == a.deadLetters && b.orders == a.orders
  }

  /** The handler of the last row of a chain ran. */
  ghost predicate Finished(a: Shape, b: Shape, i: Id) {
    && i in a.outbox && Ends(a.outbox[i].event.etype)
    && b.outbox == a.outbox && b.inbox == a.inbox + {(ConsumerOf(a.outbox[i].event.etype), i)}
    && b.deadLetters == a.deadLetters && b.orders == a.orders
  }

  ghost predicate Restamped(a: Shape, b: Shape, i: Id, row: Row) {
    && i in a.outbox && !a.outbox[i].status.Failed? && b.outbox == a.outbox[i := row]
    && row.event == a.outbox[i].event && !row.status.Failed? && (row.status.Published? ==> Processed(a, i))
    && b.inbox == a.inbox && b.deadLetters == a.deadLetters && b.orders == a.orders
  }

  ghost predicate Buried(a: Shape, b: Shape, i: Id, row: Row, d: Id, letter: DeadLetter) {
    && i in a.outbox && !a.outbox[i].status.Failed? && !Processed(a, i)
    && b.outbox == a.outbox[i := row] && row.event == a.outbox[i].event && row.status.Failed?
    && d !in a.deadLetters && b.deadLetters == a.deadLetters[d := letter]
    && letter.eventId == i && letter.event == row.event && letter.replayedAt.None?
    && b.inbox == a.inbox && b.orders == a.orders
  }

  ghost predicate Revived(a: Shape, b: Shape, d: Id, letter: DeadLetter, n: Id, row: Row) {
    && d in a.deadLetters && a.deadLetters[d].replayedAt.None? && n !in a.outbox && b.outbox == a.outbox[n := row]
    && row.event == a.deadLetters[d].event && row.status.Pending?
    && b.deadLetters == a.deadLetters[d := letter] && letter.replayedAt.Some?
    && letter.eventId == a.deadLetters[d].eventId && letter.event == a.deadLetters[d].event
    && b.inbox == a.inbox && b.orders == a.orders
  }

  // ----- each kind keeps the invariants -----

  lemma FollowsIsNextStage(next: EventType, t: EventType)
    requires Follows(next, t)
    ensures Stage(next) == Stage(t) + 1 && !Ends(t)
  {
  }

  /** An unprocessed live row is the front of its order: the next stage is still empty. */
  lemma NextStageEmpty(s: Shape, i: Id, j: Id)
    requires Linked(s) && OneLive(s) && Statuses(s)
    requires i in s.outbox && !s.outbox[i].status.Failed? && !Processed(s, i)
    requires j in s.outbox && s.outbox[j].event.order == s.outbox[i].event.order
    ensures Stage(s.outbox[j].event.etype) != Stage(s.outbox[i].event.etype) + 1
  {
    var event := s.outbox[j].event;
    if Stage(event.etype) == Stage(s.outbox[i].event.etype) + 1 {
      assert LinkedRow(s, event);
      var c := event.causation.value;
      FollowsIsNextStage(event.etype, s.outbox[c].event.etype);
      assert Live(s, RowRep(c)) && Live(s, RowRep(i));
      assert false;
    }
  }

  // Adding one row, whatever the reason.

  ghost predicate Adds(a: Shape, b: Shape, n: Id) {
    n !in a.outbox && n in b.outbox && b.outbox == a.outbox[n := b.outbox[n]]
    && a.inbox <= b.inbox && a.orders <= b.orders
  }

  lemma LinksGrow(a: Shape, b: Shape, n: Id)
    requires Linked(a) && Adds(a, b, n) && LinkedRow(b, b.outbox[n].event)
    ensures Linked(b)
  {
    forall j | j in b.outbox ensures LinkedRow(b, b.outbox[j].event) {
      if j != n {
        assert LinkedRow(a, a.outbox[j].event);
      }
    }
  }

  lemma LinearGrows(a: Shape, b: Shape, n: Id)
    requires Linear(a) && OneCorrelation(a) && Adds(a, b, n)
    requires forall j | j in a.outbox && SameStage(a.outbox[j].event, b.outbox[n].event) ::
               a.outbox[j].event == b.outbox[n].event
    requires forall j | j in a.outbox && a.outbox[j].event.order == b.outbox[n].event.order ::
               a.outbox[j].event.correlation == b.outbox[n].event.correlation
    ensures Linear(b) && OneCorrelation(b)
  {
    assert forall j :: j in b.outbox ==> j == n || j in a.outbox;
  }

  lemma MarkersKept(a: Shape, b: Shape, n: Id, i: Id, routed: set<EventType>)
    requires Statuses(a) && InboxSound(a, routed) && Adds(a, b, n) && b.outbox[n].status.Pending?
    requires b.inbox == a.inbox
             || (i in a.outbox && !a.outbox[i].status.Failed? && a.outbox[i].event.etype in routed
                 && b.inbox == a.inbox + {(ConsumerOf(a.outbox[i].event.etype), i)})
    ensures Statuses(b) && InboxSound(b, routed)
  {
    forall j | j in a.outbox ensures Processed(a, j) ==> Processed(b, j) {
    }
    forall j | j in a.outbox && a.outbox[j].status.Failed? ensures !Processed(b, j) {
      assert !Processed(a, j);
    }
  }

  lemma RootedKeepsLinks(a: Shape, b: Shape, n: Id, row: Row, routed: set<EventType>)
    requires Chained(a, routed) && Rooted(a, b, n, row)
    ensures Linked(b) && Linear(b) && OneCorrelation(b) && Statuses(b) && InboxSound(b, routed)
  {
    forall i | i in a.outbox ensures a.outbox[i].event.order != row.event.order {
      assert LinkedRow(a, a.outbox[i].event);
    }
    LinksGrow(a, b, n);
    LinearGrows(a, b, n);
    MarkersKept(a, b, n, n, routed);
  }

  lemma ExtendedKeepsLinks(a: Shape, b: Shape, i: Id, n: Id, row: Row, routed: set<EventType>)
    requires Chained(a, routed) && Extended(a, b, i, n, row) && a.outbox[i].event.etype in routed
    requires !a.outbox[i].status.Failed?
    ensures Linked(b) && Linear(b) && OneCorrelation(b) && Statuses(b) && InboxSound(b, routed)
  {
    assert LinkedRow(a, a.outbox[i].event);
    LinksGrow(a, b, n);
    NewStage(a, b, i, n, row, routed);
    LinearGrows(a, b, n);
    MarkersKept(a, b, n, i, routed);
  }

  lemma RevivedKeepsLinks(a: Shape, b: Shape, d: Id, letter: DeadLetter, n: Id, row: Row, routed: set<EventType>)
    requires Chained(a, routed) && Revived(a, b, d, letter, n, row)
    ensures Linked(b) && Linear(b) && OneCorrelation(b) && Statuses(b) && InboxSound(b, routed) && HandedOn(b)
  {
    var origin := a.deadLetters[d].eventId;
    assert LinkedRow(a, a.outbox[origin].event);
    LinksGrow(a, b, n);
    LinearGrows(a, b, n);
    MarkersKept(a, b, n, n, routed);
    forall j | Processed(b, j) && !Ends(b.outbox[j].event.etype) ensures HasNext(b, j) {
      NextKept(a, b, j);
    }
  }

  /** A new live row whose stage was empty. */
  lemma RepAdded(a: Shape, b: Shape, n: Id)
    requires OneLive(a) && HasLive(a)
    requires n !in a.outbox && n in b.outbox && !b.outbox[n].status.Failed?
    requires b.outbox == a.outbox[n := b.outbox[n]] && b.deadLetters == a.deadLetters
    requires forall rep | Live(a, rep) :: !SameStage(Represented(a, rep), b.outbox[n].event)
    ensures OneLive(b) && HasLive(b)
  {
    assert forall rep :: Live(b, rep) <==> Live(a, rep) || rep == RowRep(n);
    forall i | i in b.outbox ensures HasRep(b, b.outbox[i].event) {
      if i == n {
        assert LiveFor(b, RowRep(n), b.outbox[n].event);
      } else {
        assert HasRep(a, a.outbox[i].event);
        var rep :| LiveFor(a, rep, a.outbox[i].event);
        assert LiveFor(b, rep, b.outbox[i].event);
      }
    }
  }

  /** The representative `gone` hands its event to `come`, possibly the same one; all others stay. */
  lemma RepMoved(a: Shape, b: Shape, gone: Rep, come: Rep)
    requires OneLive(a) && HasLive(a)
    requires Live(a, gone) && Live(b, come) && Represented(b, come) == Represented(a, gone)
    requires forall rep :: Live(b, rep) <==> (Live(a, rep) && rep != gone) || rep == come
    requires forall rep | Live(a, rep) && Live(b, rep) :: Represented(b, rep) == Represented(a, rep)
    requires forall i | i in b.outbox :: HasRep(a, b.outbox[i].event)
    ensures OneLive(b) && HasLive(b)
  {
    forall x, y | Live(b, x) && Live(b, y) && SameStage(Represented(b, x), Represented(b, y)) ensures x == y {
      var x', y' := if x == come then gone else x, if y == come then gone else y;
      assert Live(a, x') && Live(a, y');
    }
    forall i | i in b.outbox ensures HasRep(b, b.outbox[i].event) {
      var rep :| LiveFor(a, rep, b.outbox[i].event);
      assert LiveFor(b, if rep == gone then come else rep, b.outbox[i].event);
    }
  }

  /** Rows and letters keep their events and failures; `added` holds the letter for a newly failed row, if any. */
  lemma LettersKept(a: Shape, b: Shape, added: set<Id>)
    requires Letters(a)
    requires forall i | i in a.outbox && a.outbox[i].status.Failed? ::
               i in b.outbox && b.outbox[i].status.Failed? && b.outbox[i].event == a.outbox[i].event
    requires forall d | d in a.deadLetters ::
               d in b.deadLetters && b.deadLetters[d].eventId == a.deadLetters[d].eventId
               && b.deadLetters[d].event == a.deadLetters[d].event
    requires forall i | i in b.outbox && b.outbox[i].status.Failed? ::
               (i in a.outbox && a.outbox[i].status.Failed?) || (exists d | d in added :: LetterOf(b, d, i))
    requires b.deadLetters.Keys == a.deadLetters.Keys + added
    requires forall d | d in added ::
               && b.deadLetters[d].eventId in b.outbox && b.outbox[b.deadLetters[d].eventId].status.Failed?
               && b.outbox[b.deadLetters[d].eventId].event == b.deadLetters[d].event
               && added == {d}
               && (forall c | c in a.deadLetters :: a.deadLetters[c].eventId != b.deadLetters[d].eventId)
    ensures Letters(b)
  {
    forall i | i in b.outbox && b.outbox[i].status.Failed? ensures HasLetter(b, i) {
      if i in a.outbox && a.outbox[i].status.Failed? {
        assert HasLetter(a, i);
        var d :| LetterOf(a, d, i);
        assert LetterOf(b, d, i);
      }
    }
  }

  lemma RootedKeepsLive(a: Shape, b: Shape, n: Id, row: Row, routed: set<EventType>)
    requires Chained(a, routed) && Rooted(a, b, n, row)
    ensures OneLive(b) && HasLive(b) && Letters(b) && HandedOn(b)
  {
    forall i | i in a.outbox ensures a.outbox[i].event.order != row.event.order {
      assert LinkedRow(a, a.outbox[i].event);
    }
    forall rep | Live(a, rep) ensures !SameStage(Represented(a, rep), row.event) {
      LiveHasRow(a, rep);
    }
    RepAdded(a, b, n);
    LettersKept(a, b, {});
    assert forall m | m in b.inbox :: m.1 != n;
    forall i | Processed(b, i) && !Ends(b.outbox[i].event.etype) ensures HasNext(b, i) {
      NextKept(a, b, i);
    }
  }

  lemma LiveHasRow(s: Shape, rep: Rep)
    requires Letters(s) && Live(s, rep)
    ensures exists i :: i in s.outbox && s.outbox[i].event == Represented(s, rep)
  {
    if rep.LetterRep? {
      assert s.deadLetters[rep.d].eventId in s.outbox;
    }
  }

  lemma NextKept(a: Shape, b: Shape, i: Id)
    requires HandedOn(a) && Processed(a, i) && !Ends(a.outbox[i].event.etype) && i in b.outbox
    requires forall j | j in a.outbox :: j in b.outbox && b.outbox[j].event == a.outbox[j].event
    ensures HasNext(b, i)
  {
    assert HasNext(a, i);
    var j :| j in a.outbox && a.outbox[j].event.causation == Some(i);
    assert j in b.outbox;
  }

  /** The front of an order can be extended: no row of it is at the new row's stage. */
  lemma NewStage(a: Shape, b: Shape, i: Id, n: Id, row: Row, routed: set<EventType>)
    requires Chained(a, routed) && Extended(a, b, i, n, row) && !a.outbox[i].status.Failed?
    ensures forall j | j in a.outbox :: !SameStage(a.outbox[j].event, row.event)
  {
    FollowsIsNextStage(row.event.etype, a.outbox[i].event.etype);
    forall j | j in a.outbox ensures !SameStage(a.outbox[j].event, row.event) {
      if a.outbox[j].event.order == row.event.order {
        NextStageEmpty(a, i, j);
      }
    }
  }

  lemma ExtendedKeepsLive(a: Shape, b: Shape, i: Id, n: Id, row: Row, routed: set<EventType>)
    requires Chained(a, routed) && Extended(a, b, i, n, row) && !a.outbox[i].status.Failed?
    ensures OneLive(b) && HasLive(b) && Letters(b) && HandedOn(b)
  {
    NewStage(a, b, i, n, row, routed);
    forall rep | Live(a, rep) ensures !SameStage(Represented(a, rep), row.event) {
      LiveHasRow(a, rep);
    }
    RepAdded(a, b, n);
    LettersKept(a, b, {});
    assert forall m | m in b.inbox :: m.1 != n;
    forall j | Processed(b, j) && !Ends(b.outbox[j].event.etype) ensures HasNext(b, j) {
      if j == i {
        assert b.outbox[n].event.causation == Some(i);
      } else {
        NextKept(a, b, j);
      }
    }
  }

  lemma FinishedKeeps(a: Shape, b: Shape, i: Id, routed: set<EventType>)
    requires Chained(a, routed) && Finished(a, b, i) && a.outbox[i].event.etype in routed
    requires !a.outbox[i].status.Failed?
    ensures Chained(b, routed)
  {
    forall j | j in a.outbox ensures LinkedRow(b, a.outbox[j].event) && HasRep(a, b.outbox[j].event) {
      assert LinkedRow(a, a.outbox[j].event);
      assert HasRep(a, a.outbox[j].event);
    }
    RepMoved(a, b, RowRep(i), RowRep(i));
    LettersKept(a, b, {});
    forall j | Processed(b, j) && !Ends(b.outbox[j].event.etype) ensures HasNext(b, j) {
      NextKept(a, b, j);
    }
  }

  /** Changing one row's progress, or its letters, leaves links and correlations alone. */
  lemma EventsKept(a: Shape, b: Shape, routed: set<EventType>)
    requires Linked(a) && Linear(a) && OneCorrelation(a) && InboxSound(a, routed) && HandedOn(a)
    requires a.inbox == b.inbox && a.orders == b.orders && a.outbox.Keys == b.outbox.Keys
    requires forall i | i in a.outbox :: b.outbox[i].event == a.outbox[i].event
    ensures Linked(b) && Linear(b) && OneCorrelation(b) && InboxSound(b, routed) && HandedOn(b)
  {
    forall j | j in b.outbox ensures LinkedRow(b, b.outbox[j].event) {
      assert LinkedRow(a, a.outbox[j].event);
    }
    forall j | Processed(b, j) && !Ends(b.outbox[j].event.etype) ensures HasNext(b, j) {
      NextKept(a, b, j);
    }
  }

  lemma RestampedKeeps(a: Shape, b: Shape, i: Id, row: Row, routed: set<EventType>)
    requires Chained(a, routed) && Restamped(a, b, i, row)
    ensures Chained(b, routed)
  {
    hide Linked, Linear, InboxSound, OneCorrelation, HandedOn, OneLive, HasRep, LinkedRow, HasLetter;
    EventsKept(a, b, routed);
    LettersKept(a, b, {});
    forall j | j in a.outbox ensures HasRep(a, b.outbox[j].event) {
      assert HasRep(a, a.outbox[j].event);
    }
    RepMoved(a, b, RowRep(i), RowRep(i));
  }

  lemma BuriedKeeps(a: Shape, b: Shape, i: Id, row: Row, d: Id, letter: DeadLetter, routed: set<EventType>)
    requires Chained(a, routed) && Buried(a, b, i, row, d, letter)
    ensures Chained(b, routed)
  {
    EventsKept(a, b, routed);
    BuriedKeepsLive(a, b, i, row, d, letter);
    assert forall j | j in a.outbox && j != i :: Processed(b, j) <==> Processed(a, j);
  }

  lemma BuriedKeepsLive(a: Shape, b: Shape, i: Id, row: Row, d: Id, letter: DeadLetter)
    requires OneLive(a) && HasLive(a) && Letters(a) && Buried(a, b, i, row, d, letter)
    ensures OneLive(b) && HasLive(b) && Letters(b)
  {
    forall j | j in a.outbox ensures HasRep(a, b.outbox[j].event) {
      assert HasRep(a, a.outbox[j].event);
    }
    RepMoved(a, b, RowRep(i), LetterRep(d));
    assert LetterOf(b, d, i);
    LettersKept(a, b, {d});
  }

  lemma RevivedKeepsLive(a: Shape, b: Shape, d: Id, letter: DeadLetter, n: Id, row: Row, routed: set<EventType>)
    requires Chained(a, routed) && Revived(a, b, d, letter, n, row)
    ensures OneLive(b) && HasLive(b) && Letters(b)
  {
    hide Linked, Linear, Statuses, InboxSound, OneCorrelation, HandedOn, OneLive, HasRep, LinkedRow;
    LettersKept(a, b, {});
    forall j | j in b.outbox ensures HasRep(a, b.outbox[j].event) {
      if j == n {
        assert HasRep(a, a.outbox[a.deadLetters[d].eventId].event);
      } else {
        assert HasRep(a, a.outbox[j].event);
      }
    }
    hide HasLive, Letters;
    RepMoved(a, b, LetterRep(d), RowRep(n));
  }
}
