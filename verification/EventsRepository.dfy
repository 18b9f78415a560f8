/** Outbox rows, processing attempts and dead letters: what the repositories read and write. */
module EventsRepository {
  import opened Tables
  import opened Sessions

  // ----- the ready queue -----

  predicate Ready(row: Row, now: int) {
    row.status.Pending? && (row.nextAttemptAt.None? || row.nextAttemptAt.value <= now)
  }

  function ReadyIds(db: Db, now: int): set<Id> {
    set i | i in db.outbox && Ready(db.outbox[i], now)
  }

  /** The queue order: occurred_at, then event_id. */
  predicate Before(outbox: map<Id, Row>, a: Id, b: Id)
    requires a in outbox && b in outbox
  {
    outbox[a].occurredAt < outbox[b].occurredAt || (outbox[a].occurredAt == outbox[b].occurredAt && a < b)
  }

  ghost predicate Sorted(outbox: map<Id, Row>, ids: seq<Id>) {
    && (forall i | i in ids :: i in outbox)
    && (forall i, j | 0 <= i < j < |ids| :: Before(outbox, ids[i], ids[j]))
  }

  predicate IsFirst(outbox: map<Id, Row>, s: set<Id>, first: Id)
    requires s <= outbox.Keys
  {
    first in s && forall other | other in s :: other == first || Before(outbox, first, other)
  }

  function InOrder(outbox: map<Id, Row>, s: set<Id>): (ids: seq<Id>)
    requires s <= outbox.Keys
    ensures Sorted(outbox, ids)
    ensures forall i :: i in ids <==> i in s
    ensures |ids| == |s|
  {
    if s == {} then []
    else
      HasFirst(outbox, s);
      var first :| IsFirst(outbox, s, first);
      [first] + InOrder(outbox, s - {first})
  }

  lemma {:induction false} HasFirst(outbox: map<Id, Row>, s: set<Id>)
    requires s <= outbox.Keys && s != {}
    ensures exists first :: IsFirst(outbox, s, first)
  {
    var some :| some in s;
    if s == {some} {
      assert IsFirst(outbox, s, some);
    } else {
      HasFirst(outbox, s - {some});
      var first :| IsFirst(outbox, s - {some}, first);
      var winner := if Before(outbox, some, first) then some else first;
      forall other | other in s ensures other == winner || Before(outbox, winner, other) {
        assert other == some || other in s - {some};
      }
      assert IsFirst(outbox, s, winner);
    }
  }

  function Fetch(db: Db, now: int, limit: nat): (ids: seq<Id>)
    ensures forall i | i in ids :: i in db.outbox && Ready(db.outbox[i], now)
  {
    var queue := InOrder(db.outbox, ReadyIds(db, now));
    assert forall k | 0 <= k < |queue| :: queue[k] in ReadyIds(db, now);
    if |queue| <= limit then queue else queue[..limit]
  }

  /** What the query promises, in terms of the columns: pending rows whose next attempt is unset or has come, by
      occurred_at and then event_id; and whatever such row is left out comes after a full batch of earlier ones. */
  ghost predicate OldestReady(db: Db, now: int, limit: nat, ids: seq<Id>) {
    && |ids| <= limit
    && (forall i | i in ids ::
          && i in db.outbox && db.outbox[i].status == Pending
          && (db.outbox[i].nextAttemptAt == None || db.outbox[i].nextAttemptAt.value <= now))
    && (forall p, q | 0 <= p < q < |ids| ::
          var a, b := db.outbox[ids[p]].occurredAt, db.outbox[ids[q]].occurredAt;
          a < b || (a == b && ids[p] < ids[q]))
    && (forall i | i in db.outbox && i !in ids && db.outbox[i].status == Pending
                   && (db.outbox[i].nextAttemptAt == None || db.outbox[i].nextAttemptAt.value <= now) ::
          |ids| == limit && forall j | j in ids ::
            var a, b := db.outbox[j].occurredAt, db.outbox[i].occurredAt;
            a < b || (a == b && j < i))
  }

  lemma FetchIsOldestReady(db: Db, now: int, limit: nat)
    ensures OldestReady(db, now, limit, Fetch(db, now, limit))
  {
    hide Fetch;
    var ids := Fetch(db, now, limit);
    FetchIsSorted(db, now, limit);
    forall i | i in ReadyIds(db, now) && i !in ids
      ensures |ids| == limit && forall j | j in ids :: Before(db.outbox, j, i)
    {
      LeftOutIsLater(db, now, limit, i);
    }
    assert forall i | i in db.outbox && Ready(db.outbox[i], now) :: i in ReadyIds(db, now);
  }

  lemma FetchIsSorted(db: Db, now: int, limit: nat)
    ensures Sorted(db.outbox, Fetch(db, now, limit)) && |Fetch(db, now, limit)| <= limit
  {
  }

  lemma LeftOutIsLater(db: Db, now: int, limit: nat, i: Id)
    requires i in ReadyIds(db, now) && i !in Fetch(db, now, limit)
    ensures |Fetch(db, now, limit)| == limit && forall j | j in Fetch(db, now, limit) :: Before(db.outbox, j, i)
  {
    var queue, ids := InOrder(db.outbox, ReadyIds(db, now)), Fetch(db, now, limit);
    var at :| 0 <= at < |queue| && queue[at] == i;
    assert forall k | 0 <= k < |ids| :: queue[k] == ids[k];
  }

  /** A ready row that comes before a fetched one was fetched with it, further ahead. */
  lemma EarlierReadyIsFetched(db: Db, now: int, limit: nat, i: Id, j: nat)
    requires j < |Fetch(db, now, limit)| && i in ReadyIds(db, now)
    requires Before(db.outbox, i, Fetch(db, now, limit)[j])
    ensures exists p :: 0 <= p < j && Fetch(db, now, limit)[p] == i
  {
    var ids := Fetch(db, now, limit);
    FetchIsOldestReady(db, now, limit);
    hide Fetch;
    assert !Before(db.outbox, ids[j], i);
    assert i in ids;
    var p :| 0 <= p < |ids| && ids[p] == i;
  }

  function Members(ids: seq<Id>): set<Id> {
    set i | i in ids
  }

  /** The promise leaves no freedom: it names exactly one list. */
  lemma OldestReadyIsUnique(db: Db, now: int, limit: nat, a: seq<Id>, b: seq<Id>)
    requires OldestReady(db, now, limit, a) && OldestReady(db, now, limit, b)
    ensures a == b
  {
    SameMembers(db, now, limit, a, b);
    SameMembers(db, now, limit, b, a);
    assert Members(a) == Members(b);
    SortedIsUnique(db.outbox, a, b);
  }

  /** A row of a missing from b would come after all of the full list b, so b would lie within a and be shorter. */
  lemma SameMembers(db: Db, now: int, limit: nat, a: seq<Id>, b: seq<Id>)
    requires OldestReady(db, now, limit, a) && OldestReady(db, now, limit, b)
    ensures Members(a) <= Members(b)
  {
    if i :| i in a && i !in b {
      assert Members(b) <= Members(a) - {i} by {
        forall j | j in b ensures j in a && j != i {
          assert Before(db.outbox, j, i);
          if j !in a {
            assert false;
          }
        }
      }
      CardinalityMonotone(Members(b), Members(a) - {i});
      NoDuplicates(db.outbox, a);
      NoDuplicates(db.outbox, b);
      assert false;
    }
  }

  lemma {:induction false} CardinalityMonotone(a: set<Id>, b: set<Id>)
    requires a <= b
    ensures |a| <= |b|
  {
    if a != {} {
      var x :| x in a;
      CardinalityMonotone(a - {x}, b - {x});
    }
  }

  lemma {:induction false} NoDuplicates(outbox: map<Id, Row>, ids: seq<Id>)
    requires Sorted(outbox, ids)
    ensures |Members(ids)| == |ids|
  {
    if ids == [] {
      assert Members(ids) == {};
    } else {
      var front, last := ids[..|ids| - 1], ids[|ids| - 1];
      NoDuplicates(outbox, front);
      assert Members(ids) == Members(front) + {last};
      assert last !in front;
    }
  }

  lemma {:induction false} SortedIsUnique(outbox: map<Id, Row>, a: seq<Id>, b: seq<Id>)
    requires Sorted(outbox, a) && Sorted(outbox, b)
    requires Members(a) == Members(b)
    ensures a == b
    decreases |a|
  {
    NoDuplicates(outbox, a);
    NoDuplicates(outbox, b);
    if a != [] {
      assert a[0] in Members(b) && b[0] in Members(a);
      assert a[0] == b[0];
      assert a == [a[0]] + a[1..] && b == [b[0]] + b[1..];
      assert Members(a[1..]) == Members(a) - {a[0]};
      assert Members(b[1..]) == Members(b) - {b[0]};
      SortedIsUnique(outbox, a[1..], b[1..]);
    }
  }

  // ----- outbox rows -----

  function WithPublished(db: Db, i: Id): Db
    requires i in db.outbox
  {
    db.(outbox := db.outbox[i := db.outbox[i].(status := Published, nextAttemptAt := None)])
  }

  function WithRetry(db: Db, i: Id, nextAttemptAt: int): Db
    requires i in db.outbox
  {
    var row := db.outbox[i];
    db.(outbox := db.outbox[i := row.(status := Pending, failureCount := row.failureCount + 1,
                                      nextAttemptAt := Some(nextAttemptAt))])
  }

  function WithFailed(db: Db, i: Id): Db
    requires i in db.outbox
  {
    var row := db.outbox[i];
    db.(outbox := db.outbox[i := row.(status := Failed, failureCount := row.failureCount + 1,
                                      nextAttemptAt := None)])
  }

  class OutboxRepository {
    const session: Session

    constructor (session: Session)
      ensures this.session == session
    {
      this.session := session;
    }

    method FetchPending(limit: nat, now: int) returns (ids: seq<Id>)
      ensures ids == Fetch(session.db, now, limit)
      ensures OldestReady(session.db, now, limit, ids)
    {
      ids := Fetch(session.db, now, limit);
      FetchIsOldestReady(session.db, now, limit);
    }

    method MarkPublished(i: Id) returns (found: bool)
      modifies session`db
      ensures found <==> i in old(session.db).outbox
      ensures session.db == if found then WithPublished(old(session.db), i) else old(session.db)
    {
      if i !in session.db.outbox {
        return false;
      }
      var row := session.db.outbox[i].(status := Published, nextAttemptAt := None);
      session.db := session.db.(outbox := session.db.outbox[i := row]);
      return true;
    }

    method MarkRetryableFailure(i: Id, nextAttemptAt: int) returns (found: bool)
      modifies session`db
      ensures found <==> i in old(session.db).outbox
      ensures session.db == if found then WithRetry(old(session.db), i, nextAttemptAt)
                            else old(session.db)
    {
      if i !in session.db.outbox {
        return false;
      }
      var row := session.db.outbox[i];
      row := row.(status := Pending, failureCount := row.failureCount + 1, nextAttemptAt := Some(nextAttemptAt));
      session.db := session.db.(outbox := session.db.outbox[i := row]);
      return true;
    }

    method MarkFailed(i: Id) returns (found: bool)
      modifies session`db
      ensures found <==> i in old(session.db).outbox
      ensures session.db == if found then WithFailed(old(session.db), i) else old(session.db)
    {
      if i !in session.db.outbox {
        return false;
      }
      var row := session.db.outbox[i];
      row := row.(status := Failed, failureCount := row.failureCount + 1, nextAttemptAt := None);
      session.db := session.db.(outbox := session.db.outbox[i := row]);
      return true;
    }
  }

  // ----- processing attempts -----

  predicate Concerns(a: Attempt, i: Id, consumer: Consumer) {
    a.eventId == i && a.consumer == consumer
  }

  /** The attempts of one event by one consumer, in the order they were recorded. */
  function AttemptsOf(attempts: seq<Attempt>, i: Id, consumer: Consumer): (own: seq<Attempt>)
    ensures forall a | a in own :: Concerns(a, i, consumer)
  {
    if attempts == [] then []
    else
      var n := |attempts| - 1;
      AttemptsOf(attempts[..n], i, consumer) + if Concerns(attempts[n], i, consumer) then [attempts[n]] else []
  }

  /** The largest number, 0 when there is none. */
  function Latest(own: seq<Attempt>): (latest: int)
    ensures forall a | a in own :: a.number <= latest
    ensures latest == 0 || exists a | a in own :: a.number == latest
    ensures latest >= 0
  {
    if own == [] then 0
    else
      var rest, a := Latest(own[..|own| - 1]), own[|own| - 1];
      assert own == own[..|own| - 1] + [a];
      if a.number > rest then a.number else rest
  }

  function NextAttemptNumber(db: Db, i: Id, consumer: Consumer): int {
    Latest(AttemptsOf(db.attempts, i, consumer)) + 1
  }

  /** One above the largest number recorded for the event and the consumer, 1 when there is none. */
  ghost predicate NumberedNext(attempts: seq<Attempt>, i: Id, consumer: Consumer, number: int) {
    && number >= 1
    && (forall a | a in attempts && a.eventId == i && a.consumer == consumer :: a.number < number)
    && (number > 1 ==>
          exists a :: a in attempts && a.eventId == i && a.consumer == consumer && a.number == number - 1)
  }

  lemma {:induction false} OwnAreRecorded(attempts: seq<Attempt>, i: Id, consumer: Consumer)
    ensures forall a :: a in AttemptsOf(attempts, i, consumer) <==>
                        a in attempts && a.eventId == i && a.consumer == consumer
  {
    if attempts != [] {
      var n := |attempts| - 1;
      OwnAreRecorded(attempts[..n], i, consumer);
      assert attempts == attempts[..n] + [attempts[n]];
    }
  }

  lemma NextIsAboveAll(db: Db, i: Id, consumer: Consumer)
    ensures NumberedNext(db.attempts, i, consumer, NextAttemptNumber(db, i, consumer))
  {
    OwnAreRecorded(db.attempts, i, consumer);
  }

  function WithAttempt(db: Db, i: Id, consumer: Consumer, now: int): Db {
    db.(attempts := db.attempts + [Attempt(i, consumer, NextAttemptNumber(db, i, consumer), now)])
  }

  lemma AttemptsAppend(attempts: seq<Attempt>, a: Attempt, i: Id, consumer: Consumer)
    ensures AttemptsOf(attempts + [a], i, consumer)
            == AttemptsOf(attempts, i, consumer) + if Concerns(a, i, consumer) then [a] else []
  {
    assert (attempts + [a])[..|attempts|] == attempts;
  }

  class EventProcessingAttemptRepository {
    const session: Session

    constructor (session: Session)
      ensures this.session == session
    {
      this.session := session;
    }

    method RecordFailure(i: Id, consumer: Consumer, now: int) returns (number: int)
      modifies session`db
      ensures number == NextAttemptNumber(old(session.db), i, consumer)
      ensures session.db == WithAttempt(old(session.db), i, consumer, now)
      ensures NumberedNext(old(session.db).attempts, i, consumer, number)
    {
      NextIsAboveAll(session.db, i, consumer);
      number := NextAttemptNumber(session.db, i, consumer);
      session.db := session.db.(attempts := session.db.attempts + [Attempt(i, consumer, number, now)]);
    }

    /** The number of places in the attempts table that hold a failure of this event and consumer. */
    method CountFailures(i: Id, consumer: Consumer) returns (count: nat)
      ensures count == |Places(session.db.attempts, i, consumer)|
    {
      count := 0;
      var attempts := session.db.attempts;
      for k := 0 to |attempts|
        invariant count == |Places(attempts[..k], i, consumer)|
      {
        OnePlaceMore(attempts, i, consumer, k);
        if Concerns(attempts[k], i, consumer) {
          count := count + 1;
        }
      }
      assert attempts[..|attempts|] == attempts;
    }
  }

  function Places(attempts: seq<Attempt>, i: Id, consumer: Consumer): set<nat> {
    set k: nat | k < |attempts| && attempts[k].eventId == i && attempts[k].consumer == consumer
  }

  lemma OnePlaceMore(attempts: seq<Attempt>, i: Id, consumer: Consumer, k: nat)
    requires k < |attempts|
    ensures |Places(attempts[..k + 1], i, consumer)|
            == |Places(attempts[..k], i, consumer)| + if Concerns(attempts[k], i, consumer) then 1 else 0
  {
    var less, more := Places(attempts[..k], i, consumer), Places(attempts[..k + 1], i, consumer);
    assert k !in less;
    assert more == if Concerns(attempts[k], i, consumer) then less + {k} else less;
  }

  /** The count is that of the attempts the numbering is about. */
  lemma {:induction false} CountIsOwn(attempts: seq<Attempt>, i: Id, consumer: Consumer)
    ensures |Places(attempts, i, consumer)| == |AttemptsOf(attempts, i, consumer)|
  {
    if attempts == [] {
      assert Places(attempts, i, consumer) == {};
    } else {
      var n := |attempts| - 1;
      CountIsOwn(attempts[..n], i, consumer);
      OnePlaceMore(attempts, i, consumer, n);
      assert attempts[..n + 1] == attempts;
    }
  }

  // ----- dead letters -----

  function WithDeadLetter(db: Db, i: Id, consumer: Consumer, number: int, now: int, letterId: Id): Db
    requires i in db.outbox
  {
    db.(deadLetters := db.deadLetters[letterId := DeadLetter(i, db.outbox[i].event, consumer, number, now, None)])
  }

  datatype ReplayResult = NotFound | AlreadyReplayed | Replayed

  predicate Replayable(db: Db, d: Id) {
    d in db.deadLetters && db.deadLetters[d].replayedAt.None?
  }

  /** A replay is a new outbox row, under a new event id, with the old event. */
  function WithReplay(db: Db, d: Id, now: int, newId: Id): Db
    requires Replayable(db, d)
  {
    var letter := db.deadLetters[d];
    db.(outbox := db.outbox[newId := Row(letter.event, now, Pending, None, 0)],
        deadLetters := db.deadLetters[d := letter.(replayedAt := Some(now))])
  }

  class DeadLetterEventRepository {
    const session: Session

    constructor (session: Session)
      ensures this.session == session
    {
      this.session := session;
    }

    method MoveToDeadLetter(i: Id, consumer: Consumer, number: int, now: int, letterId: Id)
      requires i in session.db.outbox
      modifies session`db
      ensures session.db == WithDeadLetter(old(session.db), i, consumer, number, now, letterId)
    {
      var letter := DeadLetter(i, session.db.outbox[i].event, consumer, number, now, None);
      session.db := session.db.(deadLetters := session.db.deadLetters[letterId := letter]);
    }

    method Replay(d: Id, now: int, newId: Id) returns (result: ReplayResult)
      modifies session`db
      ensures result.NotFound? <==> d !in old(session.db).deadLetters
      ensures result.Replayed? <==> Replayable(old(session.db), d)
      ensures session.db == if result.Replayed? then WithReplay(old(session.db), d, now, newId)
                            else old(session.db)
    {
      if d !in session.db.deadLetters {
        return NotFound;
      }
      var letter := session.db.deadLetters[d];
      if letter.replayedAt.Some? {
        return AlreadyReplayed;
      }
      var row := Row(letter.event, now, Pending, None, 0);
      session.db := session.db.(outbox := session.db.outbox[newId := row],
                                deadLetters := session.db.deadLetters[d := letter.(replayedAt := Some(now))]);
      return Replayed;
    }
  }
}
