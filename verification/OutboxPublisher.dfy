/** Broker mode: rows are published to an append-only log, marked, and committed once per batch. */
module OutboxPublisher {
  import opened Tables
  import opened Sessions
  import opened EventsRepository
  import opened Dispatcher

  /** What one publish call did. A call can raise although the broker has taken the message. */
  datatype Sending = Acknowledged | Refused | Unconfirmed

  class Broker {
    var log: seq<Envelope>

    constructor ()
      ensures log == []
    {
      log := [];
    }

    method Publish(envelope: Envelope, sending: Sending) returns (raised: bool)
      modifies this
      ensures raised <==> !sending.Acknowledged?
      ensures log == old(log) + Taken(envelope, sending)
    {
      if !sending.Refused? {
        log := log + [envelope];
      }
      raised := !sending.Acknowledged?;
    }
  }

  function Taken(envelope: Envelope, sending: Sending): seq<Envelope> {
    if sending.Refused? then [] else [envelope]
  }

  datatype World = World(db: Db, log: seq<Envelope>)

  /** The environment's answer to the n-th publish call of a batch. */
  function Answer(sendings: nat -> Sending, n: nat): Sending {
    sendings(n)
  }

  function PublishOne(w: World, i: Id, sending: Sending): (after: World)
    requires i in w.db.outbox
    ensures after.db.outbox.Keys == w.db.outbox.Keys
  {
    World(if sending.Acknowledged? then WithPublished(w.db, i) else WithFailed(w.db, i),
          w.log + Taken(EnvelopeOf(w.db, i), sending))
  }

  /** The working copy and the log after all of `ids`. */
  function PublishAll(w: World, ids: seq<Id>, sendings: nat -> Sending): (after: World)
    requires forall i | i in ids :: i in w.db.outbox
    ensures after.db.outbox.Keys == w.db.outbox.Keys
  {
    if ids == [] then w
    else
      var n := |ids| - 1;
      assert ids[n] in ids;
      PublishOne(PublishAll(w, ids[..n], sendings), ids[n], Answer(sendings, n))
  }

  method PublishPendingBatch(session: Session, broker: Broker, limit: nat, now: int, sendings: nat -> Sending)
    returns (count: nat)
    modifies session, broker
    ensures var ids := Fetch(old(session.db), now, limit);
            && count == |ids|
            && World(session.db, broker.log) == PublishAll(World(old(session.db), old(broker.log)), ids, sendings)
            && session.committed == session.db && session.log == old(session.log) + [session.db]
  {
    var repository := new OutboxRepository(session);
    var events := repository.FetchPending(limit, now);
    ghost var start := World(session.db, broker.log);
    assert events[..0] == [];
    for n := 0 to |events|
      invariant World(session.db, broker.log) == PublishAll(start, events[..n], sendings)
      invariant session.log == old(session.log) && session.committed == old(session.committed)
    {
      hide Fetch, PublishAll, WithPublished, WithFailed;
      OneMorePublished(start, events, sendings, n);
      var i := events[n];
      var raised := broker.Publish(EnvelopeOf(session.db, i), Answer(sendings, n));
      if !raised {
        var found := repository.MarkPublished(i);
      } else {
        var found := repository.MarkFailed(i);
      }
    }
    assert events[..|events|] == events;
    session.Commit();
    count := |events|;
  }

  lemma OneMorePublished(w: World, ids: seq<Id>, sendings: nat -> Sending, n: nat)
    requires n < |ids| && forall i | i in ids :: i in w.db.outbox
    ensures var part := PublishAll(w, ids[..n], sendings);
            && ids[n] in part.db.outbox
            && PublishAll(w, ids[..n + 1], sendings) == PublishOne(part, ids[n], Answer(sendings, n))
  {
    assert ids[..n + 1][..n] == ids[..n];
  }

  // ----- runs in broker mode -----

  datatype BrokerStep =
    // Committed by requests and consumers: new rows, all pending.
    | RowsAdded(rows: map<Id, Row>)
    | BatchPublished(limit: nat, now: int, sendings: nat -> Sending)
    // A crash after `sent` publish calls: the session is lost, the log is not.
    | BatchCrashed(limit: nat, now: int, sendings: nat -> Sending, sent: nat)

  predicate MayStep(w: World, step: BrokerStep) {
    match step
    case RowsAdded(rows) => rows.Keys !! w.db.outbox.Keys && forall i | i in rows :: rows[i].status.Pending?
    case BatchPublished(_, _, _) => true
    case BatchCrashed(limit, now, _, sent) => sent <= |Fetch(w.db, now, limit)|
  }

  function AfterStep(w: World, step: BrokerStep): World
    requires MayStep(w, step)
  {
    match step
    case RowsAdded(rows) => w.(db := w.db.(outbox := w.db.outbox + rows))
    case BatchPublished(limit, now, sendings) => PublishAll(w, Fetch(w.db, now, limit), sendings)
    case BatchCrashed(limit, now, sendings, sent) =>
      w.(log := PublishAll(w, Fetch(w.db, now, limit)[..sent], sendings).log)
  }

  predicate Runs(w: World, run: seq<BrokerStep>)
    decreases |run|, 0
  {
    run != [] ==>
      var front := run[..|run| - 1];
      Runs(w, front) && MayStep(Reach(w, front), run[|run| - 1])
  }

  function Reach(w: World, run: seq<BrokerStep>): World
    requires Runs(w, run)
    decreases |run|, 1
  {
    if run == [] then w else AfterStep(Reach(w, run[..|run| - 1]), run[|run| - 1])
  }

  function Crashes(run: seq<BrokerStep>): nat {
    if run == [] then 0
    else Crashes(run[..|run| - 1]) + if run[|run| - 1].BatchCrashed? then 1 else 0
  }

  /** Copies of event i in the log. */
  function Copies(log: seq<Envelope>, i: Id): nat {
    if log == [] then 0 else Copies(log[..|log| - 1], i) + if log[|log| - 1].id == i then 1 else 0
  }

  lemma CopiesAppend(log: seq<Envelope>, envelope: Envelope, sending: Sending, i: Id)
    ensures Copies(log + Taken(envelope, sending), i)
            == Copies(log, i) + if !sending.Refused? && envelope.id == i then 1 else 0
  {
    if sending.Refused? {
      assert log + [] == log;
    } else {
      assert (log + [envelope])[..|log|] == log;
    }
  }

  lemma {:induction false} CopiesMeanPresence(log: seq<Envelope>, i: Id)
    ensures Copies(log, i) > 0 <==> exists e :: e in log && e.id == i
  {
    if log != [] {
      var n := |log| - 1;
      CopiesMeanPresence(log[..n], i);
      assert log == log[..n] + [log[n]];
      if log[n].id == i {
        assert log[n] in log;
      }
    }
  }

  // ----- a batch -----

  lemma PublishOneEffect(w: World, i: Id, sending: Sending, j: Id)
    requires i in w.db.outbox && j in w.db.outbox
    ensures var after := PublishOne(w, i, sending);
            && after.db == w.db.(outbox := after.db.outbox)
            && (if i != j then after.db.outbox[j] == w.db.outbox[j]
                else && after.db.outbox[j].event == w.db.outbox[j].event
                     && after.db.outbox[j].status == (if sending.Acknowledged? then Published else Failed)
                     && after.db.outbox[j].nextAttemptAt == None
                     && after.db.outbox[j].failureCount
                        == w.db.outbox[j].failureCount + if sending.Acknowledged? then 0 else 1)
            && Copies(after.log, j) == Copies(w.log, j) + if !sending.Refused? && i == j then 1 else 0
  {
    hide Copies;
    CopiesAppend(w.log, EnvelopeOf(w.db, i), sending, j);
  }

  ghost predicate Different(ids: seq<Id>) {
    forall p, q | 0 <= p < q < |ids| :: ids[p] != ids[q]
  }

  /** Rows a batch in flight has not come to are untouched. */
  lemma {:induction false} NotYetSent(w: World, ids: seq<Id>, sendings: nat -> Sending, n: nat, i: Id)
    requires (forall k | k in ids :: k in w.db.outbox) && n <= |ids| && i in w.db.outbox && i !in ids[..n]
    ensures var after := PublishAll(w, ids[..n], sendings);
            after.db.outbox[i] == w.db.outbox[i] && Copies(after.log, i) == Copies(w.log, i)
    decreases n
  {
    hide PublishOne, Copies;
    if n == 0 {
      assert ids[..0] == [];
    } else {
      var m := n - 1;
      assert ids[m] in ids[..n] && forall k | k in ids[..m] :: k in ids[..n];
      NotYetSent(w, ids, sendings, m, i);
      OneMorePublished(w, ids, sendings, m);
      PublishOneEffect(PublishAll(w, ids[..m], sendings), ids[m], Answer(sendings, m), i);
    }
  }

  /** The p-th row of a batch is marked and sent as the p-th answer says, once. */
  lemma {:induction false} Sent(w: World, ids: seq<Id>, sendings: nat -> Sending, n: nat, p: nat)
    requires (forall k | k in ids :: k in w.db.outbox) && Different(ids) && p < n <= |ids|
    ensures var after, i := PublishAll(w, ids[..n], sendings), ids[p];
            && after.db.outbox[i].event == w.db.outbox[i].event
            && after.db.outbox[i].status == (if Answer(sendings, p).Acknowledged? then Published else Failed)
            && after.db.outbox[i].nextAttemptAt == None
            && after.db.outbox[i].failureCount
               == w.db.outbox[i].failureCount + (if Answer(sendings, p).Acknowledged? then 0 else 1)
            && Copies(after.log, i) == Copies(w.log, i) + if Answer(sendings, p).Refused? then 0 else 1
    decreases n
  {
    hide PublishAll, PublishOne, Copies;
    var m := n - 1;
    OneMorePublished(w, ids, sendings, m);
    PublishOneEffect(PublishAll(w, ids[..m], sendings), ids[m], Answer(sendings, m), ids[p]);
    if p == m {
      NotYetSent(w, ids, sendings, m, ids[m]);
    } else {
      Sent(w, ids, sendings, m, p);
    }
  }

  lemma {:induction false} OnlyOutboxMoves(w: World, ids: seq<Id>, sendings: nat -> Sending)
    requires forall k | k in ids :: k in w.db.outbox
    ensures var after := PublishAll(w, ids, sendings); after.db == w.db.(outbox := after.db.outbox)
    ensures w.log <= PublishAll(w, ids, sendings).log
    ensures forall i | i in w.db.outbox :: PublishAll(w, ids, sendings).db.outbox[i].event == w.db.outbox[i].event
  {
    if ids != [] {
      var n := |ids| - 1;
      OnlyOutboxMoves(w, ids[..n], sendings);
    }
  }

  // ----- what holds over runs -----

  /** The log, reduced to event ids, names committed rows only, with the events those rows carry. */
  ghost predicate LogSound(w: World) {
    forall e | e in w.log :: e.id in w.db.outbox && e.event == w.db.outbox[e.id].event
  }

  /** After c crashes: a published row is in the log, and no row more than once more than crashes explain. */
  predicate RowCounted(row: Row, copies: nat, c: nat) {
    && (row.status.Published? ==> copies >= 1)
    && copies <= c + if row.status.Pending? then 0 else 1
  }

  ghost predicate Counted(w: World, c: nat) {
    forall i | i in w.db.outbox :: RowCounted(w.db.outbox[i], Copies(w.log, i), c)
  }

  lemma FetchIsDistinct(db: Db, now: int, limit: nat)
    ensures Different(Fetch(db, now, limit))
  {
    FetchIsOldestReady(db, now, limit);
  }

  lemma {:induction false} BatchKeepsLogSound(w: World, ids: seq<Id>, sendings: nat -> Sending)
    requires LogSound(w) && forall k | k in ids :: k in w.db.outbox
    ensures LogSound(World(w.db, PublishAll(w, ids, sendings).log)) && LogSound(PublishAll(w, ids, sendings))
  {
    hide WithPublished, WithFailed;
    OnlyOutboxMoves(w, ids, sendings);
    if ids != [] {
      var n := |ids| - 1;
      BatchKeepsLogSound(w, ids[..n], sendings);
      OnlyOutboxMoves(w, ids[..n], sendings);
    }
  }

  lemma BatchCounts(w: World, ids: seq<Id>, sendings: nat -> Sending, n: nat, c: nat, i: Id)
    requires (forall k | k in ids :: k in w.db.outbox && w.db.outbox[k].status.Pending?) && Different(ids) && n <= |ids|
    requires i in w.db.outbox && RowCounted(w.db.outbox[i], Copies(w.log, i), c)
    ensures var after := PublishAll(w, ids[..n], sendings);
            && RowCounted(after.db.outbox[i], Copies(after.log, i), c)
            && RowCounted(w.db.outbox[i], Copies(after.log, i), c + 1)
  {
    hide PublishAll, Copies;
    if i in ids[..n] {
      var p :| 0 <= p < n && ids[..n][p] == i;
      Sent(w, ids, sendings, n, p);
    } else {
      NotYetSent(w, ids, sendings, n, i);
    }
  }

  lemma StepCounts(w: World, step: BrokerStep, c: nat)
    requires MayStep(w, step) && LogSound(w) && Counted(w, c)
    ensures LogSound(AfterStep(w, step)) && Counted(AfterStep(w, step), if step.BatchCrashed? then c + 1 else c)
  {
    hide PublishAll, Copies, Fetch, RowCounted;
    var after := AfterStep(w, step);
    match step {
      case RowsAdded(rows) =>
        forall i | i in after.db.outbox ensures RowCounted(after.db.outbox[i], Copies(after.log, i), c) {
          if i in rows {
            NewRowCounted(w, rows, i, c);
          }
        }
      case BatchPublished(limit, now, sendings) =>
        var ids := Fetch(w.db, now, limit);
        FetchIsDistinct(w.db, now, limit);
        BatchKeepsLogSound(w, ids, sendings);
        assert ids[..|ids|] == ids;
        forall i | i in after.db.outbox ensures RowCounted(after.db.outbox[i], Copies(after.log, i), c) {
          BatchCounts(w, ids, sendings, |ids|, c, i);
        }
      case BatchCrashed(limit, now, sendings, sent) =>
        var ids := Fetch(w.db, now, limit);
        FetchIsDistinct(w.db, now, limit);
        BatchKeepsLogSound(w, ids[..sent], sendings);
        forall i | i in after.db.outbox ensures RowCounted(after.db.outbox[i], Copies(after.log, i), c + 1) {
          BatchCounts(w, ids, sendings, sent, c, i);
        }
    }
  }

  lemma NewRowCounted(w: World, rows: map<Id, Row>, i: Id, c: nat)
    requires LogSound(w) && i in rows && i !in w.db.outbox && rows[i].status.Pending?
    ensures RowCounted(rows[i], Copies(w.log, i), c)
  {
    hide Copies;
    CopiesMeanPresence(w.log, i);
  }

  /** At-least-once publishing: after any run, every row marked PUBLISHED is in the log, the log carries committed
      rows only, and a row is in it at most once more than there were crashes: they cost marks, never messages. */
  lemma {:induction false} AtLeastOnce(w: World, run: seq<BrokerStep>)
    requires Runs(w, run) && w.log == [] && forall i | i in w.db.outbox :: w.db.outbox[i].status.Pending?
    ensures LogSound(Reach(w, run)) && Counted(Reach(w, run), Crashes(run))
    decreases |run|
  {
    hide MayStep, AfterStep;
    if run != [] {
      var n := |run| - 1;
      AtLeastOnce(w, run[..n]);
      StepCounts(Reach(w, run[..n]), run[n], Crashes(run[..n]));
    }
  }

  /** The same in terms of event ids: deduplicated, the log is a set of committed rows with all published ones. */
  lemma DeduplicatedLog(w: World, run: seq<BrokerStep>)
    requires Runs(w, run) && w.log == [] && forall i | i in w.db.outbox :: w.db.outbox[i].status.Pending?
    ensures var after := Reach(w, run);
            var ids := set e | e in after.log :: e.id;
            && (set i | i in after.db.outbox && after.db.outbox[i].status.Published?) <= ids <= after.db.outbox.Keys
            && forall e, f | e in after.log && f in after.log && e.id == f.id :: e == f
  {
    hide Reach, Runs, Copies;
    AtLeastOnce(w, run);
    var after := Reach(w, run);
    forall i | i in after.db.outbox && after.db.outbox[i].status.Published?
      ensures exists e :: e in after.log && e.id == i
    {
      assert RowCounted(after.db.outbox[i], Copies(after.log, i), Crashes(run));
      CopiesMeanPresence(after.log, i);
    }
  }

  // ----- order -----

  /** Row a was written before row b, or with the same stamp under a smaller id. */
  predicate Older(outbox: map<Id, Row>, a: Id, b: Id)
    requires a in outbox && b in outbox
  {
    outbox[a].occurredAt < outbox[b].occurredAt || (outbox[a].occurredAt == outbox[b].occurredAt && a < b)
  }

  /** What is in the log from place `from` on is of these rows, and oldest first. */
  ghost predicate InOrderFrom(w: World, log: seq<Envelope>, from: nat, ids: seq<Id>) {
    && from <= |log| && (forall x | from <= x < |log| :: log[x].id in ids && log[x].id in w.db.outbox)
    && (forall x, y | from <= x < y < |log| :: Older(w.db.outbox, log[x].id, log[y].id))
  }

  lemma {:induction false} SentInOrder(w: World, ids: seq<Id>, sendings: nat -> Sending, n: nat)
    requires (forall i | i in ids :: i in w.db.outbox) && n <= |ids|
    requires forall p, q | 0 <= p < q < |ids| :: Older(w.db.outbox, ids[p], ids[q])
    ensures InOrderFrom(w, PublishAll(w, ids[..n], sendings).log, |w.log|, ids[..n])
    decreases n
  {
    hide PublishOne, InOrderFrom;
    if n == 0 {
      assert ids[..0] == [];
      NothingInOrder(w);
    } else {
      var m := n - 1;
      SentInOrder(w, ids, sendings, m);
      OneMorePublished(w, ids, sendings, m);
      var part := PublishAll(w, ids[..m], sendings);
      LogOfOne(part, ids[m], sendings, m);
      OneMoreInOrder(w, part.log, |w.log|, ids, m, EnvelopeOf(part.db, ids[m]), Answer(sendings, m));
    }
  }

  lemma NothingInOrder(w: World)
    ensures InOrderFrom(w, w.log, |w.log|, [])
  {
  }

  lemma OneMoreInOrder(w: World, log: seq<Envelope>, from: nat, ids: seq<Id>, m: nat, envelope: Envelope,
                       sending: Sending)
    requires m < |ids| && (forall i | i in ids :: i in w.db.outbox) && InOrderFrom(w, log, from, ids[..m])
    requires forall p, q | 0 <= p < q < |ids| :: Older(w.db.outbox, ids[p], ids[q])
    requires envelope.id == ids[m]
    ensures InOrderFrom(w, log + Taken(envelope, sending), from, ids[..m + 1])
  {
    hide Older;
    var next := log + Taken(envelope, sending);
    assert ids[..m + 1] == ids[..m] + [ids[m]];
    forall x, y | from <= x < y < |next| ensures Older(w.db.outbox, next[x].id, next[y].id) {
      if y == |log| {
        var p :| 0 <= p < m && ids[..m][p] == log[x].id;
      }
    }
  }

  lemma LogOfOne(w: World, i: Id, sendings: nat -> Sending, n: nat)
    requires i in w.db.outbox
    ensures PublishOne(w, i, Answer(sendings, n)).log == w.log + Taken(EnvelopeOf(w.db, i), Answer(sendings, n))
  {
  }

  /** A batch, completed or crashed after any number of calls, adds to the log oldest row first. */
  lemma BatchSendsInOrder(w: World, limit: nat, now: int, sendings: nat -> Sending, sent: nat)
    requires sent <= |Fetch(w.db, now, limit)|
    ensures var ids := Fetch(w.db, now, limit)[..sent];
            InOrderFrom(w, PublishAll(w, ids, sendings).log, |w.log|, ids)
  {
    hide Fetch, PublishAll;
    FetchIsOldestReady(w.db, now, limit);
    SentInOrder(w, Fetch(w.db, now, limit), sendings, sent);
  }

  // ----- what is lost -----

  /** A row the publisher has marked is never sent again, however the run goes on: FAILED is final here. */
  lemma {:induction false} MarkedIsFinal(w: World, run: seq<BrokerStep>, i: Id)
    requires Runs(w, run) && i in w.db.outbox && !w.db.outbox[i].status.Pending?
    ensures var after := Reach(w, run);
            i in after.db.outbox && after.db.outbox[i] == w.db.outbox[i] && Copies(after.log, i) == Copies(w.log, i)
    decreases |run|
  {
    hide Copies, MayStep, AfterStep;
    if run != [] {
      var n := |run| - 1;
      MarkedIsFinal(w, run[..n], i);
      MarkedStays(Reach(w, run[..n]), run[n], i);
    }
  }

  lemma MarkedStays(w: World, step: BrokerStep, i: Id)
    requires MayStep(w, step) && i in w.db.outbox && !w.db.outbox[i].status.Pending?
    ensures var after := AfterStep(w, step);
            i in after.db.outbox && after.db.outbox[i] == w.db.outbox[i] && Copies(after.log, i) == Copies(w.log, i)
  {
    hide Copies, PublishAll, Fetch;
    match step {
      case RowsAdded(_) =>
      case BatchPublished(limit, now, sendings) =>
        var ids := Fetch(w.db, now, limit);
        assert ids[..|ids|] == ids && i !in ids;
        NotYetSent(w, ids, sendings, |ids|, i);
      case BatchCrashed(limit, now, sendings, sent) =>
        var ids := Fetch(w.db, now, limit);
        assert i !in ids;
        NotYetSent(w, ids, sendings, sent, i);
    }
  }

  /** Exactly when a message is lost for good: a row of a completed batch stays out of the log, in this batch and
      ever after, if and only if the broker refused it and no crashed batch had sent it before. No dead letter
      is written for it. */
  lemma LostIffRefused(w: World, limit: nat, now: int, sendings: nat -> Sending, rest: seq<BrokerStep>, p: nat)
    requires p < |Fetch(w.db, now, limit)|
    requires Runs(AfterStep(w, BatchPublished(limit, now, sendings)), rest)
    ensures var i := Fetch(w.db, now, limit)[p];
            var after := Reach(AfterStep(w, BatchPublished(limit, now, sendings)), rest);
            && i in after.db.outbox
            && (Copies(after.log, i) == 0 <==> Answer(sendings, p).Refused? && Copies(w.log, i) == 0)
            && (after.db.outbox[i].status.Published? <==> Answer(sendings, p).Acknowledged?)
            && after.db.outbox[i].nextAttemptAt == None
            && after.db.outbox[i].failureCount
               == w.db.outbox[i].failureCount + if Answer(sendings, p).Acknowledged? then 0 else 1
  {
    hide Copies, PublishAll, Fetch, Runs, Reach;
    var ids := Fetch(w.db, now, limit);
    FetchIsDistinct(w.db, now, limit);
    Sent(w, ids, sendings, |ids|, p);
    assert ids[..|ids|] == ids;
    MarkedIsFinal(AfterStep(w, BatchPublished(limit, now, sendings)), rest, ids[p]);
  }

  lemma NoLetterWritten(w: World, step: BrokerStep)
    requires MayStep(w, step)
    ensures AfterStep(w, step).db.deadLetters == w.db.deadLetters
  {
    hide Fetch;
    match step {
      case RowsAdded(_) =>
      case BatchPublished(limit, now, sendings) => OnlyOutboxMoves(w, Fetch(w.db, now, limit), sendings);
      case BatchCrashed(_, _, _, _) =>
    }
  }
}
