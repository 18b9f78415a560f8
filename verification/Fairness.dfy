/** No ready row is overtaken for ever: rows ahead of it in the queue use up their attempts. */
module Fairness {
  import opened Tables
  import opened Sums
  import opened EventsRepository
  import opened Inbox
  import opened Dispatcher
  import opened Saga
  import opened Business
  import opened Soundness
  import opened RetryLedger
  import opened Deliveries
  import opened Termination

  /** The attempts a pending row ahead of `e` still has. */
  function LeftAhead(cfg: Config, outbox: map<Id, Row>, i: Id, e: Id): int
    requires i in outbox && e in outbox
  {
    if outbox[i].status.Pending? && Before(outbox, i, e) then Allowed(cfg) - outbox[i].failureCount else 0
  }

  ghost function LeftsAhead(cfg: Config, db: Db, e: Id): map<Id, int>
    requires e in db.outbox
  {
    map i | i in db.outbox :: LeftAhead(cfg, db.outbox, i, e)
  }

  /** How many deliveries of other rows can still come before `e`. */
  ghost function Overtakings(cfg: Config, db: Db, e: Id): int
    requires e in db.outbox
  {
    Total(LeftsAhead(cfg, db, e))
  }

  function Ahead(db: Db, e: Id): set<Id>
    requires e in db.outbox
  {
    set i | i in db.outbox && db.outbox[i].status.Pending? && Before(db.outbox, i, e)
  }

  lemma LeftBounds(cfg: Config, db: Db, i: Id, e: Id)
    requires Ledger(cfg, db) && i in db.outbox && e in db.outbox
    ensures 0 <= LeftAhead(cfg, db.outbox, i, e) <= Allowed(cfg)
    ensures db.outbox[i].status.Pending? && Before(db.outbox, i, e) ==> LeftAhead(cfg, db.outbox, i, e) >= 1
  {
    assert RowLedger(cfg, db.outbox[i], Own(cfg, db, i));
  }

  /** At most M for each of the rows ahead. */
  lemma OvertakingsBound(cfg: Config, db: Db, e: Id)
    requires Ledger(cfg, db) && e in db.outbox
    ensures 0 <= Overtakings(cfg, db, e) <= |Ahead(db, e)| * Allowed(cfg)
  {
    hide Ledger;
    forall i | i in db.outbox ensures 0 <= LeftsAhead(cfg, db, e)[i] <= Allowed(cfg) {
      LeftBounds(cfg, db, i, e);
    }
    TotalWithin(LeftsAhead(cfg, db, e), Ahead(db, e), Allowed(cfg));
  }

  /** What a delivery does to the row it delivers. */
  lemma DeliveredRow(cfg: Config, db: Db, i: Id, ch: Choice)
    requires Sound(cfg, db) && i in db.outbox && db.outbox[i].status.Pending? && FreshIds(db, ch)
    ensures var after := Deliver(cfg, db, i, ch);
            && i in after.outbox
            && (after.outbox[i].status.Pending? ==> after.outbox[i].failureCount == db.outbox[i].failureCount + 1)
  {
    hide Handle, AfterFailure, Sound;
    match HandleRow(cfg, db, i, ch) {
      case Raised(_) =>
        FailureIsClean(cfg, db, i, ch);
        FailureWrites(cfg, db, i, ch);
      case _ =>
    }
  }

  /** Delivering a row ahead of e uses up one of its attempts at least, and puts nothing new ahead of e. */
  lemma DeliveryAhead(cfg: Config, db: Db, e: Id, i: Id, ch: Choice)
    requires Sound(cfg, db) && Ledger(cfg, db) && e in db.outbox && i in db.outbox && FreshIds(db, ch)
    requires db.outbox[i].status.Pending? && Before(db.outbox, i, e) && ch.now > db.outbox[e].occurredAt
    ensures var after := Deliver(cfg, db, i, ch);
            && e in after.outbox && after.outbox[e] == db.outbox[e]
            && Overtakings(cfg, after, e) <= Overtakings(cfg, db, e) - 1
  {
    hide Deliver, Sound, Ledger;
    var after, n := Deliver(cfg, db, i, ch), ch.eventId;
    DeliveryConfined(cfg, db, i, ch);
    DeliveredRow(cfg, db, i, ch);
    LeftBounds(cfg, db, i, e);
    TotalMoves(LeftsAhead(cfg, db, e), LeftsAhead(cfg, after, e), i, n);
  }

  /** Row times never change. */
  ghost predicate SameTimes(a: Db, b: Db) {
    forall i | i in a.outbox :: i in b.outbox && b.outbox[i].occurredAt == a.outbox[i].occurredAt
  }

  /** From the n-th reading on the clock is past `t`, so rows added from then on come later than a row of time t. */
  ghost predicate PastFrom(env: nat -> Choice, n: nat, t: int) {
    forall m: nat | m >= n :: At(env, m).now > t
  }

  ghost predicate AllBefore(outbox: map<Id, Row>, ids: seq<Id>, j: nat, e: Id)
    requires e in outbox
  {
    j <= |ids| && forall p | 0 <= p < j :: ids[p] in outbox && Before(outbox, ids[p], e)
  }

  lemma {:induction false} BatchAhead(cfg: Config, db: Db, e: Id, ids: seq<Id>,
                                      env: nat -> Choice, k: nat, j: nat, now: int)
    requires InBatch(cfg, db, ids, env, k, 0, now) && Monotone(env) && At(env, k).now >= now
    requires forall i | i in ids :: i in db.outbox
    requires e in db.outbox && AllBefore(db.outbox, ids, j, e) && PastFrom(env, k, db.outbox[e].occurredAt)
    ensures var after := DeliverAll(cfg, db, ids[..j], env, k);
            && e in after.outbox && after.outbox[e] == db.outbox[e] && SameTimes(db, after)
            && Overtakings(cfg, after, e) <= Overtakings(cfg, db, e) - j
    decreases j
  {
    hide Deliver, Overtakings, Sound, Ledger, InBatch, DeliverAll, Monotone, PastFrom, Commits, CommitsAll;
    if j == 0 {
      assert ids[..0] == [];
      NothingDelivered(cfg, db, env, k);
    } else {
      var prev := j - 1;
      BatchAhead(cfg, db, e, ids, env, k, prev, now);
      BatchReaches(cfg, db, ids, env, k, prev, now);
      OneMore(cfg, db, ids, env, k, prev);
      var part := DeliverAll(cfg, db, ids[..prev], env, k);
      DeliverableInBatch(cfg, part, ids, env, k, prev, now);
      StillPast(env, k, k + prev, db.outbox[e].occurredAt);
      DeliveryAhead(cfg, part, e, ids[prev], At(env, k + prev));
      DeliveryConfined(cfg, part, ids[prev], At(env, k + prev));
    }
  }

  lemma StillPast(env: nat -> Choice, n: nat, m: nat, t: int)
    requires PastFrom(env, n, t) && m >= n
    ensures PastFrom(env, m, t) && At(env, m).now > t
  {
  }

  // ----- what may happen between two batches -----

  /** Rows stay as they are and new ones come after e: all that creations, redeliveries and replays do. */
  ghost predicate Interlude(a: Db, b: Db, e: Id) {
    && e in a.outbox
    && (forall i | i in a.outbox :: i in b.outbox && b.outbox[i] == a.outbox[i])
    && (forall i | i in b.outbox && i !in a.outbox :: !Before(b.outbox, i, e))
  }

  predicate ByOthers(step: Step) {
    !step.EventPublished? && !step.DeliveryFailed?
  }

  predicate ReadAfter(step: Step, t: int) {
    ClockOf(step).Some? ==> ClockOf(step).value > t
  }

  lemma SameRowsAreInterlude(a: Db, b: Db, e: Id)
    requires e in a.outbox && b.outbox == a.outbox
    ensures Interlude(a, b, e)
  {
  }

  /** Every step that is not the dispatcher's is such an interlude, once the clock is past e's time. */
  lemma OtherStepsAreInterludes(cfg: Config, db: Db, step: Step, e: Id)
    requires Enabled(cfg, db, step) && ByOthers(step) && e in db.outbox && ReadAfter(step, db.outbox[e].occurredAt)
    ensures Interlude(db, Next(cfg, db, step), e)
  {
    var after := Next(cfg, db, step);
    match step {
      case StockAdded(_, _) => SameRowsAreInterlude(db, after, e);
      case ResponseStored(_, _, _) => SameRowsAreInterlude(db, after, e);
      case OrderPlaced(_, _, _, _, _) =>
      case LetterReplayed(_, _) =>
      case EventHandled(_, _, _) => HandlingIsInterlude(cfg, db, step, e);
    }
  }

  lemma HandlingIsInterlude(cfg: Config, db: Db, step: Step, e: Id)
    requires step.EventHandled? && Enabled(cfg, db, step) && e in db.outbox
    requires ReadAfter(step, db.outbox[e].occurredAt)
    ensures Interlude(db, Next(cfg, db, step), e)
  {
    hide Handle;
    HandlerConfined(db, Delivered(db, step.i, step.forced), step.ch);
  }

  /** Steps of requests, redeliveries and replays, taken after time t. */
  predicate OthersAfter(run: seq<Step>, t: int) {
    forall step | step in run :: ByOthers(step) && ReadAfter(step, t)
  }

  /** Whatever others do between two batches is an interlude, and keeps the invariants. */
  lemma {:induction false} OthersAreInterlude(cfg: Config, db: Db, run: seq<Step>, e: Id)
    requires Sound(cfg, db) && Ledger(cfg, db) && Valid(cfg, db, run)
    requires e in db.outbox && OthersAfter(run, db.outbox[e].occurredAt)
    ensures Interlude(db, After(cfg, db, run), e)
    ensures Sound(cfg, After(cfg, db, run)) && Ledger(cfg, After(cfg, db, run))
    decreases |run|
  {
    hide Sound, Ledger, Enabled, Next, ReadAfter;
    ReachableIsSound(cfg, db, run);
    ReachableLedger(cfg, db, run);
    if run == [] {
      SameRowsAreInterlude(db, db, e);
    } else {
      var front := run[..|run| - 1];
      assert run[|run| - 1] in run;
      OthersAreInterlude(cfg, db, front, e);
      var before := After(cfg, db, front);
      assert before.outbox[e] == db.outbox[e];
      OtherStepsAreInterludes(cfg, before, run[|run| - 1], e);
    }
  }

  lemma InterludeAddsNothing(cfg: Config, a: Db, b: Db, e: Id)
    requires Interlude(a, b, e)
    ensures e in b.outbox && Overtakings(cfg, b, e) == Overtakings(cfg, a, e)
  {
    forall i | i in a.outbox ensures LeftAhead(cfg, b.outbox, i, e) == LeftAhead(cfg, a.outbox, i, e) {
    }
    TotalExtended(LeftsAhead(cfg, a, e), LeftsAhead(cfg, b, e));
  }

  // ----- bounded bypass -----

  /** The database a batch starts from, how many deliveries the environment has answered before it, and what
      others do after it. */
  datatype Round = Round(db: Db, at: nat, others: seq<Step>)

  function Fetched(limit: nat, env: nat -> Choice, r: Round): (ids: seq<Id>)
    ensures forall i | i in ids :: i in r.db.outbox
  {
    Fetch(r.db, At(env, r.at).now, limit)
  }

  function LeftBy(cfg: Config, limit: nat, env: nat -> Choice, r: Round): Db {
    DeliverAll(cfg, r.db, Fetched(limit, env, r), env, r.at)
  }

  ghost predicate GoodRound(cfg: Config, env: nat -> Choice, r: Round) {
    Sound(cfg, r.db) && Ledger(cfg, r.db) && FreshFrom(env, r.at, r.db)
  }

  /** After the batch of r others take their steps, all past time t, and the batch of s starts; the dispatcher's
      ids are still fresh. */
  ghost predicate NextRound(cfg: Config, limit: nat, env: nat -> Choice, t: int, r: Round, s: Round) {
    && Valid(cfg, LeftBy(cfg, limit, env, r), r.others) && OthersAfter(r.others, t)
    && s.db == After(cfg, LeftBy(cfg, limit, env, r), r.others)
    && s.at == r.at + |Fetched(limit, env, r)| && FreshFrom(env, s.at, s.db)
  }

  /** Batch after batch, with anything others do in between. */
  ghost predicate Rounds(cfg: Config, limit: nat, env: nat -> Choice, t: int, rounds: seq<Round>) {
    && rounds != [] && GoodRound(cfg, env, rounds[0])
    && (forall n | 0 < n < |rounds| :: NextRound(cfg, limit, env, t, rounds[n - 1], rounds[n]))
  }

  /** The row e as it was, ready, with the clock past its time. */
  ghost predicate Waiting(env: nat -> Choice, r: Round, e: Id, row: Row) {
    && e in r.db.outbox && r.db.outbox[e] == row
    && Ready(row, At(env, r.at).now) && PastFrom(env, r.at, row.occurredAt)
  }

  /** Whatever the batch delivers ahead of e is paid for by an attempt of a row ahead of it. */
  lemma RoundPays(cfg: Config, limit: nat, env: nat -> Choice, r: Round, e: Id, row: Row, j: nat)
    requires GoodRound(cfg, env, r) && Monotone(env) && Waiting(env, r, e, row)
    requires j <= |Fetched(limit, env, r)| && AllBefore(r.db.outbox, Fetched(limit, env, r), j, e)
    ensures var after := DeliverAll(cfg, r.db, Fetched(limit, env, r)[..j], env, r.at);
            && e in after.outbox && after.outbox[e] == row
            && j <= Overtakings(cfg, r.db, e) && Overtakings(cfg, after, e) <= Overtakings(cfg, r.db, e) - j
  {
    hide Deliver, DeliverAll, Overtakings, Sound, Ledger, FreshFrom, Monotone, PastFrom, AllBefore, Fetch, InBatch;
    var ids, now := Fetched(limit, env, r), At(env, r.at).now;
    FetchStartsBatch(cfg, r.db, limit, env, r.at);
    BatchAhead(cfg, r.db, e, ids, env, r.at, j, now);
    BatchReaches(cfg, r.db, ids, env, r.at, j, now);
    var after := DeliverAll(cfg, r.db, ids[..j], env, r.at);
    assert Ledger(cfg, after) by { BatchLedger(cfg, after, ids, env, r.at, j, now); }
    OvertakingsBound(cfg, after, e);
  }

  lemma BatchLedger(cfg: Config, db: Db, ids: seq<Id>, env: nat -> Choice, k: nat, j: nat, now: int)
    requires InBatch(cfg, db, ids, env, k, j, now)
    ensures Ledger(cfg, db)
  {
  }

  /** A batch that leaves e out is full, and everything in it is ahead of e. */
  lemma LeftOut(limit: nat, env: nat -> Choice, r: Round, e: Id, row: Row)
    requires Waiting(env, r, e, row) && e !in Fetched(limit, env, r)
    ensures |Fetched(limit, env, r)| == limit && AllBefore(r.db.outbox, Fetched(limit, env, r), limit, e)
  {
    FetchIsOldestReady(r.db, At(env, r.at).now, limit);
    hide Fetch;
    assert e in ReadyIds(r.db, At(env, r.at).now);
  }

  lemma StaysReady(env: nat -> Choice, r: Round, s: Round, e: Id, row: Row)
    requires Monotone(env) && Waiting(env, r, e, row) && s.at >= r.at && e in s.db.outbox && s.db.outbox[e] == row
    ensures Waiting(env, s, e, row)
  {
    assert At(env, r.at).now <= At(env, s.at).now;
    StillPast(env, r.at, s.at, row.occurredAt);
  }

  lemma {:induction false} Overtaken(cfg: Config, limit: nat, env: nat -> Choice,
                                     e: Id, rounds: seq<Round>, row: Row, n: nat)
    requires n < |rounds| && Rounds(cfg, limit, env, row.occurredAt, rounds) && Monotone(env)
    requires Waiting(env, rounds[0], e, row)
    requires forall j | 0 <= j < n :: e !in Fetched(limit, env, rounds[j])
    ensures Waiting(env, rounds[n], e, row) && GoodRound(cfg, env, rounds[n])
    ensures Overtakings(cfg, rounds[n].db, e) <= Overtakings(cfg, rounds[0].db, e) - n * limit
    decreases n
  {
    hide GoodRound, Waiting, Overtakings, Fetched, Monotone, DeliverAll, AllBefore, LeftBy, NextRound;
    if n > 0 {
      var prev := n - 1;
      Overtaken(cfg, limit, env, e, rounds, row, prev);
      LeftOut(limit, env, rounds[prev], e, row);
      assert NextRound(cfg, limit, env, row.occurredAt, rounds[prev], rounds[n]);
      OneRoundOvertakes(cfg, limit, env, e, rounds[prev], rounds[n], row);
      Distribute(prev, limit);
    }
  }

  lemma OneRoundOvertakes(cfg: Config, limit: nat, env: nat -> Choice, e: Id, r: Round, s: Round, row: Row)
    requires GoodRound(cfg, env, r) && Monotone(env) && Waiting(env, r, e, row) && e !in Fetched(limit, env, r)
    requires NextRound(cfg, limit, env, row.occurredAt, r, s)
    ensures Waiting(env, s, e, row) && GoodRound(cfg, env, s) && e in r.db.outbox
    ensures Overtakings(cfg, s.db, e) <= Overtakings(cfg, r.db, e) - limit
  {
    hide Overtakings, Monotone, DeliverAll, AllBefore, PastFrom, Ready, Sound, Ledger, FreshFrom, Valid, After,
         OthersAfter,
         CommitsAll, Fetch, Reaches;
    var ids := Fetched(limit, env, r);
    LeftOut(limit, env, r, e, row);
    RoundPays(cfg, limit, env, r, e, row, |ids|);
    assert ids[..|ids|] == ids;
    BatchIsRun(cfg, r.db, limit, env, r.at);
    OthersAreInterlude(cfg, LeftBy(cfg, limit, env, r), r.others, e);
    InterludeAddsNothing(cfg, LeftBy(cfg, limit, env, r), s.db, e);
    StaysReady(env, r, s, e, row);
  }

  /** Bounded bypass: a ready row with `ahead` pending rows ahead of it is delivered after at most ahead * M
      deliveries of other rows, counting those ahead of it in its own batch, whatever others do between the batches. */
  lemma BoundedBypass(cfg: Config, limit: nat, env: nat -> Choice, e: Id, rounds: seq<Round>, row: Row, n: nat, p: nat)
    requires n < |rounds| && Rounds(cfg, limit, env, row.occurredAt, rounds) && Monotone(env)
    requires Waiting(env, rounds[0], e, row)
    requires forall j | 0 <= j < n :: e !in Fetched(limit, env, rounds[j])
    requires p < |Fetched(limit, env, rounds[n])| && Fetched(limit, env, rounds[n])[p] == e
    ensures n * limit + p <= |Ahead(rounds[0].db, e)| * Allowed(cfg)
  {
    hide Overtakings, Monotone, DeliverAll, PastFrom, Ready, Ledger, Sound, FreshFrom, NextRound, Ahead;
    Overtaken(cfg, limit, env, e, rounds, row, n);
    RoundPays(cfg, limit, env, rounds[n], e, row, p);
    OvertakingsBound(cfg, rounds[0].db, e);
  }

  /** Hence within floor(ahead * M / limit) + 1 batches. */
  lemma DeliveredWithin(cfg: Config, limit: nat, env: nat -> Choice, e: Id, rounds: seq<Round>, row: Row)
    requires limit >= 1 && rounds != [] && Rounds(cfg, limit, env, row.occurredAt, rounds) && Monotone(env)
    requires Waiting(env, rounds[0], e, row)
    requires |rounds| > |Ahead(rounds[0].db, e)| * Allowed(cfg) / limit
    ensures exists n :: 0 <= n < |rounds| && e in Fetched(limit, env, rounds[n])
  {
    hide Overtakings, Fetched, Monotone, DeliverAll, AllBefore,
         PastFrom, Ready, Ledger, Sound, FreshFrom, NextRound, Ahead;
    if forall n | 0 <= n < |rounds| :: e !in Fetched(limit, env, rounds[n]) {
      var last := |rounds| - 1;
      Overtaken(cfg, limit, env, e, rounds, row, last);
      LeftOut(limit, env, rounds[last], e, row);
      RoundPays(cfg, limit, env, rounds[last], e, row, limit);
      OvertakingsBound(cfg, rounds[0].db, e);
      Distribute(last, limit);
      Quotient(|Ahead(rounds[0].db, e)| * Allowed(cfg), |rounds|, limit);
    }
  }

  lemma Quotient(total: nat, n: nat, limit: nat)
    requires limit >= 1 && n > total / limit
    ensures n * limit > total
  {
    assert total < (total / limit + 1) * limit;
    assert (total / limit + 1) * limit <= n * limit;
  }
}
