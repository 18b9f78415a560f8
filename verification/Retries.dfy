/** The triangular back-off is exact: how a run that retries on time meets the bound, and that only such runs do. */
module Retries {
  import opened Tables
  import opened EventsRepository
  import opened Inbox
  import opened Dispatcher
  import opened Saga
  import opened Chain
  import opened Business
  import opened Soundness
  import opened RetryLedger
  import opened Deliveries

  function Triangle(n: nat): nat {
    if n == 0 then 0 else Triangle(n - 1) + n
  }

  lemma {:induction false} TriangleClosed(n: nat)
    ensures 2 * Triangle(n) == n * (n + 1)
  {
    if n > 0 {
      TriangleClosed(n - 1);
    }
  }

  /** Attempt k + 1 comes at the due time the k-th failure set. */
  predicate OnTime(cfg: Config, own: seq<Attempt>) {
    forall k | 0 < k < |own| :: own[k].at == own[k - 1].at + cfg.backoffSeconds * k
  }

  /** The time of attempt k + 1, less all delays that were due before it. */
  function Lateness(cfg: Config, own: seq<Attempt>, k: nat): int
    requires k < |own|
  {
    own[k].at - cfg.backoffSeconds * Triangle(k)
  }

  lemma OneDelayMore(cfg: Config, own: seq<Attempt>, k: nat)
    requires 0 < k < |own|
    ensures Lateness(cfg, own, k) - Lateness(cfg, own, k - 1)
            == own[k].at - (own[k - 1].at + cfg.backoffSeconds * k)
  {
    assert cfg.backoffSeconds * Triangle(k) == cfg.backoffSeconds * Triangle(k - 1) + cfg.backoffSeconds * k;
  }

  lemma {:induction false} DelaysFrom(cfg: Config, own: seq<Attempt>, j: nat, k: nat)
    requires forall n | 0 < n < |own| :: own[n].at >= own[n - 1].at + cfg.backoffSeconds * n
    requires j <= k < |own|
    ensures Lateness(cfg, own, k) >= Lateness(cfg, own, j)
    ensures OnTime(cfg, own) ==> Lateness(cfg, own, k) == Lateness(cfg, own, j)
    decreases k - j
  {
    hide Lateness;
    if j < k {
      DelaysFrom(cfg, own, j, k - 1);
      OneDelayMore(cfg, own, k);
    }
  }

  /** The last of M attempts lies the whole triangle after the first exactly when no retry was late. */
  lemma OnTimeIffTight(cfg: Config, own: seq<Attempt>)
    requires own != [] && forall n | 0 < n < |own| :: own[n].at >= own[n - 1].at + cfg.backoffSeconds * n
    ensures own[|own| - 1].at >= own[0].at + cfg.backoffSeconds * Triangle(|own| - 1)
    ensures own[|own| - 1].at == own[0].at + cfg.backoffSeconds * Triangle(|own| - 1) <==> OnTime(cfg, own)
  {
    hide Lateness, Triangle;
    var last := |own| - 1;
    FirstIsOnTime(cfg, own);
    LatenessOf(cfg, own, last);
    DelaysFrom(cfg, own, 0, last);
    forall k | 0 < k < |own| && own[k].at > own[k - 1].at + cfg.backoffSeconds * k
      ensures Lateness(cfg, own, last) > Lateness(cfg, own, 0)
    {
      DelaysFrom(cfg, own, 0, k - 1);
      OneDelayMore(cfg, own, k);
      DelaysFrom(cfg, own, k, last);
    }
  }

  lemma FirstIsOnTime(cfg: Config, own: seq<Attempt>)
    requires own != []
    ensures Lateness(cfg, own, 0) == own[0].at
  {
  }

  lemma LatenessOf(cfg: Config, own: seq<Attempt>, k: nat)
    requires k < |own|
    ensures Lateness(cfg, own, k) == own[k].at - cfg.backoffSeconds * Triangle(k)
  {
  }

  lemma DoubledTriangle(b: int, m: nat)
    requires m > 0
    ensures 2 * (b * Triangle(m - 1)) == b * (m * (m - 1))
  {
    TriangleClosed(m - 1);
    assert b * (2 * Triangle(m - 1)) == 2 * (b * Triangle(m - 1));
  }

  /** A dead letter is written no earlier than backoff * M * (M - 1) / 2 after the first failure. */
  lemma BackoffBound(cfg: Config, db: Db, d: Id)
    requires Ledger(cfg, db) && d in db.deadLetters
    ensures var letter, m := db.deadLetters[d], Allowed(cfg);
            && letter.eventId in db.outbox && |Own(cfg, db, letter.eventId)| == m
            && 2 * (letter.failedAt - Own(cfg, db, letter.eventId)[0].at) >= cfg.backoffSeconds * (m * (m - 1))
  {
    hide Own, OnTime, Triangle, Allowed;
    var own, m := Own(cfg, db, db.deadLetters[d].eventId), Allowed(cfg);
    assert RowLedger(cfg, db.outbox[db.deadLetters[d].eventId], own) && LetterLedger(cfg, db.deadLetters[d], own);
    AtLeastOne(cfg);
    OnTimeIffTight(cfg, own);
    DoubledTriangle(cfg.backoffSeconds, m);
  }

  /** And exactly then if and only if every retry was made the moment it was due. */
  lemma LetterOnTimeIff(cfg: Config, db: Db, d: Id)
    requires Ledger(cfg, db) && d in db.deadLetters
    ensures var letter, m := db.deadLetters[d], Allowed(cfg);
            && letter.eventId in db.outbox && |Own(cfg, db, letter.eventId)| == m
            && (2 * (letter.failedAt - Own(cfg, db, letter.eventId)[0].at) == cfg.backoffSeconds * (m * (m - 1)) <==>
                  OnTime(cfg, Own(cfg, db, letter.eventId)))
  {
    hide Own, OnTime, Triangle, Allowed;
    var own, m := Own(cfg, db, db.deadLetters[d].eventId), Allowed(cfg);
    assert RowLedger(cfg, db.outbox[db.deadLetters[d].eventId], own) && LetterLedger(cfg, db.deadLetters[d], own);
    AtLeastOne(cfg);
    OnTimeIffTight(cfg, own);
    DoubledTriangle(cfg.backoffSeconds, m);
  }

  /** With the default policy: three attempts, the last at least fifteen seconds after the first, and exactly fifteen if
      and only if the retries came five and then ten seconds after the failure before. */
  lemma DefaultBackoff(db: Db, d: Id)
    requires Ledger(DEFAULT_CONFIG, db) && d in db.deadLetters
    ensures var letter := db.deadLetters[d];
            && letter.eventId in db.outbox && |Own(DEFAULT_CONFIG, db, letter.eventId)| == 3
            && var own := Own(DEFAULT_CONFIG, db, letter.eventId);
               && letter.failedAt == own[2].at >= own[0].at + 15
               && (letter.failedAt == own[0].at + 15 <==> own[1].at == own[0].at + 5 && own[2].at == own[1].at + 10)
  {
    hide AttemptsOf;
    var own := Own(DEFAULT_CONFIG, db, db.deadLetters[d].eventId);
    assert LetterLedger(DEFAULT_CONFIG, db.deadLetters[d], own);
    assert own[1].at >= own[0].at + DEFAULT_CONFIG.backoffSeconds * 1;
    assert own[2].at >= own[1].at + DEFAULT_CONFIG.backoffSeconds * 2;
  }

  lemma AtLeastOne(cfg: Config)
    ensures Allowed(cfg) > 0
  {
  }

  // ----- such runs exist -----

  /** When the n-th retry of an event is due that first failed at t and always on time. */
  function DueTime(cfg: Config, t: int, n: nat): int {
    t + cfg.backoffSeconds * Triangle(n)
  }

  /** The row of an event that has failed n times, always on time, since t. */
  ghost predicate FailedOnTime(cfg: Config, db: Db, i: Id, t: int, n: nat) {
    && i in db.outbox && db.outbox[i].failureCount == n && !Processed(ShapeOf(db), i)
    && (n < Allowed(cfg) ==>
          && db.outbox[i].status.Pending?
          && db.outbox[i].nextAttemptAt == if n == 0 then None else Some(DueTime(cfg, t, n)))
    && (n == Allowed(cfg) ==> db.outbox[i].status.Failed? && LetterAt(db, i, DueTime(cfg, t, n - 1)))
  }

  ghost predicate LetterAt(db: Db, i: Id, time: int) {
    exists d :: LetterOf(ShapeOf(db), d, i) && db.deadLetters[d].failedAt == time
  }

  /** The step fails the row at the n-th due time. */
  predicate FailsAt(cfg: Config, step: Step, i: Id, t: int, n: nat) {
    step.DeliveryFailed? && step.i == i && step.ch.now == DueTime(cfg, t, n)
  }

  lemma FailOnTime(cfg: Config, a: Db, i: Id, t: int, n: nat) returns (step: Step)
    requires Sound(cfg, a) && Ledger(cfg, a) && FailedOnTime(cfg, a, i, t, n) && n < Allowed(cfg)
    ensures FailsAt(cfg, step, i, t, n)
    ensures Enabled(cfg, a, step) && FailedOnTime(cfg, Next(cfg, a, step), i, t, n + 1)
  {
    hide Sound, Ledger, Body, AfterFailure, NextAttemptNumber, DueTime, ConsumerForFailure;
    var env := QuietEnvironment(a);
    assert FreshIds(a, At(env, 0));
    var ch := Choice(DueTime(cfg, t, n), At(env, 0).eventId, At(env, 0).recordId, true);
    step := DeliveryFailed(i, ch);
    assert Ready(a.outbox[i], ch.now) && HandleRow(cfg, a, i, ch).Raised?;
    FailureIsClean(cfg, a, i, ch);
    FailureWrites(cfg, a, i, ch);
    NumberOfNext(cfg, a, i);
    NextDueTime(cfg, t, n);
    var b := Next(cfg, a, step);
    if n + 1 == Allowed(cfg) {
      assert LetterOf(ShapeOf(b), ch.recordId, i);
    }
  }

  lemma NextDueTime(cfg: Config, t: int, n: nat)
    ensures DueTime(cfg, t, n + 1) == DueTime(cfg, t, n) + cfg.backoffSeconds * (n + 1)
  {
    assert cfg.backoffSeconds * Triangle(n + 1) == cfg.backoffSeconds * Triangle(n) + cfg.backoffSeconds * (n + 1);
  }

  lemma NumberOfNext(cfg: Config, db: Db, i: Id)
    requires Ledger(cfg, db) && i in db.outbox
    ensures NextAttemptNumber(db, i, ConsumerForFailure(cfg, db.outbox[i].event.etype))
            == db.outbox[i].failureCount + 1
  {
    hide AttemptsOf, Latest;
    LatestOfNumbered(Own(cfg, db, i));
  }

  lemma {:induction false} FailuresOnTime(cfg: Config, db: Db, i: Id, t: int, n: nat) returns (run: seq<Step>)
    requires Sound(cfg, db) && Ledger(cfg, db) && FailedOnTime(cfg, db, i, t, 0) && n <= Allowed(cfg)
    ensures Valid(cfg, db, run) && |run| == n && FailedOnTime(cfg, After(cfg, db, run), i, t, n)
    ensures forall k | 0 <= k < n :: FailsAt(cfg, run[k], i, t, k)
  {
    hide Sound, Ledger, Enabled, Next, FailedOnTime, FailsAt;
    if n == 0 {
      run := [];
      NoSteps(cfg, db);
    } else {
      var front := FailuresOnTime(cfg, db, i, t, n - 1);
      ReachableIsSound(cfg, db, front);
      ReachableLedger(cfg, db, front);
      var step := FailOnTime(cfg, After(cfg, db, front), i, t, n - 1);
      run := front + [step];
      OneStepMore(cfg, db, front, step, run);
    }
  }

  /** The bound is met: a row that fails at every due time, first at t, is delivered at t, t + backoff, t + 3 * backoff
      and so on, and its dead letter is written exactly backoff * M * (M - 1) / 2 after t. */
  lemma DueRetriesMeetBound(cfg: Config, db: Db, i: Id, t: int) returns (run: seq<Step>, d: Id)
    requires Sound(cfg, db) && Ledger(cfg, db) && i in db.outbox && db.outbox[i].status.Pending?
    requires db.outbox[i].failureCount == 0 && !Processed(ShapeOf(db), i)
    ensures Valid(cfg, db, run) && |run| == Allowed(cfg)
    ensures forall k | 0 <= k < |run| ::
              && run[k].DeliveryFailed? && run[k].i == i
              && 2 * (run[k].ch.now - t) == cfg.backoffSeconds * ((k + 1) * k)
    ensures var after, m := After(cfg, db, run), Allowed(cfg);
            && i in after.outbox && after.outbox[i].status.Failed? && LetterOf(ShapeOf(after), d, i)
            && 2 * (after.deadLetters[d].failedAt - t) == cfg.backoffSeconds * (m * (m - 1))
  {
    hide Sound, Valid, After, Own, AttemptsOf, DueTime;
    var m := Allowed(cfg);
    assert RowLedger(cfg, db.outbox[i], Own(cfg, db, i)) && |Own(cfg, db, i)| == 0;
    run := FailuresOnTime(cfg, db, i, t, m);
    var after := After(cfg, db, run);
    d :| LetterOf(ShapeOf(after), d, i) && after.deadLetters[d].failedAt == DueTime(cfg, t, m - 1);
    ClosedDueTime(cfg, t, m);
    forall k | 0 <= k < |run| ensures 2 * (run[k].ch.now - t) == cfg.backoffSeconds * ((k + 1) * k) {
      ClosedDueTime(cfg, t, k + 1);
    }
  }

  lemma ClosedDueTime(cfg: Config, t: int, m: nat)
    requires m > 0
    ensures 2 * (DueTime(cfg, t, m - 1) - t) == cfg.backoffSeconds * (m * (m - 1))
  {
    DoubledTriangle(cfg.backoffSeconds, m);
  }
}
