/** Duplicate deliveries: any sequence of deliveries has the effect of its first successful ones. The envelopes and
    the database are arbitrary here; nothing is assumed of where they come from. */
module Duplicates {
  import opened Tables
  import opened Sessions
  import opened Inbox

  datatype Delivery = Delivery(e: Envelope, ch: Choice)

  type Marker = (Consumer, Id)

  function MarkerOf(d: Delivery): Marker {
    (ConsumerOf(d.e.event.etype), d.e.id)
  }

  /** One handler call in a session of its own: a raise leaves the session without a commit. */
  function Receive(db: Db, d: Delivery): Db {
    var outcome := Handle(db, d.e, d.ch);
    if outcome.Applied? then outcome.db else db
  }

  method HandleDelivery(session: Session, e: Envelope, ch: Choice)
    requires session.db == session.committed
    modifies session
    ensures session.db == session.committed == Receive(old(session.db), Delivery(e, ch))
  {
    hide Handle;
    var inbox := new ConsumerInbox(session);
    var result := inbox.ProcessOnce(e, ch);
    if result.Error? {
      session.Rollback();
    }
  }

  function ReceiveAll(db: Db, ds: seq<Delivery>): Db {
    if ds == [] then db else Receive(ReceiveAll(db, ds[..|ds| - 1]), ds[|ds| - 1])
  }

  /** The n-th call returned, by running the body or by skipping it. */
  predicate Returned(db: Db, ds: seq<Delivery>, n: nat)
    requires n < |ds|
  {
    !Handle(ReceiveAll(db, ds[..n]), ds[n].e, ds[n].ch).Raised?
  }

  /** The first call for its (consumer, event) that returned, of an event not processed before the sequence. */
  predicate FirstReturn(db: Db, ds: seq<Delivery>, n: nat)
    requires n < |ds|
  {
    && Returned(db, ds, n) && MarkerOf(ds[n]) !in db.inbox
    && forall m | 0 <= m < n :: MarkerOf(ds[m]) == MarkerOf(ds[n]) ==> !Returned(db, ds, m)
  }

  function FirstReturns(db: Db, ds: seq<Delivery>): seq<Delivery> {
    if ds == [] then []
    else
      var n := |ds| - 1;
      FirstReturns(db, ds[..n]) + if FirstReturn(db, ds, n) then [ds[n]] else []
  }

  lemma ReceiveMarks(db: Db, d: Delivery)
    ensures var outcome := Handle(db, d.e, d.ch);
            && (outcome.Applied? <==> !outcome.Raised? && MarkerOf(d) !in db.inbox)
            && Receive(db, d).inbox == db.inbox + if outcome.Raised? then {} else {MarkerOf(d)}
  {
    hide Body;
    BodyLeaves(db, d.e, d.ch);
  }

  lemma ReturnedPrefix(db: Db, ds: seq<Delivery>, n: nat, m: nat)
    requires m < n <= |ds|
    ensures Returned(db, ds[..n], m) <==> Returned(db, ds, m)
  {
    assert ds[..n][..m] == ds[..m];
  }

  /** The inbox says exactly which calls have returned. */
  lemma {:induction false} InboxRemembers(db: Db, ds: seq<Delivery>, marker: Marker)
    ensures marker in ReceiveAll(db, ds).inbox <==>
            marker in db.inbox || exists m :: 0 <= m < |ds| && MarkerOf(ds[m]) == marker && Returned(db, ds, m)
  {
    hide Handle;
    if ds != [] {
      var n := |ds| - 1;
      InboxRemembers(db, ds[..n], marker);
      ReceiveMarks(ReceiveAll(db, ds[..n]), ds[n]);
      forall m | 0 <= m < n ensures Returned(db, ds[..n], m) <==> Returned(db, ds, m) {
        ReturnedPrefix(db, ds, n, m);
      }
      assert marker in ReceiveAll(db, ds).inbox <==>
             marker in ReceiveAll(db, ds[..n]).inbox || (MarkerOf(ds[n]) == marker && Returned(db, ds, n));
      if m :| 0 <= m < n && MarkerOf(ds[m]) == marker && Returned(db, ds[..n], m) {
        assert Returned(db, ds, m);
      }
    }
  }

  lemma AppliesIffFirst(db: Db, ds: seq<Delivery>, n: nat)
    requires n < |ds|
    ensures Handle(ReceiveAll(db, ds[..n]), ds[n].e, ds[n].ch).Applied? <==> FirstReturn(db, ds, n)
  {
    hide Handle, ReceiveAll;
    ReceiveMarks(ReceiveAll(db, ds[..n]), ds[n]);
    InboxRemembers(db, ds[..n], MarkerOf(ds[n]));
    forall m | 0 <= m < n ensures Returned(db, ds[..n], m) <==> Returned(db, ds, m) {
      ReturnedPrefix(db, ds, n, m);
    }
    if MarkerOf(ds[n]) in ReceiveAll(db, ds[..n]).inbox && MarkerOf(ds[n]) !in db.inbox {
      var m :| 0 <= m < n && MarkerOf(ds[..n][m]) == MarkerOf(ds[n]) && Returned(db, ds[..n], m);
      assert Returned(db, ds, m);
    }
  }

  /** Duplicate-delivery equivalence: the whole database - business tables, emitted events, inbox - is what the
      first returns alone produce. */
  lemma {:induction false} DuplicatesChangeNothing(db: Db, ds: seq<Delivery>)
    ensures ReceiveAll(db, FirstReturns(db, ds)) == ReceiveAll(db, ds)
  {
    hide Handle, FirstReturn;
    if ds != [] {
      var n := |ds| - 1;
      var front := FirstReturns(db, ds[..n]);
      DuplicatesChangeNothing(db, ds[..n]);
      AppliesIffFirst(db, ds, n);
      if FirstReturn(db, ds, n) {
        assert (front + [ds[n]])[..|front|] == front;
      } else {
        assert front + [] == front;
      }
    }
  }

  ghost predicate DifferentMarkers(ds: seq<Delivery>) {
    forall a, b | 0 <= a < b < |ds| :: MarkerOf(ds[a]) != MarkerOf(ds[b])
  }

  /** The kept deliveries are pairwise different events of a consumer, none processed before. */
  lemma {:induction false} KeptOnce(db: Db, ds: seq<Delivery>)
    ensures forall d | d in FirstReturns(db, ds) :: d in ds && MarkerOf(d) !in db.inbox
    ensures forall d | d in FirstReturns(db, ds) :: exists m :: 0 <= m < |ds| && ds[m] == d && Returned(db, ds, m)
    ensures DifferentMarkers(FirstReturns(db, ds))
  {
    hide Handle, ReceiveAll, Returned;
    if ds != [] {
      var n := |ds| - 1;
      KeptOnce(db, ds[..n]);
      forall m | 0 <= m < n ensures Returned(db, ds[..n], m) <==> Returned(db, ds, m) {
        ReturnedPrefix(db, ds, n, m);
      }
      forall d | d in FirstReturns(db, ds[..n])
        ensures exists m :: 0 <= m < n && ds[m] == d && Returned(db, ds, m)
      {
        var m :| 0 <= m < n && ds[..n][m] == d && Returned(db, ds[..n], m);
        assert ds[m] == d && Returned(db, ds, m);
      }
      var front, kept := FirstReturns(db, ds[..n]), FirstReturns(db, ds);
      forall a, b | 0 <= a < b < |kept| ensures MarkerOf(kept[a]) != MarkerOf(kept[b]) {
        if b < |front| {
          assert kept[a] == front[a] && kept[b] == front[b];
          assert MarkerOf(front[a]) != MarkerOf(front[b]);
        } else {
          assert front[a] in front && kept[a] == front[a];
          var m :| 0 <= m < n && ds[m] == front[a] && Returned(db, ds, m);
          assert kept[b] == ds[n] && FirstReturn(db, ds, n);
          assert MarkerOf(ds[m]) != MarkerOf(ds[n]);
        }
      }
    }
  }

  /** Every event a consumer has handled is among the kept ones. */
  lemma {:induction false} EveryReturnIsKept(db: Db, ds: seq<Delivery>, n: nat)
    requires n < |ds| && Returned(db, ds, n) && MarkerOf(ds[n]) !in db.inbox
    ensures exists d :: d in FirstReturns(db, ds) && MarkerOf(d) == MarkerOf(ds[n])
    decreases |ds|, n
  {
    hide Handle, ReceiveAll, Returned;
    var last := |ds| - 1;
    if n < last {
      ReturnedPrefix(db, ds, last, n);
      EveryReturnIsKept(db, ds[..last], n);
      var d :| d in FirstReturns(db, ds[..last]) && MarkerOf(d) == MarkerOf(ds[n]);
      assert d in FirstReturns(db, ds);
    } else if FirstReturn(db, ds, n) {
      assert ds[n] in FirstReturns(db, ds);
    } else {
      var m :| 0 <= m < n && MarkerOf(ds[m]) == MarkerOf(ds[n]) && Returned(db, ds, m);
      EveryReturnIsKept(db, ds, m);
    }
  }

  /** A redelivery after a return is a no-op wherever it is inserted. */
  lemma {:induction false} RedeliveryIsNoOp(db: Db, ds: seq<Delivery>, again: Delivery, rest: seq<Delivery>, n: nat)
    requires n < |ds| && Returned(db, ds, n) && MarkerOf(again) == MarkerOf(ds[n])
    ensures ReceiveAll(db, ds + [again] + rest) == ReceiveAll(db, ds + rest)
    decreases |rest|
  {
    hide Handle, Returned;
    if rest == [] {
      assert (ds + [again] + rest)[..|ds|] == ds;
      assert ds + rest == ds;
      InboxRemembers(db, ds, MarkerOf(again));
      ReceiveMarks(ReceiveAll(db, ds), again);
    } else {
      var front := rest[..|rest| - 1];
      RedeliveryIsNoOp(db, ds, again, front, n);
      assert (ds + [again] + rest)[..|ds + [again] + rest| - 1] == ds + [again] + front;
      assert (ds + rest)[..|ds + rest| - 1] == ds + front;
    }
  }
}
