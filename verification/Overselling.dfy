/** When the per-line availability check is enough: exactly when no SKU is repeated. */
module Overselling {
  import opened Tables
  import opened Lines
  import opened Inbox
  import opened Dispatcher
  import opened Saga
  import opened Chain
  import opened Business
  import opened Soundness
  import opened Guarantees

  predicate NonNegative(inv: Inventory) {
    forall s | s in inv :: inv[s].available >= 0
  }

  predicate DistinctSkus(lines: seq<Line>) {
    forall i, j | 0 <= i < j < |lines| :: lines[i].sku != lines[j].sku
  }

  predicate PositiveQuantities(lines: seq<Line>) {
    forall line | line in lines :: line.quantity > 0
  }

  /** Whatever the stock, accepting these lines never leaves a negative quantity. */
  ghost predicate NeverOversells(lines: seq<Line>) {
    forall inv: Inventory | NonNegative(inv) && FitsLines(inv, lines) :: NonNegative(Take(inv, Raw(lines)))
  }

  lemma {:induction false} DemandNonNegative(lines: seq<Line>, s: Sku)
    requires PositiveQuantities(lines)
    ensures Demand(Raw(lines), s) >= 0
  {
    if lines != [] {
      var n := |lines| - 1;
      assert lines[n] in lines && Raw(lines)[..n] == Raw(lines[..n]);
      DemandNonNegative(lines[..n], s);
    }
  }

  /** The demand for a line's SKU covers that line, and any second line of the same SKU on top. */
  lemma {:induction false} DemandCovers(lines: seq<Line>, i: nat, j: nat)
    requires PositiveQuantities(lines) && i < |lines| && j < |lines| && lines[i].sku == lines[j].sku
    ensures Demand(Raw(lines), lines[i].sku) >= lines[i].quantity + if i == j then 0 else lines[j].quantity
  {
    var n, s := |lines| - 1, lines[i].sku;
    assert lines[n] in lines && Raw(lines)[..n] == Raw(lines[..n]);
    DemandNonNegative(lines[..n], s);
    if i < n && j < n {
      DemandCovers(lines[..n], i, j);
    } else if i < n {
      DemandCovers(lines[..n], i, i);
    } else if j < n {
      DemandCovers(lines[..n], j, j);
    }
  }

  /** With distinct SKUs the demand for a SKU is one line's quantity. */
  lemma {:induction false} DistinctDemand(lines: seq<Line>, s: Sku)
    requires DistinctSkus(lines)
    ensures Demand(Raw(lines), s) == 0
            || exists line :: line in lines && line.sku == s && Demand(Raw(lines), s) == line.quantity
  {
    if lines != [] {
      var n := |lines| - 1;
      assert lines[n] in lines && Raw(lines)[..n] == Raw(lines[..n]);
      if lines[n].sku == s {
        assert forall e | e in Raw(lines[..n]) :: e.sku != Some(s);
        DemandOutside(Raw(lines[..n]), s);
      } else {
        DistinctDemand(lines[..n], s);
        assert forall line | line in lines[..n] :: line in lines;
      }
    }
  }

  lemma DistinctNeverOversells(lines: seq<Line>, inv: Inventory)
    requires DistinctSkus(lines) && NonNegative(inv) && FitsLines(inv, lines)
    ensures NonNegative(Take(inv, Raw(lines)))
  {
    forall s | s in inv ensures Demand(Raw(lines), s) <= inv[s].available {
      DistinctDemand(lines, s);
    }
  }

  /** A stock that lets a repeated SKU through: for every SKU its largest single line. */
  ghost function Tight(lines: seq<Line>): Inventory {
    map s | s in (set line | line in lines :: line.sku) :: StockItem(Largest(lines, s), 0)
  }

  function Largest(lines: seq<Line>, s: Sku): (q: int)
    ensures q >= 0
    ensures forall line | line in lines && line.sku == s :: line.quantity <= q
    ensures q == 0 || exists line :: line in lines && line.sku == s && line.quantity == q
  {
    if lines == [] then 0
    else
      var rest, line := Largest(lines[..|lines| - 1], s), lines[|lines| - 1];
      assert lines == lines[..|lines| - 1] + [line];
      if line.sku == s && line.quantity > rest then line.quantity else rest
  }

  lemma RepeatedOversells(lines: seq<Line>, i: nat, j: nat)
    requires PositiveQuantities(lines) && i < j < |lines| && lines[i].sku == lines[j].sku
    ensures NonNegative(Tight(lines)) && FitsLines(Tight(lines), lines)
    ensures Take(Tight(lines), Raw(lines))[lines[i].sku].available < 0
  {
    hide Demand, Largest;
    var s := lines[i].sku;
    assert lines[i] in lines;
    var big :| big in lines && big.sku == s && big.quantity == Largest(lines, s);
    var k :| 0 <= k < |lines| && lines[k] == big;
    var other := if k == i then j else i;
    assert lines[other] in lines;
    DemandCovers(lines, k, other);
  }

  /** The per-line check protects an order exactly when the order repeats no SKU. */
  lemma OversellsIffRepeated(lines: seq<Line>)
    requires PositiveQuantities(lines)
    ensures NeverOversells(lines) <==> DistinctSkus(lines)
  {
    if DistinctSkus(lines) {
      forall inv: Inventory | NonNegative(inv) && FitsLines(inv, lines) ensures NonNegative(Take(inv, Raw(lines))) {
        DistinctNeverOversells(lines, inv);
      }
    } else {
      var i, j :| 0 <= i < j < |lines| && lines[i].sku == lines[j].sku;
      RepeatedOversells(lines, i, j);
    }
  }

  // ----- over runs -----

  ghost predicate AllDistinct(db: Db) {
    forall o | o in db.orders :: DistinctSkus(db.orders[o].lines)
  }

  lemma LinkStaysNonNegative(a: Db, b: Db, i: Id, ch: Choice)
    requires i in a.outbox && a.outbox[i].event.order in a.orders && LinkAdded(a, b, i, ch)
    requires NonNegative(a.inventory) && AllDistinct(a) && OrdersOk(a)
    ensures NonNegative(b.inventory)
  {
    hide PayloadOk, Extended, OnlyCitedAdded, Grown;
    var lines := a.orders[a.outbox[i].event.order].lines;
    match b.outbox[ch.eventId].event.etype {
      case InventoryReserved => DistinctNeverOversells(lines, a.inventory);
      case InventoryReleased =>
        forall s | s in a.inventory ensures Demand(Raw(lines), s) >= 0 {
          DemandNonNegative(lines, s);
        }
      case _ =>
    }
  }

  lemma StepStaysNonNegative(cfg: Config, db: Db, step: Step)
    requires Sound(cfg, db) && Enabled(cfg, db, step) && NonNegative(db.inventory) && AllDistinct(db)
    ensures NonNegative(Next(cfg, db, step).inventory)
  {
    hide Handle, AfterFailure, LinkAdded, Runnable;
    match step {
      case EventHandled(i, forced, ch) =>
        HandledCases(cfg, db, i, forced, ch);
        if !Processed(ShapeOf(db), i) {
          if Ends(db.outbox[i].event.etype) {
            HandlerFinishes(cfg, db, i, forced, ch);
          } else {
            LinkStaysNonNegative(db, Next(cfg, db, step), i, ch);
          }
        }
      case DeliveryFailed(i, ch) =>
        FailureIsClean(cfg, db, i, ch);
        FailureWrites(cfg, db, i, ch);
      case _ =>
    }
  }

  /** If no order placed in the run repeats a SKU, no stock is ever negative. */
  lemma {:induction false} NoOverselling(cfg: Config, db: Db, run: seq<Step>)
    requires Sound(cfg, db) && Valid(cfg, db, run) && NonNegative(db.inventory)
    requires AllDistinct(After(cfg, db, run))
    ensures NonNegative(After(cfg, db, run).inventory)
    decreases |run|
  {
    hide Sound, Enabled, Next;
    if run != [] {
      var front := run[..|run| - 1];
      ReachableIsSound(cfg, db, front);
      StepKeeps(cfg, After(cfg, db, front), run[|run| - 1]);
      assert AllDistinct(After(cfg, db, front));
      NoOverselling(cfg, db, front);
      StepStaysNonNegative(cfg, After(cfg, db, front), run[|run| - 1]);
    }
  }
}
