/** Arithmetic over order lines and payload items: how much of a SKU they ask for and what they cost. */
module Lines {
  import opened Tables

  /** `_payload_items` keeps the dictionaries of the list. */
  function Entries(raw: seq<RawLine>): (es: seq<RawLine>)
    ensures forall e | e in es :: e.Entry?
  {
    if raw == [] then []
    else if raw[|raw| - 1].NotADict? then Entries(raw[..|raw| - 1])
    else Entries(raw[..|raw| - 1]) + [raw[|raw| - 1]]
  }

  function Wanted(e: RawLine, s: Sku): int {
    if e.Entry? && e.sku == Some(s) && e.quantity.Some? then e.quantity.value else 0
  }

  /** Total quantity of `s` over all entries. */
  function Demand(es: seq<RawLine>, s: Sku): int {
    if es == [] then 0 else Demand(es[..|es| - 1], s) + Wanted(es[|es| - 1], s)
  }

  function Cost(e: RawLine): int {
    if e.Entry? && e.quantity.Some? && e.unitPrice.Some? then e.quantity.value * e.unitPrice.value else 0
  }

  function AmountCents(es: seq<RawLine>): int {
    if es == [] then 0 else AmountCents(es[..|es| - 1]) + Cost(es[|es| - 1])
  }

  /** The event items that `create_order` builds beside the order lines. */
  function Raw(lines: seq<Line>): (es: seq<RawLine>)
    ensures |es| == |lines|
  {
    seq(|lines|, i requires 0 <= i < |lines| =>
      Entry(Some(lines[i].sku), Some(lines[i].quantity), Some(lines[i].unitPrice)))
  }

  /** sum(quantity * unit_price_cents) over the stored order lines. */
  function OrderTotal(lines: seq<Line>): int {
    if lines == [] then 0
    else OrderTotal(lines[..|lines| - 1]) + lines[|lines| - 1].quantity * lines[|lines| - 1].unitPrice
  }

  /** How many units of `s` the lines order. */
  function UnitsOrdered(lines: seq<Line>, s: Sku): int {
    if lines == [] then 0
    else
      var n := |lines| - 1;
      UnitsOrdered(lines[..n], s) + if lines[n].sku == s then lines[n].quantity else 0
  }

  function Take(inv: Inventory, es: seq<RawLine>): Inventory {
    map s | s in inv :: inv[s].(available := inv[s].available - Demand(es, s))
  }

  function Put(inv: Inventory, es: seq<RawLine>): Inventory {
    map s | s in inv :: inv[s].(available := inv[s].available + Demand(es, s))
  }

  lemma {:induction false} RawPassesThrough(lines: seq<Line>)
    ensures Entries(Raw(lines)) == Raw(lines)
  {
    if lines != [] {
      var n := |lines| - 1;
      RawPassesThrough(lines[..n]);
      assert Raw(lines)[..n] == Raw(lines[..n]);
      assert Raw(lines) == Raw(lines[..n]) + [Raw(lines)[n]];
    }
  }

  lemma {:induction false} AmountIsOrderTotal(lines: seq<Line>)
    ensures AmountCents(Raw(lines)) == OrderTotal(lines)
  {
    if lines != [] {
      var n := |lines| - 1;
      AmountIsOrderTotal(lines[..n]);
      assert Raw(lines)[..n] == Raw(lines[..n]);
    }
  }

  lemma {:induction false} DemandOfLines(lines: seq<Line>, s: Sku)
    ensures Demand(Raw(lines), s) == UnitsOrdered(lines, s)
  {
    if lines != [] {
      var n := |lines| - 1;
      DemandOfLines(lines[..n], s);
      assert Raw(lines)[..n] == Raw(lines[..n]);
    }
  }

  /** What a reservation of an order takes and a release of it puts back, SKU by SKU; prices stay. */
  lemma UnitsMoved(inv: Inventory, lines: seq<Line>)
    ensures Take(inv, Raw(lines)).Keys == Put(inv, Raw(lines)).Keys == inv.Keys
    ensures forall s | s in inv ::
              && Take(inv, Raw(lines))[s] == inv[s].(available := inv[s].available - UnitsOrdered(lines, s))
              && Put(inv, Raw(lines))[s] == inv[s].(available := inv[s].available + UnitsOrdered(lines, s))
  {
    forall s | s in inv ensures Demand(Raw(lines), s) == UnitsOrdered(lines, s) {
      DemandOfLines(lines, s);
    }
  }

  /** Filtering out the non-dictionaries changes neither the amount nor any demand. */
  lemma {:induction false} FilteringKeepsMeaning(raw: seq<RawLine>, s: Sku)
    ensures AmountCents(Entries(raw)) == AmountCents(raw)
    ensures Demand(Entries(raw), s) == Demand(raw, s)
  {
    if raw != [] {
      var n := |raw| - 1;
      FilteringKeepsMeaning(raw[..n], s);
      if raw[n].Entry? {
        assert (Entries(raw[..n]) + [raw[n]])[..|Entries(raw[..n])|] == Entries(raw[..n]);
      }
    }
  }

  /** The elements of a payload list that say how much of what: dictionaries with a SKU and an integer quantity. */
  function Countable(raw: seq<RawLine>): seq<Line> {
    if raw == [] then []
    else
      var n := |raw| - 1;
      Countable(raw[..n]) + if raw[n].Entry? && raw[n].sku.Some? && raw[n].quantity.Some?
                            then [Line(raw[n].sku.value, raw[n].quantity.value, 0)] else []
  }

  /** The elements that say what something costs: dictionaries with an integer quantity and an integer price. */
  function Payable(raw: seq<RawLine>): seq<Line> {
    if raw == [] then []
    else
      var n := |raw| - 1;
      Payable(raw[..n]) + if raw[n].Entry? && raw[n].quantity.Some? && raw[n].unitPrice.Some?
                          then [Line("", raw[n].quantity.value, raw[n].unitPrice.value)] else []
  }

  // For any list at all: what it asks for and what it costs is what its well-formed elements say.

  lemma {:induction false} OnlyCountableDemands(raw: seq<RawLine>, s: Sku)
    ensures Demand(raw, s) == UnitsOrdered(Countable(raw), s)
  {
    if raw != [] {
      var n := |raw| - 1;
      OnlyCountableDemands(raw[..n], s);
      assert Countable(raw) == Countable(raw[..n]) || Countable(raw)[..|Countable(raw)| - 1] == Countable(raw[..n]);
    }
  }

  lemma {:induction false} OnlyPayableCosts(raw: seq<RawLine>)
    ensures AmountCents(raw) == OrderTotal(Payable(raw))
  {
    if raw != [] {
      var n := |raw| - 1;
      OnlyPayableCosts(raw[..n]);
      assert Payable(raw) == Payable(raw[..n]) || Payable(raw)[..|Payable(raw)| - 1] == Payable(raw[..n]);
    }
  }

  lemma {:induction false} DemandOutside(es: seq<RawLine>, s: Sku)
    requires forall e | e in es :: e.Entry? ==> e.sku != Some(s)
    ensures Demand(es, s) == 0
  {
    if es != [] {
      DemandOutside(es[..|es| - 1], s);
    }
  }
}
