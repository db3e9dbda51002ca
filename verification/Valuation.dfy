/** The waste report and the material cost of a lineage: the report's join finds
    exactly the remnant each cut produced, and the integer money charged for a
    sheet never exceeds its cost. */
module Valuation {
  import opened Common
  import opened Domain
  import opened Inventory
  import opened Lineage
  import opened CutTheorems

  // -------------------------------------------------------- the report's join

  /** Rows the report's subquery matches for a cut: leftovers are looked up by
      parent columns, not by produced_remnant_id. */
  function JoinRows(l: Ledger, c: Cut): set<Id> {
    set r | r in l.remnants &&
      match c.source
      case FromSheet(s) => l.remnants[r].parentBoard == s && l.remnants[r].parentRemnant == None
      case FromRemnant(q) => l.remnants[r].parentRemnant == Some(q)
  }

  /** COALESCE of the subquery, whose LIMIT 1 keeps one of the matching rows. */
  function ReportLeftover(l: Ledger, c: Cut): int {
    var rows := JoinRows(l, c);
    if rows == {} then 0 else l.remnants[Least(rows)].dim.Area()
  }

  function Unclamped(l: Ledger, c: Cut): int {
    SourceDim(l, c.source).Area() - c.used.Area() - ReportLeftover(l, c)
  }

  /** GREATEST(source - used - leftover, 0). */
  function ReportWaste(l: Ledger, c: Cut): int {
    if Unclamped(l, c) > 0 then Unclamped(l, c) else 0
  }

  lemma SameProducer(l: Ledger, s: Id, i: nat, j: nat)
    requires Inv(l) && s in l.sheets && i < |ChainOf(l, s)| && j < |ChainOf(l, s)|
    requires ChainOf(l, s)[i].produced.Some? && ChainOf(l, s)[i].produced == ChainOf(l, s)[j].produced
    ensures i == j
  {
    if i < j { StrictlyShrinks(l, s, i + 1, j + 1); }
    if j < i { StrictlyShrinks(l, s, j + 1, i + 1); }
  }

  lemma JoinFindsOnly(l: Ledger, s: Id, k: nat, r: Id)
    requires Inv(l) && s in l.sheets && k < |ChainOf(l, s)|
    requires r in JoinRows(l, ChainOf(l, s)[k])
    ensures ChainOf(l, s)[k].produced == Some(r)
  {
    hide SheetOK, ChainOf, Chain;
    var chain := ChainOf(l, s);
    Link(l, s, k);
    var t := l.remnants[r].parentBoard;
    var i := Producer(l, r);
    Link(l, t, i);
    if k > 0 {
      Link(l, s, k - 1);
      Link(l, t, i - 1);
      SameProducer(l, s, i - 1, k - 1);
    }
  }

  lemma JoinFindsProduced(l: Ledger, s: Id, k: nat)
    requires Inv(l) && s in l.sheets && k < |ChainOf(l, s)|
    ensures JoinRows(l, ChainOf(l, s)[k])
            == if ChainOf(l, s)[k].produced.Some? then {ChainOf(l, s)[k].produced.value} else {}
  {
    hide SheetOK, ChainOf, Chain;
    Link(l, s, k);
    if k > 0 { Link(l, s, k - 1); }
    forall r | r in JoinRows(l, ChainOf(l, s)[k])
      ensures ChainOf(l, s)[k].produced == Some(r)
    {
      JoinFindsOnly(l, s, k, r);
    }
  }

  /** For every committed cut the report's join finds exactly the remnant named
      by produced_remnant_id, none when that is nil; so its waste figure is the
      true one, the clamp to zero never fires, and the root sheet it groups by
      is the sheet whose own cut starts the chain. */
  lemma ReportAgreesWithLink(l: Ledger, i: nat)
    requires Reachable(l) && i < |l.cuts|
    ensures JoinRows(l, l.cuts[i]) == if l.cuts[i].produced.Some? then {l.cuts[i].produced.value} else {}
    ensures Unclamped(l, l.cuts[i]) >= 0
    ensures ReportWaste(l, l.cuts[i]) == WasteOf(l, l.cuts[i])
    ensures RootOf(l.remnants, l.cuts[i].source).Some?
    ensures var chain := ChainOf(l, RootOf(l.remnants, l.cuts[i].source).value);
            l.cuts[i] in chain && chain[0].source == FromSheet(RootOf(l.remnants, l.cuts[i].source).value)
  {
    hide Reachable, SheetOK, Chain;
    ReachableInv(l);
    assert Rooted(l, l.cuts[i].source);
    var s := RootOf(l.remnants, l.cuts[i].source).value;
    ChainPosition(l.cuts, l.remnants, s, i);
    var k := |Chain(l.cuts[..i], l.remnants, s)|;
    ReportOnChain(l, s, k);
    Link(l, s, 0);
  }

  lemma ReportOnChain(l: Ledger, s: Id, k: nat)
    requires Inv(l) && s in l.sheets && k < |ChainOf(l, s)|
    ensures var c := ChainOf(l, s)[k];
            && JoinRows(l, c) == (if c.produced.Some? then {c.produced.value} else {})
            && Unclamped(l, c) == WasteOf(l, c) >= 0
            && ReportWaste(l, c) == WasteOf(l, c)
  {
    hide SheetOK, ChainOf, Chain;
    var c := ChainOf(l, s)[k];
    Link(l, s, k);
    JoinFindsProduced(l, s, k);
    if c.produced.Some? {
      assert Least(JoinRows(l, c)) == c.produced.value;
    }
  }

  // ------------------------------------------------- truncated apportionment

  function Sum(parts: seq<int>): int {
    if parts == [] then 0 else Sum(parts[..|parts| - 1]) + parts[|parts| - 1]
  }

  /** What the truncating formula charges for areas out of a sheet. */
  function Charges(cost: int, area: int, parts: seq<int>): int {
    if parts == [] then 0
    else Charges(cost, area, parts[..|parts| - 1]) + Scale(cost, parts[|parts| - 1], area)
  }

  ghost predicate NonNegative(parts: seq<int>) {
    forall i :: 0 <= i < |parts| ==> parts[i] >= 0
  }

  /** Each part loses less than one unit to truncation. */
  lemma {:induction false} ChargesAreClose(cost: int, area: int, parts: seq<int>)
    requires cost >= 0 && area > 0 && NonNegative(parts)
    ensures 0 <= cost * Sum(parts) - Charges(cost, area, parts) * area <= |parts| * (area - 1)
  {
    if parts != [] {
      var n := |parts| - 1;
      ChargesAreClose(cost, area, parts[..n]);
      var rest := TruncatesTowardZero(cost * parts[n], area);
      assert cost * parts[n] >= 0;
      Distribute(cost, Sum(parts[..n]), parts[n]);
      Distribute(area, Charges(cost, area, parts[..n]), Scale(cost, parts[n], area));
      Distribute(area - 1, n, 1);
    }
  }

  lemma Distribute(x: int, a: int, b: int)
    ensures x * (a + b) == x * a + x * b && (a + b) * x == a * x + b * x
  {
  }

  lemma ChargesWithinCost(cost: int, area: int, parts: seq<int>)
    requires cost >= 0 && area > 0 && NonNegative(parts) && Sum(parts) <= area
    ensures 0 <= Charges(cost, area, parts) <= cost
    ensures Sum(parts) == area ==> cost - Charges(cost, area, parts) < |parts|
  {
    ChargesAreClose(cost, area, parts);
    ChargesNonNegative(cost, area, parts);
    MulMono(Sum(parts), area, cost);
    var q := Charges(cost, area, parts);
    if q > cost { StrictMul(area, cost, q); }
    if Sum(parts) == area && cost - q >= |parts| {
      MulMono(|parts|, cost - q, area);
      Distribute(area, cost, -q);
      Distribute(|parts|, area, -1);
      NegProduct(q, area);
    }
  }

  lemma StrictMul(area: int, a: int, b: int)
    requires area > 0 && a < b
    ensures a * area < b * area
  {
  }

  lemma ScaleNonNegative(cost: int, p: int, area: int)
    requires cost >= 0 && p >= 0 && area > 0
    ensures Scale(cost, p, area) >= 0
  {
    assert cost * p >= 0;
  }

  lemma ScaleIsOdd(cost: int, p: int, area: int)
    requires area > 0
    ensures Scale(-cost, p, area) == -Scale(cost, p, area)
  {
    hide TruncDiv;
    NegProduct(p, cost);
    assert -cost * p == -(cost * p);
    TruncIsOdd(cost * p, area);
  }

  lemma {:induction false} ChargesNonNegative(cost: int, area: int, parts: seq<int>)
    requires cost >= 0 && area > 0 && NonNegative(parts)
    ensures Charges(cost, area, parts) >= 0
  {
    if parts != [] {
      ChargesNonNegative(cost, area, parts[..|parts| - 1]);
      ScaleNonNegative(cost, parts[|parts| - 1], area);
    }
  }

  /** A negative sheet cost is charged like the positive one, with the sign flipped. */
  lemma {:induction false} ChargesAreOdd(cost: int, area: int, parts: seq<int>)
    requires area > 0
    ensures Charges(-cost, area, parts) == -Charges(cost, area, parts)
  {
    if parts != [] {
      var n := |parts| - 1;
      ChargesAreOdd(cost, area, parts[..n]);
      ScaleIsOdd(cost, parts[n], area);
    }
  }

  // ------------------------------------------------------- money of a lineage

  /** Material cost: only cutting records joined to a board sheet are charged. */
  function DirectCharge(l: Ledger, s: Id, cuts: seq<Cut>): int
    requires s in l.sheets
  {
    if cuts == [] then 0
    else
      var n := |cuts| - 1;
      DirectCharge(l, s, cuts[..n])
      + if cuts[n].source == FromSheet(s)
        then Scale(l.sheets[s].cost, cuts[n].used.Area(), l.sheets[s].dim.Area()) else 0
  }

  /** The report's waste cost: per cut, at the root sheet's cost per area. */
  function WasteCharge(l: Ledger, s: Id, cuts: seq<Cut>): int
    requires s in l.sheets
  {
    if cuts == [] then 0
    else
      var n := |cuts| - 1;
      WasteCharge(l, s, cuts[..n]) + Scale(l.sheets[s].cost, ReportWaste(l, cuts[n]), l.sheets[s].dim.Area())
  }

  function WasteParts(l: Ledger, cuts: seq<Cut>): seq<int> {
    if cuts == [] then [] else WasteParts(l, cuts[..|cuts| - 1]) + [WasteOf(l, cuts[|cuts| - 1])]
  }

  function AllParts(l: Ledger, cuts: seq<Cut>): seq<int> {
    if cuts == [] then []
    else
      var n := |cuts| - 1;
      AllParts(l, cuts[..n]) + [cuts[n].used.Area(), WasteOf(l, cuts[n])]
  }

  lemma LinkCharges(l: Ledger, s: Id, i: nat)
    requires Inv(l) && s in l.sheets && i < |ChainOf(l, s)|
    ensures ChainOf(l, s)[i].used.Area() >= 0 && WasteOf(l, ChainOf(l, s)[i]) >= 0
  {
    hide SheetOK, ChainOf, Chain, WasteOf, Dimension.Area;
    Link(l, s, i);
    ValidArea(ChainOf(l, s)[i].used);
  }

  /** The parts of a chain of cuts, and what they add up to. */
  ghost predicate PartsOK(l: Ledger, cuts: seq<Cut>) {
    && NonNegative(WasteParts(l, cuts)) && NonNegative(AllParts(l, cuts))
    && |AllParts(l, cuts)| == 2 * |cuts|
    && Sum(AllParts(l, cuts)) == Charged(l, cuts)
    && Sum(WasteParts(l, cuts)) + (if cuts != [] then cuts[0].used.Area() else 0) <= Charged(l, cuts)
  }

  lemma PartsSnoc(l: Ledger, cuts: seq<Cut>)
    requires cuts != [] && PartsOK(l, cuts[..|cuts| - 1])
    requires cuts[|cuts| - 1].used.Area() >= 0 && WasteOf(l, cuts[|cuts| - 1]) >= 0
    ensures PartsOK(l, cuts)
  {
    hide WasteOf, Dimension.Area;
    var n := |cuts| - 1;
    var c := cuts[n];
    SumAppend(AllParts(l, cuts[..n]), c.used.Area(), WasteOf(l, c));
    var waste := WasteParts(l, cuts);
    assert waste[..|waste| - 1] == WasteParts(l, cuts[..n]);
  }

  lemma {:induction false} PartsOfChain(l: Ledger, s: Id, k: nat)
    requires Inv(l) && s in l.sheets && k <= |ChainOf(l, s)|
    ensures PartsOK(l, ChainOf(l, s)[..k])
  {
    if k > 0 {
      hide Inv, ChainOf, WasteOf, Dimension.Area, PartsOK;
      PartsOfChain(l, s, k - 1);
      assert ChainOf(l, s)[..k][..k - 1] == ChainOf(l, s)[..k - 1];
      LinkCharges(l, s, k - 1);
      PartsSnoc(l, ChainOf(l, s)[..k]);
    } else {
      hide Inv, ChainOf;
    }
  }

  lemma {:induction false} ChargesOfChain(l: Ledger, s: Id, k: nat)
    requires Inv(l) && s in l.sheets && k <= |ChainOf(l, s)|
    ensures var cuts := ChainOf(l, s)[..k];
            && WasteCharge(l, s, cuts) == Charges(l.sheets[s].cost, l.sheets[s].dim.Area(), WasteParts(l, cuts))
            && DirectCharge(l, s, cuts)
               == if k > 0 then Scale(l.sheets[s].cost, cuts[0].used.Area(), l.sheets[s].dim.Area()) else 0
  {
    hide SheetOK, ChainOf, Chain, Scale;
    var cuts := ChainOf(l, s)[..k];
    if k > 0 {
      var c := cuts[k - 1];
      ChargesOfChain(l, s, k - 1);
      assert cuts[..k - 1] == ChainOf(l, s)[..k - 1];
      Link(l, s, k - 1);
      ReportOnChain(l, s, k - 1);
      assert WasteParts(l, cuts) == WasteParts(l, cuts[..k - 1]) + [WasteOf(l, c)];
      assert WasteParts(l, cuts)[..|WasteParts(l, cuts)| - 1] == WasteParts(l, cuts[..k - 1]);
    }
  }

  lemma SumAppend(parts: seq<int>, a: int, b: int)
    ensures Sum(parts + [a, b]) == Sum(parts) + a + b
  {
    assert (parts + [a, b])[..|parts| + 1] == parts + [a];
    assert (parts + [a])[..|parts|] == parts;
  }

  lemma {:induction false} PrependPart(cost: int, area: int, p: int, parts: seq<int>)
    ensures Sum([p] + parts) == p + Sum(parts)
    ensures Charges(cost, area, [p] + parts) == Scale(cost, p, area) + Charges(cost, area, parts)
  {
    if parts == [] {
      assert [p] + parts == [p];
    } else {
      var n := |parts| - 1;
      PrependPart(cost, area, p, parts[..n]);
      assert ([p] + parts)[..n + 1] == [p] + parts[..n];
    }
  }

  lemma ChargesBounded(cost: int, area: int, parts: seq<int>)
    requires area > 0 && NonNegative(parts) && Sum(parts) <= area
    ensures Abs(Charges(cost, area, parts)) <= Abs(cost)
  {
    if cost >= 0 {
      ChargesWithinCost(cost, area, parts);
    } else {
      ChargesWithinCost(-cost, area, parts);
      ChargesAreOdd(cost, area, parts);
    }
  }

  /** Money bound over a whole lineage: the direct cut's material cost plus the
      report's waste cost of every cut never exceeds the sheet cost. */
  lemma LineageCostBounded(l: Ledger, s: Id)
    requires Reachable(l) && s in l.sheets && SheetSpent(l.sheets[s].status)
    ensures Abs(DirectCharge(l, s, ChainOf(l, s)) + WasteCharge(l, s, ChainOf(l, s))) <= Abs(l.sheets[s].cost)
  {
    hide Reachable, ChainOf, SheetOK, Scale, LiveRemnants, AreaOf, WasteOf;
    ReachableInv(l);
    AreaConserved(l, s);
    SheetBasics(l, s);
    var chain := ChainOf(l, s);
    var area := l.sheets[s].dim.Area();
    assert chain[..|chain|] == chain;
    PartsOfChain(l, s, |chain|);
    ChargesOfChain(l, s, |chain|);
    LiveAreaNonNegative(l, s);
    var parts := [chain[0].used.Area()] + WasteParts(l, chain);
    PrependPart(l.sheets[s].cost, area, chain[0].used.Area(), WasteParts(l, chain));
    assert chain[0] in chain;
    ChargesBounded(l.sheets[s].cost, area, parts);
  }

  lemma LiveAreaNonNegative(l: Ledger, s: Id)
    requires Inv(l) && s in l.sheets
    ensures AreaOf(l, LiveRemnants(l, s)) >= 0
  {
    hide SheetOK, Chain;
    LiveIsLast(l, s);
    var chain := ChainOf(l, s);
    if chain != [] && chain[|chain| - 1].produced.Some? {
      Link(l, s, |chain| - 1);
      AreaOfSingleton(l, chain[|chain| - 1].produced.value);
      ValidArea(l.remnants[chain[|chain| - 1].produced.value].dim);
    }
  }

  /** Charging the used, wasted and live areas of n cuts by the truncating
      formula gives away at least 0 and fewer than 2n + 1 units of the sheet cost. */
  lemma TruncationLossBounded(l: Ledger, s: Id)
    requires Reachable(l) && s in l.sheets && SheetSpent(l.sheets[s].status) && l.sheets[s].cost >= 0
    ensures var parts := AllParts(l, ChainOf(l, s)) + [AreaOf(l, LiveRemnants(l, s))];
            0 <= l.sheets[s].cost - Charges(l.sheets[s].cost, l.sheets[s].dim.Area(), parts)
              < 2 * |ChainOf(l, s)| + 1
  {
    hide Reachable, ChainOf, SheetOK, Scale, LiveRemnants, AreaOf, WasteOf;
    ReachableInv(l);
    AreaConserved(l, s);
    SheetBasics(l, s);
    var chain := ChainOf(l, s);
    assert chain[..|chain|] == chain;
    PartsOfChain(l, s, |chain|);
    LiveAreaNonNegative(l, s);
    var parts := AllParts(l, chain) + [AreaOf(l, LiveRemnants(l, s))];
    assert parts[..|parts| - 1] == AllParts(l, chain);
    ChargesWithinCost(l.sheets[s].cost, l.sheets[s].dim.Area(), parts);
  }
}
