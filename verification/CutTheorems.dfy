/** The promises of the cutting ledger, for every ledger any interleaving of
    clients can reach (cycle counts that resurrect or spend a source apart). */
module CutTheorems {
  import opened Common
  import opened Domain
  import opened Inventory
  import opened Lineage

  // ------------------------------------------------------------ chain basics

  lemma {:induction false} ChainPrefix(cuts: seq<Cut>, remnants: map<Id, Remnant>, s: Id, i: nat)
    requires i <= |cuts|
    ensures |Chain(cuts[..i], remnants, s)| <= |Chain(cuts, remnants, s)|
    ensures Chain(cuts[..i], remnants, s) == Chain(cuts, remnants, s)[..|Chain(cuts[..i], remnants, s)|]
  {
    if i == |cuts| {
      assert cuts[..i] == cuts;
    } else {
      var n := |cuts| - 1;
      ChainPrefix(cuts[..n], remnants, s, i);
      assert cuts[..n][..i] == cuts[..i];
    }
  }

  /** A cut rooted at s stands in the chain of s at the number of earlier ones. */
  lemma ChainPosition(cuts: seq<Cut>, remnants: map<Id, Remnant>, s: Id, i: nat)
    requires i < |cuts| && RootOf(remnants, cuts[i].source) == Some(s)
    ensures var p := |Chain(cuts[..i], remnants, s)|;
            p < |Chain(cuts, remnants, s)| && Chain(cuts, remnants, s)[p] == cuts[i]
  {
    ChainPrefix(cuts, remnants, s, i + 1);
    assert cuts[..i + 1][..i] == cuts[..i];
  }

  lemma {:induction false} ChainIsCuts(cuts: seq<Cut>, remnants: map<Id, Remnant>, s: Id, p: nat)
    requires p < |Chain(cuts, remnants, s)|
    ensures exists i :: 0 <= i < |cuts| && cuts[i] == Chain(cuts, remnants, s)[p]
  {
    var n := |cuts| - 1;
    if p < |Chain(cuts[..n], remnants, s)| {
      ChainIsCuts(cuts[..n], remnants, s, p);
      var i :| 0 <= i < n && cuts[..n][i] == Chain(cuts, remnants, s)[p];
      assert cuts[i] == Chain(cuts, remnants, s)[p];
    } else {
      assert cuts[n] == Chain(cuts, remnants, s)[p];
    }
  }

  lemma SheetBasics(l: Ledger, s: Id)
    requires Inv(l) && s in l.sheets
    ensures l.sheets[s].dim.Valid() && l.sheets[s].dim.Area() > 0
    ensures SheetSpent(l.sheets[s].status) <==> ChainOf(l, s) != []
  {
    assert SheetOK(l, s);
    ValidArea(l.sheets[s].dim);
  }

  lemma Link(l: Ledger, s: Id, i: nat)
    requires Inv(l) && s in l.sheets && i < |ChainOf(l, s)|
    ensures LinkOK(l, s, ChainOf(l, s), i)
  {
    assert SheetOK(l, s);
  }

  /** Area of the material on hand before link k: the whole sheet, then each
      leftover in turn. */
  function Before(l: Ledger, s: Id, k: nat): int
    requires s in l.sheets && k <= |ChainOf(l, s)|
  {
    if k == 0 then l.sheets[s].dim.Area() else ProducedArea(l, ChainOf(l, s)[k - 1])
  }

  lemma BeforeIsSource(l: Ledger, s: Id, i: nat)
    requires Inv(l) && s in l.sheets && i < |ChainOf(l, s)|
    ensures SourceDim(l, ChainOf(l, s)[i].source).Area() == Before(l, s, i)
    ensures Before(l, s, i + 1) < Before(l, s, i)
  {
    Link(l, s, i);
    if i > 0 { Link(l, s, i - 1); }
    ValidArea(ChainOf(l, s)[i].used);
  }

  lemma {:induction false} StrictlyShrinks(l: Ledger, s: Id, i: nat, j: nat)
    requires Inv(l) && s in l.sheets && i <= j <= |ChainOf(l, s)|
    ensures Before(l, s, j) <= Before(l, s, i) - (j - i)
    decreases j - i
  {
    if i < j {
      StrictlyShrinks(l, s, i, j - 1);
      BeforeIsSource(l, s, j - 1);
    }
  }

  // ------------------------------------------------------------ one-shot use

  lemma ChainSourcesDiffer(l: Ledger, s: Id, a: nat, b: nat)
    requires Inv(l) && s in l.sheets && a < b < |ChainOf(l, s)|
    ensures ChainOf(l, s)[a].source != ChainOf(l, s)[b].source
  {
    Link(l, s, a);
    Link(l, s, b);
    StrictlyShrinks(l, s, a, b);
    BeforeIsSource(l, s, a);
    BeforeIsSource(l, s, b);
  }

  /** No double cut: however many clients hold a validated cut of the same
      sheet or remnant, at most one record of it is ever committed. */
  lemma NoDoubleCut(l: Ledger, i: nat, j: nat)
    requires Reachable(l) && i < j < |l.cuts|
    ensures l.cuts[i].source != l.cuts[j].source
  {
    hide SheetOK, Reachable;
    ReachableInv(l);
    assert Rooted(l, l.cuts[i].source) && Rooted(l, l.cuts[j].source);
    var s := RootOf(l.remnants, l.cuts[i].source).value;
    if RootOf(l.remnants, l.cuts[j].source) == Some(s) {
      ChainPosition(l.cuts, l.remnants, s, i);
      ChainPosition(l.cuts, l.remnants, s, j);
      ChainPosition(l.cuts[..j], l.remnants, s, i);
      assert l.cuts[..j][..i] == l.cuts[..i];
      ChainSourcesDiffer(l, s, |Chain(l.cuts[..i], l.remnants, s)|, |Chain(l.cuts[..j], l.remnants, s)|);
    }
  }

  ghost predicate IsCut(l: Ledger, source: Source) {
    exists i :: 0 <= i < |l.cuts| && l.cuts[i].source == source
  }

  lemma CutIsInChain(l: Ledger, s: Id, source: Source)
    requires Inv(l) && s in l.sheets && RootOf(l.remnants, source) == Some(s)
    ensures IsCut(l, source) <==>
            exists p :: 0 <= p < |ChainOf(l, s)| && ChainOf(l, s)[p].source == source
  {
    hide SheetOK;
    var chain := ChainOf(l, s);
    if IsCut(l, source) {
      var i :| 0 <= i < |l.cuts| && l.cuts[i].source == source;
      ChainPosition(l.cuts, l.remnants, s, i);
      assert chain[|Chain(l.cuts[..i], l.remnants, s)|].source == source;
    }
    if p :| 0 <= p < |chain| && chain[p].source == source {
      ChainIsCuts(l.cuts, l.remnants, s, p);
    }
  }

  /** A sheet is ISSUED exactly when a cutting record of it exists. */
  lemma IssuedIffCut(l: Ledger, s: Id)
    requires Reachable(l) && s in l.sheets
    ensures SheetSpent(l.sheets[s].status) <==> IsCut(l, FromSheet(s))
  {
    ReachableInv(l);
    assert SheetOK(l, s);
    CutIsInChain(l, s, FromSheet(s));
    if ChainOf(l, s) != [] { Link(l, s, 0); }
  }

  /** A remnant is CONSUMED exactly when a cutting record of it exists. */
  lemma ConsumedIffCut(l: Ledger, r: Id)
    requires Reachable(l) && r in l.remnants
    ensures RemnantSpent(l.remnants[r].status) <==> IsCut(l, FromRemnant(r))
  {
    hide Reachable, Chain;
    ReachableInv(l);
    var s := l.remnants[r].parentBoard;
    var chain := ChainOf(l, s);
    CutIsInChain(l, s, FromRemnant(r));
    var i := Producer(l, r);
    Link(l, s, i);
    if i + 1 < |chain| {
      Link(l, s, i + 1);
      assert chain[i + 1].source == FromRemnant(r);
    }
    if p :| 0 <= p < |chain| && chain[p].source == FromRemnant(r) {
      Link(l, s, p);
      Link(l, s, p - 1);
      if p == |chain| { assert false; }
    }
  }

  lemma Producer(l: Ledger, r: Id) returns (i: nat)
    requires Inv(l) && r in l.remnants
    ensures i < |ChainOf(l, l.remnants[r].parentBoard)|
    ensures ChainOf(l, l.remnants[r].parentBoard)[i].produced == Some(r)
  {
    var s := l.remnants[r].parentBoard;
    assert SheetOK(l, s);
    i :| 0 <= i < |ChainOf(l, s)| && ChainOf(l, s)[i].produced == Some(r);
  }

  /** A validated cut whose source has meanwhile been cut by someone else is
      refused at the lock, with the precondition error. */
  lemma LateCommitIsRefused(l: Ledger, op: CutOp)
    requires Reachable(l) && IsCut(l, op.record.source)
    ensures CommitCut(l, op) == Err(PreconditionFailed)
  {
    hide SheetOK, Reachable;
    ReachableInv(l);
    var i :| 0 <= i < |l.cuts| && l.cuts[i].source == op.record.source;
    assert Rooted(l, l.cuts[i].source);
    match op.record.source
    case FromSheet(s) => IssuedIffCut(l, s);
    case FromRemnant(r) => ConsumedIffCut(l, r);
  }

  // ------------------------------------------------------- area conservation

  lemma {:induction false} Telescopes(l: Ledger, s: Id, k: nat)
    requires Inv(l) && s in l.sheets && k <= |ChainOf(l, s)|
    ensures Charged(l, ChainOf(l, s)[..k]) + Before(l, s, k) == l.sheets[s].dim.Area()
  {
    if k > 0 {
      Telescopes(l, s, k - 1);
      assert ChainOf(l, s)[..k][..k - 1] == ChainOf(l, s)[..k - 1];
      BeforeIsSource(l, s, k - 1);
    }
  }

  /** The non-consumed remnants of a cut sheet: the leftover of the last cut, if any. */
  lemma LiveIsLast(l: Ledger, s: Id)
    requires Inv(l) && s in l.sheets
    ensures var chain := ChainOf(l, s);
            LiveRemnants(l, s) == if chain == [] || chain[|chain| - 1].produced.None? then {}
                                  else {chain[|chain| - 1].produced.value}
  {
    var chain := ChainOf(l, s);
    forall r | r in LiveRemnants(l, s)
      ensures chain != [] && chain[|chain| - 1].produced == Some(r)
    {
      var i := Producer(l, r);
      Link(l, s, i);
    }
    if chain != [] { Link(l, s, |chain| - 1); }
  }

  lemma AreaOfSingleton(l: Ledger, r: Id)
    requires r in l.remnants
    ensures AreaOf(l, {r}) == l.remnants[r].dim.Area()
  {
    assert Least({r}) == r;
    assert {r} - {r} == {};
  }

  /** Area conservation under every interleaving: the area of a sheet that has
      been cut is what its lineage used and wasted plus what is still alive. */
  lemma AreaConserved(l: Ledger, s: Id)
    requires Reachable(l) && s in l.sheets && SheetSpent(l.sheets[s].status)
    ensures l.sheets[s].dim.Area() == Charged(l, ChainOf(l, s)) + AreaOf(l, LiveRemnants(l, s))
    ensures forall c :: c in ChainOf(l, s) ==> WasteOf(l, c) >= 0 && c.used.Area() > 0
    ensures |LiveRemnants(l, s)| <= 1
  {
    hide Reachable;
    ReachableInv(l);
    var chain := ChainOf(l, s);
    assert SheetOK(l, s);
    Telescopes(l, s, |chain|);
    assert chain[..|chain|] == chain;
    LiveIsLast(l, s);
    Link(l, s, |chain| - 1);
    if chain[|chain| - 1].produced.Some? { AreaOfSingleton(l, chain[|chain| - 1].produced.value); }
    forall c | c in chain
      ensures WasteOf(l, c) >= 0 && c.used.Area() > 0
    {
      var i :| 0 <= i < |chain| && chain[i] == c;
      Link(l, s, i);
      ValidArea(c.used);
    }
  }

  // ------------------------------------------------------------ lineage shape

  /** The remnant n steps up the parent_remnant_id pointers. */
  function Ancestor(l: Ledger, r: Id, n: nat): Option<Id>
    decreases n
  {
    if r !in l.remnants then None
    else if n == 0 then Some(r)
    else if l.remnants[r].parentRemnant.None? then None
    else Ancestor(l, l.remnants[r].parentRemnant.value, n - 1)
  }

  lemma {:induction false} AncestorsFollowChain(l: Ledger, s: Id, i: nat, n: nat)
    requires Inv(l) && s in l.sheets && i < |ChainOf(l, s)| && ChainOf(l, s)[i].produced.Some?
    ensures Ancestor(l, ChainOf(l, s)[i].produced.value, n)
            == if n <= i then ChainOf(l, s)[i - n].produced else None
    decreases n
  {
    Link(l, s, i);
    if n > 0 && i > 0 {
      AncestorsFollowChain(l, s, i - 1, n - 1);
    }
  }

  lemma {:induction false} FitsInRoot(l: Ledger, s: Id, i: nat)
    requires Inv(l) && s in l.sheets && i < |ChainOf(l, s)| && ChainOf(l, s)[i].produced.Some?
    ensures ChainOf(l, s)[i].produced.value in l.remnants
    ensures l.remnants[ChainOf(l, s)[i].produced.value].dim.FitsInside(l.sheets[s].dim)
  {
    Link(l, s, i);
    if i > 0 {
      FitsInRoot(l, s, i - 1);
    }
  }

  ghost predicate WithinSheet(l: Ledger, r: Id)
    requires r in l.remnants
  {
    var x := l.remnants[r];
    && x.parentBoard in l.sheets
    && var s := l.sheets[x.parentBoard];
    && x.dim.Valid() && x.dim.FitsInside(s.dim) && x.box.FitsInside(x.dim)
    && x.dim.Area() < s.dim.Area()
    && x.material == s.material
  }

  ghost predicate WithinParent(l: Ledger, r: Id)
    requires r in l.remnants
  {
    var x := l.remnants[r];
    x.parentRemnant.Some? ==>
      && x.parentRemnant.value in l.remnants
      && var parent := l.remnants[x.parentRemnant.value];
      && parent.parentBoard == x.parentBoard
      && x.dim.FitsInside(parent.dim) && x.dim.Area() < parent.dim.Area()
  }

  lemma RemnantWithinSheet(l: Ledger, r: Id)
    requires Inv(l) && r in l.remnants
    ensures WithinSheet(l, r)
  {
    hide SheetOK, ChainOf, Chain;
    var s := l.remnants[r].parentBoard;
    var i := Producer(l, r);
    Link(l, s, i);
    FitsInRoot(l, s, i);
    StrictlyShrinks(l, s, 0, i + 1);
  }

  lemma RemnantWithinParent(l: Ledger, r: Id)
    requires Inv(l) && r in l.remnants
    ensures WithinParent(l, r)
  {
    hide SheetOK, ChainOf, Chain;
    var s := l.remnants[r].parentBoard;
    var i := Producer(l, r);
    Link(l, s, i);
    BeforeIsSource(l, s, i);
    if i > 0 { Link(l, s, i - 1); }
  }

  /** Every remnant lies within its root sheet and within its parent remnant:
      fitting on both axes, strictly smaller in area, of the sheet's material. */
  lemma LineageShape(l: Ledger, r: Id)
    requires Reachable(l) && r in l.remnants
    ensures WithinSheet(l, r) && WithinParent(l, r)
  {
    hide *;
    ReachableInv(l);
    RemnantWithinSheet(l, r);
    RemnantWithinParent(l, r);
  }

  /** The remnants of a sheet are one finite parent chain: r was left by some
      cut i, its n-th ancestor is what cut i - n left, and above cut 0 there is
      only the sheet. */
  lemma OneParentChain(l: Ledger, r: Id) returns (i: nat)
    requires Reachable(l) && r in l.remnants
    ensures i < |ChainOf(l, l.remnants[r].parentBoard)|
    ensures forall n: nat :: n <= i ==>
      Ancestor(l, r, n) == ChainOf(l, l.remnants[r].parentBoard)[i - n].produced && Ancestor(l, r, n).Some?
    ensures Ancestor(l, r, i + 1).None?
  {
    hide Reachable, SheetOK, Chain, ChainOf, Ancestor;
    ReachableInv(l);
    var s := l.remnants[r].parentBoard;
    assert s in l.sheets;
    i := Producer(l, r);
    AncestorsFollowChain(l, s, i, i + 1);
    forall n: nat | n <= i
      ensures Ancestor(l, r, n) == ChainOf(l, s)[i - n].produced && Ancestor(l, r, n).Some?
    {
      AncestorsFollowChain(l, s, i, n);
      if n > 0 { Link(l, s, i - n + 1); }
    }
  }

  /** A sheet can be cut at most as many times as it has square millimetres. */
  lemma CutsAreBounded(l: Ledger, s: Id)
    requires Reachable(l) && s in l.sheets
    ensures |ChainOf(l, s)| <= l.sheets[s].dim.Area()
  {
    hide Reachable;
    ReachableInv(l);
    var n := |ChainOf(l, s)|;
    StrictlyShrinks(l, s, 0, n);
    if n > 0 {
      Link(l, s, n - 1);
      if ChainOf(l, s)[n - 1].produced.Some? { ValidArea(l.remnants[ChainOf(l, s)[n - 1].produced.value].dim); }
    } else {
      assert SheetOK(l, s);
      ValidArea(l.sheets[s].dim);
    }
  }

  // ---------------------------------------------- where cycle counts break it

  /** One 10 x 10 sheet, and two clients that use all of it. */
  const TenByTen := Dimension(10, 10)
  const Plain := Material(None, Some("S"), None, None)

  function WholeCut(id: Id): CutOp {
    CutOp(Cut(id, FromSheet(1), 7, 8, TenByTen, None, 0), None)
  }

  /** The sheet on its own, in some status, with some cuts made of it. */
  function OneSheet(status: SheetStatus, issuedTo: Option<Id>, cuts: seq<Cut>): Ledger {
    Ledger(map[1 := Sheet(5, TenByTen, 100, status, issuedTo, Plain)], map[], cuts)
  }

  /** The sheet cut whole for work order 7. */
  const Whole := CutInput(Some(1), None, 7, 8, TenByTen, None, true, "", None, None)

  function Receiving(): seq<Step> {
    [StepReceive(ReceiveInput(1, TenByTen, 100, "S"), 5, [1]), StepQCPass(5)]
  }

  /** A client validates a cut of the whole sheet and commits it. */
  function CuttingWhole(id: Id): seq<Step> {
    [StepBeginCut(1, Whole, CutEnv(false, 0, 0, id, 99, 0)), StepCommitCut(1)]
  }

  const Reopening := StepCount(CountSheet(1, InStock))

  lemma RunTwo(s: System, a: Step, b: Step)
    ensures Run(s, [a, b]) == Next(Next(s, a), b) && Run(s, [a]) == Next(s, a)
  {
    hide Next;
    assert [a, b][1..] == [b] && [b][1..] == [] && [a][1..] == [];
    assert Run(Next(s, a), [b]) == Run(Next(Next(s, a), b), []);
  }

  lemma {:induction false} RunConcat(s: System, a: seq<Step>, b: seq<Step>)
    ensures Run(s, a + b) == Run(Run(s, a), b)
    decreases |a|
  {
    hide Next;
    if a == [] {
      assert a + b == b;
    } else {
      assert (a + b)[1..] == a[1..] + b;
      RunConcat(Next(s, a[0]), a[1..], b);
    }
  }

  lemma OneReceived()
    ensures Run(Empty, Receiving()) == System(OneSheet(InStock, None, []), map[])
  {
    RunTwo(Empty, Receiving()[0], Receiving()[1]);
    var received := ReceiveStock(Empty.ledger, ReceiveInput(1, TenByTen, 100, "S"), 5, [1]);
    assert 1 in [1];
    assert received.value.sheets == map[1 := Sheet(5, TenByTen, 100, PendingQC, None, Plain)];
    assert QCPassLot(received.value, 5).sheets == OneSheet(InStock, None, []).sheets;
  }

  lemma OneSheetPrepared(issuedTo: Option<Id>, cuts: seq<Cut>, env: CutEnv)
    requires !env.overflowRed && env.now == 0
    ensures PrepareCut(OneSheet(InStock, issuedTo, cuts), Whole, env) == Ok(WholeCut(env.cutId))
    ensures PrepareCut(OneSheet(Issued, issuedTo, cuts), Whole, env) == Err(InvalidInput)
  {
  }

  lemma OneSheetCommitted(cuts: seq<Cut>, issuedTo: Option<Id>, id: Id)
    requires forall i :: 0 <= i < |cuts| ==> cuts[i].id != id
    ensures CommitCut(OneSheet(InStock, issuedTo, cuts), WholeCut(id))
            == Ok(OneSheet(Issued, Some(7), cuts + [WholeCut(id).record]))
  {
    var l := OneSheet(InStock, issuedTo, cuts);
    assert l.sheets[1 := l.sheets[1].(status := Issued, issuedTo := Some(7))]
      == OneSheet(Issued, Some(7), []).sheets;
  }

  /** In stock the sheet is cut, once issued it is not. */
  lemma OneSheetCut(cuts: seq<Cut>, issuedTo: Option<Id>, id: Id)
    requires forall i :: 0 <= i < |cuts| ==> cuts[i].id != id
    ensures Run(System(OneSheet(InStock, issuedTo, cuts), map[]), CuttingWhole(id))
            == System(OneSheet(Issued, Some(7), cuts + [WholeCut(id).record]), map[])
    ensures Run(System(OneSheet(Issued, issuedTo, cuts), map[]), CuttingWhole(id))
            == System(OneSheet(Issued, issuedTo, cuts), map[])
  {
    hide PrepareCut, CommitCut, OneSheet;
    var env := CutEnv(false, 0, 0, id, 99, 0);
    OneSheetPrepared(issuedTo, cuts, env);
    OneSheetCommitted(cuts, issuedTo, id);
    RunTwo(System(OneSheet(InStock, issuedTo, cuts), map[]), StepBeginCut(1, Whole, env), StepCommitCut(1));
    RunTwo(System(OneSheet(Issued, issuedTo, cuts), map[]), StepBeginCut(1, Whole, env), StepCommitCut(1));
    assert map[][1 := WholeCut(id)] - {1} == map[];
  }

  lemma OneSheetReopened(issuedTo: Option<Id>, cuts: seq<Cut>)
    ensures Run(System(OneSheet(Issued, issuedTo, cuts), map[]), [Reopening])
            == System(OneSheet(InStock, issuedTo, cuts), map[])
  {
    RunTwo(System(OneSheet(Issued, issuedTo, cuts), map[]), Reopening, Reopening);
    assert ApplyCount(OneSheet(Issued, issuedTo, cuts), CountSheet(1, InStock)).sheets
      == OneSheet(InStock, issuedTo, cuts).sheets;
  }

  /** All the cuts of the sheet are charged in full. */
  lemma {:induction false} WholeCutsCharged(l: Ledger, cuts: seq<Cut>)
    requires l.remnants == map[] && 1 in l.sheets && l.sheets[1].dim == TenByTen
    requires forall i :: 0 <= i < |cuts| ==>
      cuts[i].source == FromSheet(1) && cuts[i].used == TenByTen && cuts[i].produced == None
    ensures Chain(cuts, l.remnants, 1) == cuts
    ensures Charged(l, cuts) == 100 * |cuts|
  {
    if cuts != [] {
      var n := |cuts| - 1;
      WholeCutsCharged(l, cuts[..n]);
      assert cuts[..n] + [cuts[n]] == cuts;
      assert cuts[n].used.Area() == 100 && WasteOf(l, cuts[n]) == 0;
    }
  }

  /** A posted count that puts an ISSUED sheet back to AVAILABLE lets it be
      validated and cut a second time: 200 square millimetres are charged to a
      sheet of 100. Without the count the same clients make one cut. */
  lemma CountCanReopenASheet()
    ensures var l := Run(Empty, Receiving() + CuttingWhole(1) + [Reopening] + CuttingWhole(2)).ledger;
            && |l.cuts| == 2 && l.cuts[0].source == l.cuts[1].source == FromSheet(1)
            && 1 in l.sheets && l.sheets[1].dim.Area() == 100
            && Charged(l, ChainOf(l, 1)) == 200
    ensures |Run(Empty, Receiving() + CuttingWhole(1) + CuttingWhole(2)).ledger.cuts| == 1
  {
    hide Run, Chain, Charged, Receiving, CuttingWhole;
    var a, b := WholeCut(1).record, WholeCut(2).record;
    assert [] + [a] == [a] && [a] + [b] == [a, b];
    RunConcat(Empty, Receiving(), CuttingWhole(1));
    RunConcat(Empty, Receiving() + CuttingWhole(1), CuttingWhole(2));
    RunConcat(Empty, Receiving() + CuttingWhole(1), [Reopening]);
    RunConcat(Empty, Receiving() + CuttingWhole(1) + [Reopening], CuttingWhole(2));
    OneReceived();
    OneSheetCut([], None, 1);
    OneSheetCut([a], Some(7), 2);
    OneSheetReopened(Some(7), [a]);
    WholeCutsCharged(OneSheet(Issued, Some(7), [a, b]), [a, b]);
  }
}
