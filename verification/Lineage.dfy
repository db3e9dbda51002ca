/** What every interleaved run of the cutting ledger keeps: the cuts rooted at
    one sheet form a chain, each using up the leftover of the one before. Area
    conservation, one-shot sources and the shape of the lineage follow. */
module Lineage {
  import opened Common
  import opened Domain
  import opened Inventory

  // ------------------------------------------------------------- definitions

  /** The board sheet a source comes from. */
  function RootOf(remnants: map<Id, Remnant>, source: Source): Option<Id> {
    match source
    case FromSheet(s) => Some(s)
    case FromRemnant(r) => if r in remnants then Some(remnants[r].parentBoard) else None
  }

  /** The cuts rooted at sheet s, in commit order. */
  function Chain(cuts: seq<Cut>, remnants: map<Id, Remnant>, s: Id): seq<Cut> {
    if cuts == [] then []
    else
      var n := |cuts| - 1;
      Chain(cuts[..n], remnants, s)
      + if RootOf(remnants, cuts[n].source) == Some(s) then [cuts[n]] else []
  }

  function ChainOf(l: Ledger, s: Id): seq<Cut> { Chain(l.cuts, l.remnants, s) }

  function SourceDim(l: Ledger, source: Source): Dimension {
    match source
    case FromSheet(s) => if s in l.sheets then l.sheets[s].dim else Dimension(0, 0)
    case FromRemnant(r) => if r in l.remnants then l.remnants[r].dim else Dimension(0, 0)
  }

  function SourceMaterial(l: Ledger, source: Source): Option<Material> {
    match source
    case FromSheet(s) => if s in l.sheets then Some(l.sheets[s].material) else None
    case FromRemnant(r) => if r in l.remnants then Some(l.remnants[r].material) else None
  }

  function ProducedArea(l: Ledger, c: Cut): int {
    if c.produced.Some? && c.produced.value in l.remnants then l.remnants[c.produced.value].dim.Area() else 0
  }

  /** Source area minus used area minus leftover area. */
  function WasteOf(l: Ledger, c: Cut): int {
    SourceDim(l, c.source).Area() - c.used.Area() - ProducedArea(l, c)
  }

  predicate SheetSpent(st: SheetStatus) { st == Issued }

  predicate RemnantSpent(st: RemnantStatus) { st == Consumed }

  function LiveRemnants(l: Ledger, s: Id): (live: set<Id>)
    ensures live <= l.remnants.Keys
  {
    set r | r in l.remnants && l.remnants[r].parentBoard == s && !RemnantSpent(l.remnants[r].status)
  }

  function AreaOf(l: Ledger, ids: set<Id>): int
    requires ids <= l.remnants.Keys
  {
    if ids == {} then 0
    else var k := Least(ids); l.remnants[k].dim.Area() + AreaOf(l, ids - {k})
  }

  /** Used and wasted area of a sequence of cuts. */
  function Charged(l: Ledger, cuts: seq<Cut>): int {
    if cuts == [] then 0
    else
      var n := |cuts| - 1;
      Charged(l, cuts[..n]) + cuts[n].used.Area() + WasteOf(l, cuts[n])
  }

  // --------------------------------------------------------------- invariant

  /** The source of link i, given the links before it. */
  function ParentLink(chain: seq<Cut>, i: nat): Option<Id>
    requires i <= |chain|
  {
    if i == 0 then None else chain[i - 1].produced
  }

  ghost predicate LeftoverOK(l: Ledger, s: Id, c: Cut, parent: Option<Id>, last: bool)
    requires s in l.sheets
  {
    c.produced.Some? ==>
      && c.produced.value in l.remnants
      && var r := l.remnants[c.produced.value];
      && r.parentBoard == s && r.parentRemnant == parent
      && r.dim.Valid() && r.dim.FitsInside(SourceDim(l, c.source)) && r.box.FitsInside(r.dim)
      && r.material == l.sheets[s].material
      && (RemnantSpent(r.status) <==> !last)
  }

  ghost predicate LinkOK(l: Ledger, s: Id, chain: seq<Cut>, i: nat)
    requires s in l.sheets && i < |chain|
  {
    && (i > 0 ==> chain[i - 1].produced.Some?)
    && chain[i].source == (if i == 0 then FromSheet(s) else FromRemnant(chain[i - 1].produced.value))
    && chain[i].used.Valid()
    && WasteOf(l, chain[i]) >= 0
    && LeftoverOK(l, s, chain[i], ParentLink(chain, i), i == |chain| - 1)
  }

  ghost predicate SheetOK(l: Ledger, s: Id)
    requires s in l.sheets
  {
    var chain := ChainOf(l, s);
    && l.sheets[s].dim.Valid()
    && (SheetSpent(l.sheets[s].status) <==> chain != [])
    && (forall i :: 0 <= i < |chain| ==> LinkOK(l, s, chain, i))
    && (forall r :: r in l.remnants && l.remnants[r].parentBoard == s ==>
      exists i :: 0 <= i < |chain| && chain[i].produced == Some(r))
  }

  ghost predicate Rooted(l: Ledger, source: Source) {
    RootOf(l.remnants, source).Some? && RootOf(l.remnants, source).value in l.sheets
  }

  ghost predicate Inv(l: Ledger) {
    && (forall s :: s in l.sheets ==> SheetOK(l, s))
    && (forall r :: r in l.remnants ==> l.remnants[r].parentBoard in l.sheets)
    && (forall i :: 0 <= i < |l.cuts| ==> Rooted(l, l.cuts[i].source))
  }

  /** A validated cut agrees with the immutable part of its source row,
      whatever has happened to the statuses since. */
  ghost predicate OpOK(l: Ledger, op: CutOp) {
    var src := op.record.source;
    var leftover := if op.newRemnant.Some? then op.newRemnant.value.dim.Area() else 0;
    && Rooted(l, src)
    && op.record.used.Valid()
    && op.record.used.Area() + leftover <= SourceDim(l, src).Area()
    && (op.newRemnant.Some? <==> op.record.produced.Some?)
    && (op.newRemnant.Some? ==>
      var n := op.newRemnant.value;
      && Some(n.parentBoard) == RootOf(l.remnants, src)
      && n.parentRemnant == (if src.FromRemnant? then Some(src.remnant) else None)
      && n.dim.Valid() && n.dim.FitsInside(SourceDim(l, src)) && n.box.FitsInside(n.dim)
      && Some(n.material) == SourceMaterial(l, src)
      && n.status == Available)
  }

  ghost predicate SystemInv(s: System) {
    Inv(s.ledger) && forall c :: c in s.pending ==> OpOK(s.ledger, s.pending[c])
  }

  // ------------------------------------------- steps other than a committed cut

  /** Nothing but non-spending statuses and allocation columns changed, and new
      sheets arrived unspent. */
  ghost predicate Frame(l: Ledger, l': Ledger) {
    && l'.cuts == l.cuts
    && l'.remnants.Keys == l.remnants.Keys
    && (forall r :: r in l.remnants ==>
      var a, b := l.remnants[r], l'.remnants[r];
      && b.parentBoard == a.parentBoard && b.parentRemnant == a.parentRemnant
      && b.dim == a.dim && b.box == a.box && b.material == a.material
      && (RemnantSpent(b.status) <==> RemnantSpent(a.status)))
    && (forall s :: s in l.sheets ==> s in l'.sheets)
    && (forall s :: s in l'.sheets ==>
      var b := l'.sheets[s];
      if s in l.sheets then
        var a := l.sheets[s];
        b.dim == a.dim && b.material == a.material && b.cost == a.cost
        && (SheetSpent(b.status) <==> SheetSpent(a.status))
      else b.dim.Valid() && !SheetSpent(b.status))
  }

  /** The chain of a sheet depends on the remnants only through the boards of
      the cut sources. */
  lemma {:induction false} ChainStable(cuts: seq<Cut>, a: map<Id, Remnant>, b: map<Id, Remnant>, s: Id)
    requires forall i :: 0 <= i < |cuts| ==> RootOf(a, cuts[i].source) == RootOf(b, cuts[i].source)
    ensures Chain(cuts, a, s) == Chain(cuts, b, s)
  {
    if cuts != [] {
      ChainStable(cuts[..|cuts| - 1], a, b, s);
    }
  }

  lemma {:induction false} ChainMembers(cuts: seq<Cut>, remnants: map<Id, Remnant>, s: Id)
    ensures forall i :: 0 <= i < |Chain(cuts, remnants, s)| ==>
      RootOf(remnants, Chain(cuts, remnants, s)[i].source) == Some(s)
  {
    if cuts != [] {
      ChainMembers(cuts[..|cuts| - 1], remnants, s);
    }
  }

  lemma FrameKeepsLink(l: Ledger, l': Ledger, s: Id, chain: seq<Cut>, i: nat)
    requires Frame(l, l') && s in l.sheets && i < |chain| && LinkOK(l, s, chain, i)
    requires Rooted(l, chain[i].source)
    ensures LinkOK(l', s, chain, i)
  {
    assert SourceDim(l', chain[i].source) == SourceDim(l, chain[i].source);
    assert ProducedArea(l', chain[i]) == ProducedArea(l, chain[i]);
  }

  lemma FrameKeepsSheet(l: Ledger, l': Ledger, s: Id)
    requires Inv(l) && Frame(l, l') && s in l.sheets
    ensures SheetOK(l', s)
  {
    var chain := ChainOf(l, s);
    assert SheetOK(l, s);
    ChainStable(l.cuts, l.remnants, l'.remnants, s);
    ChainMembers(l.cuts, l.remnants, s);
    forall i | 0 <= i < |chain|
      ensures LinkOK(l', s, chain, i)
    {
      FrameKeepsLink(l, l', s, chain, i);
    }
  }

  lemma FrameAddsSheet(l: Ledger, l': Ledger, s: Id)
    requires Inv(l) && Frame(l, l') && s in l'.sheets && s !in l.sheets
    ensures SheetOK(l', s)
  {
    NoChain(l, s);
    ChainStable(l.cuts, l.remnants, l'.remnants, s);
  }

  lemma FrameKeepsInv(l: Ledger, l': Ledger)
    requires Inv(l) && Frame(l, l')
    ensures Inv(l')
  {
    hide SheetOK;
    forall s | s in l'.sheets
      ensures SheetOK(l', s)
    {
      if s in l.sheets {
        FrameKeepsSheet(l, l', s);
      } else {
        FrameAddsSheet(l, l', s);
      }
    }
    forall i | 0 <= i < |l'.cuts|
      ensures Rooted(l', l'.cuts[i].source)
    {
      assert Rooted(l, l.cuts[i].source);
    }
  }

  lemma NoChain(l: Ledger, s: Id)
    requires Inv(l) && s !in l.sheets
    ensures ChainOf(l, s) == []
  {
    ChainFromCuts(l.cuts, l.remnants, s);
  }

  lemma {:induction false} ChainFromCuts(cuts: seq<Cut>, remnants: map<Id, Remnant>, s: Id)
    requires forall i :: 0 <= i < |cuts| ==> RootOf(remnants, cuts[i].source) != Some(s)
    ensures Chain(cuts, remnants, s) == []
  {
    if cuts != [] {
      ChainFromCuts(cuts[..|cuts| - 1], remnants, s);
    }
  }

  lemma FrameKeepsOp(l: Ledger, l': Ledger, op: CutOp)
    requires OpOK(l, op) && Frame(l, l')
    ensures OpOK(l', op)
  {
  }

  /** A posted count keeps the one-shot bookkeeping when it does not move an
      entity across the spent boundary. */
  predicate CountKeepsSpent(l: Ledger, c: Count) {
    match c
    case CountSheet(s, st) => s in l.sheets ==> (SheetSpent(st) <==> SheetSpent(l.sheets[s].status))
    case CountRemnant(r, st) => r in l.remnants ==> (RemnantSpent(st) <==> RemnantSpent(l.remnants[r].status))
  }

  /** The invariant survives a posted cycle-count adjustment exactly when the
      adjustment does not resurrect a spent source nor spend an uncut one. */
  lemma CountKeepsInvIff(l: Ledger, c: Count)
    requires Inv(l)
    ensures Inv(ApplyCount(l, c)) <==> CountKeepsSpent(l, c)
  {
    hide SheetOK, Frame;
    if CountKeepsSpent(l, c) {
      CountFrame(l, c);
      FrameKeepsInv(l, ApplyCount(l, c));
    } else if c.CountSheet? {
      ResurrectedSheet(l, c.sheet, c.sheetStatus);
    } else {
      ResurrectedRemnant(l, c.remnant, c.remnantStatus);
    }
  }

  lemma CountFrame(l: Ledger, c: Count)
    requires CountKeepsSpent(l, c)
    ensures Frame(l, ApplyCount(l, c))
  {
  }

  lemma ResurrectedSheet(l: Ledger, s: Id, st: SheetStatus)
    requires Inv(l) && s in l.sheets && SheetSpent(st) != SheetSpent(l.sheets[s].status)
    ensures !SheetOK(ApplyCount(l, CountSheet(s, st)), s)
  {
    assert SheetOK(l, s);
    ChainStable(l.cuts, l.remnants, ApplyCount(l, CountSheet(s, st)).remnants, s);
  }

  lemma ResurrectedRemnant(l: Ledger, r: Id, st: RemnantStatus)
    requires Inv(l) && r in l.remnants && RemnantSpent(st) != RemnantSpent(l.remnants[r].status)
    ensures !SheetOK(ApplyCount(l, CountRemnant(r, st)), l.remnants[r].parentBoard)
  {
    var l' := ApplyCount(l, CountRemnant(r, st));
    var s := l.remnants[r].parentBoard;
    var chain := ChainOf(l, s);
    assert SheetOK(l, s);
    ChainStable(l.cuts, l.remnants, l'.remnants, s);
    var i :| 0 <= i < |chain| && chain[i].produced == Some(r);
    assert LinkOK(l, s, chain, i);
    assert !LeftoverOK(l', s, chain[i], ParentLink(chain, i), i == |chain| - 1);
    assert !LinkOK(l', s, chain, i);
  }

  predicate CleanStep(l: Ledger, step: Step) {
    step.StepCount? ==> CountKeepsSpent(l, step.count)
  }

  lemma LedgerStepFrame(l: Ledger, step: Step)
    requires CleanStep(l, step)
    ensures Frame(l, LedgerStep(l, step))
  {
    hide Frame, ReceiveStock, QCPassLot, RejectLot, PreAssign, Allocate, MarkWaste, ReleaseExpired, ExpireStale,
         ApplyCount, CountKeepsSpent;
    FrameRefl(l);
    match step
    case StepReceive(input, lot, ids) => ReceiveFrame(l, input, lot, ids);
    case StepQCPass(lot) => LotFrame(l, lot, {});
    case StepReject(lot, chosen) => LotFrame(l, lot, chosen);
    case StepPreAssign(s, wo) => PreAssignFrame(l, s, wo);
    case StepAllocate(r, wo, now) => RemnantFrame(l, r, wo, now);
    case StepWaste(r) => RemnantFrame(l, r, NIL, 0);
    case StepRelease(before) => SweepFrame(l, before);
    case StepExpire(cutoff) => SweepFrame(l, cutoff);
    case StepCount(c) => CountFrame(l, c);
    case _ =>
  }

  lemma FrameRefl(l: Ledger)
    ensures Frame(l, l)
  {
  }

  lemma ReceiveFrame(l: Ledger, input: ReceiveInput, lot: Id, ids: seq<Id>)
    ensures ReceiveStock(l, input, lot, ids).Ok? ==> Frame(l, ReceiveStock(l, input, lot, ids).value)
  {
  }

  lemma LotFrame(l: Ledger, lot: Id, chosen: set<Id>)
    ensures Frame(l, QCPassLot(l, lot))
    ensures RejectLot(l, lot, chosen).Ok? ==> Frame(l, RejectLot(l, lot, chosen).value)
  {
  }

  lemma PreAssignFrame(l: Ledger, s: Id, workOrder: Id)
    ensures PreAssign(l, s, workOrder).Ok? ==> Frame(l, PreAssign(l, s, workOrder).value)
  {
  }

  lemma RemnantFrame(l: Ledger, r: Id, workOrder: Id, now: int)
    ensures Allocate(l, r, workOrder, now).Ok? ==> Frame(l, Allocate(l, r, workOrder, now).value)
    ensures MarkWaste(l, r).Ok? ==> Frame(l, MarkWaste(l, r).value)
  {
  }

  lemma SweepFrame(l: Ledger, before: int)
    ensures Frame(l, ReleaseExpired(l, before))
    ensures Frame(l, ExpireStale(l, before))
  {
  }

  // ------------------------------------------------------------ committed cuts

  lemma SourceIsRooted(l: Ledger, input: CutInput, overflowRed: bool)
    requires Inv(l) && ReadSource(l, input, overflowRed).Ok?
    ensures var src := ReadSource(l, input, overflowRed).value;
            && Rooted(l, src.source) && RootOf(l.remnants, src.source) == Some(src.board)
            && src.dim == SourceDim(l, src.source) && Some(src.material) == SourceMaterial(l, src.source)
            && src.parentRemnant == (if src.source.FromRemnant? then Some(src.source.remnant) else None)
  {
    hide SheetOK;
  }

  lemma PreparedIsOK(l: Ledger, input: CutInput, env: CutEnv)
    requires Inv(l) && PrepareCut(l, input, env).Ok?
    ensures OpOK(l, PrepareCut(l, input, env).value)
  {
    hide Inv, ReadSource, Rooted, SourceDim, SourceMaterial;
    SourceIsRooted(l, input, env.overflowRed);
  }

  /** A cut that commits extends the chain of its root sheet by one link: its
      source is the sheet, still uncut, or the leftover of the last link. */
  lemma CommitExtendsChain(l: Ledger, op: CutOp, s: Id)
    requires Inv(l) && OpOK(l, op) && CommitCut(l, op).Ok?
    requires RootOf(l.remnants, op.record.source) == Some(s)
    ensures var l' := CommitCut(l, op).value;
            && ChainOf(l', s) == ChainOf(l, s) + [op.record]
            && var chain := ChainOf(l, s);
            if chain == [] then op.record.source == FromSheet(s)
            else ParentLink(chain, |chain|).Some?
                 && op.record.source == FromRemnant(ParentLink(chain, |chain|).value)
  {
    hide Inv, OpOK, CommitCut, SheetOK, CutFrame;
    var l' := CommitCut(l, op).value;
    CommitFrame(l, op);
    assert l'.cuts == l.cuts + [op.record] by { CommitAppends(l, op); }
    assert l'.cuts[..|l.cuts|] == l.cuts;
    RootsStay(l, op);
    ChainStable(l.cuts, l.remnants, l'.remnants, s);
    CommitSource(l, op, s);
  }

  lemma CommitAppends(l: Ledger, op: CutOp)
    requires CommitCut(l, op).Ok?
    ensures CommitCut(l, op).value.cuts == l.cuts + [op.record]
  {
  }

  /** The source of a committed cut is at the end of its chain. */
  lemma CommitSource(l: Ledger, op: CutOp, s: Id)
    requires Inv(l) && OpOK(l, op) && CommitCut(l, op).Ok?
    requires RootOf(l.remnants, op.record.source) == Some(s)
    ensures var chain := ChainOf(l, s);
            if chain == [] then op.record.source == FromSheet(s)
            else ParentLink(chain, |chain|).Some?
                 && op.record.source == FromRemnant(ParentLink(chain, |chain|).value)
  {
    hide OpOK, CommitCut, LinkOK, Chain;
    RootIsSheet(l, op, s);
    CommitFrame(l, op);
    assert SheetOK(l, s);
    if op.record.source.FromRemnant? {
      var chain := ChainOf(l, s);
      var i :| 0 <= i < |chain| && chain[i].produced == Some(op.record.source.remnant);
      OnlyLastIsLive(l, s, i);
    }
  }

  lemma RootsStay(l: Ledger, op: CutOp)
    requires Inv(l) && OpOK(l, op) && CommitCut(l, op).Ok?
    ensures forall i :: 0 <= i < |l.cuts| ==>
      RootOf(l.remnants, l.cuts[i].source) == RootOf(CommitCut(l, op).value.remnants, l.cuts[i].source)
    ensures RootOf(CommitCut(l, op).value.remnants, op.record.source) == RootOf(l.remnants, op.record.source)
  {
    hide OpOK, CommitCut, SheetOK;
    CommitFrame(l, op);
    forall i | 0 <= i < |l.cuts|
      ensures RootOf(l.remnants, l.cuts[i].source) == RootOf(CommitCut(l, op).value.remnants, l.cuts[i].source)
    {
      assert Rooted(l, l.cuts[i].source);
    }
  }

  /** What a committed cut does to the rows: one source spent, one leftover added. */
  ghost predicate CutFrame(l: Ledger, l': Ledger, op: CutOp) {
    var src := op.record.source;
    && l'.cuts == l.cuts + [op.record]
    && l'.sheets.Keys == l.sheets.Keys
    && (forall s :: s in l.sheets ==>
      && l'.sheets[s].dim == l.sheets[s].dim && l'.sheets[s].material == l.sheets[s].material
      && (SheetSpent(l'.sheets[s].status) <==> SheetSpent(l.sheets[s].status) || src == FromSheet(s)))
    && l'.remnants.Keys == l.remnants.Keys + (if op.record.produced.Some? then {op.record.produced.value} else {})
    && (forall r :: r in l.remnants ==>
      var a, b := l.remnants[r], l'.remnants[r];
      && b.parentBoard == a.parentBoard && b.parentRemnant == a.parentRemnant
      && b.dim == a.dim && b.box == a.box && b.material == a.material
      && (RemnantSpent(b.status) <==> RemnantSpent(a.status) || src == FromRemnant(r)))
    && (op.record.produced.Some? ==>
      && op.newRemnant.Some?
      && op.record.produced.value !in l.remnants
      && l'.remnants[op.record.produced.value] == op.newRemnant.value)
    && (src.FromSheet? ==> src.sheet in l.sheets && !SheetSpent(l.sheets[src.sheet].status))
    && (src.FromRemnant? ==> src.remnant in l.remnants && !RemnantSpent(l.remnants[src.remnant].status))
  }

  lemma CommitFrame(l: Ledger, op: CutOp)
    requires OpOK(l, op) && CommitCut(l, op).Ok?
    ensures CutFrame(l, CommitCut(l, op).value, op)
  {
  }

  /** An earlier link still stands after the commit: the leftover it names is
      spent exactly when it is no longer the last. */
  lemma CutFrameKeepsLink(l: Ledger, l': Ledger, op: CutOp, s: Id, chain: seq<Cut>, chain': seq<Cut>, i: nat)
    requires CutFrame(l, l', op) && s in l.sheets && i < |chain| && LinkOK(l, s, chain, i)
    requires Rooted(l, chain[i].source)
    requires chain' == chain || chain' == chain + [op.record]
    requires chain[i].produced.Some? && op.record.source == FromRemnant(chain[i].produced.value) ==>
      i == |chain| - 1 && chain' != chain
    requires chain' != chain && i == |chain| - 1 && chain[i].produced.Some? ==>
      op.record.source == FromRemnant(chain[i].produced.value)
    ensures LinkOK(l', s, chain', i)
  {
    assert chain'[i] == chain[i] && (i > 0 ==> chain'[i - 1] == chain[i - 1]);
    assert SourceDim(l', chain[i].source) == SourceDim(l, chain[i].source);
    assert ProducedArea(l', chain[i]) == ProducedArea(l, chain[i]);
  }

  /** Before the commit only the last link of the chain names a live leftover. */
  lemma OnlyLastIsLive(l: Ledger, s: Id, i: nat)
    requires Inv(l) && s in l.sheets && i < |ChainOf(l, s)|
    requires ChainOf(l, s)[i].produced.Some?
    ensures ChainOf(l, s)[i].produced.value in l.remnants
    ensures RemnantSpent(l.remnants[ChainOf(l, s)[i].produced.value].status) <==> i < |ChainOf(l, s)| - 1
  {
    assert SheetOK(l, s);
    assert LinkOK(l, s, ChainOf(l, s), i);
  }

  lemma CommitKeepsLink(l: Ledger, op: CutOp, s: Id, i: nat)
    requires Inv(l) && OpOK(l, op) && CommitCut(l, op).Ok?
    requires RootOf(l.remnants, op.record.source) == Some(s)
    requires i < |ChainOf(l, s)|
    ensures LinkOK(CommitCut(l, op).value, s, ChainOf(l, s) + [op.record], i)
  {
    hide OpOK, CommitCut, LinkOK, CutFrame, SheetOK, Chain, Inv, Rooted;
    var chain := ChainOf(l, s);
    CommitExtendsChain(l, op, s);
    CommitFrame(l, op);
    SourceUnspent(l, CommitCut(l, op).value, op);
    RootIsSheet(l, op, s);
    ChainLink(l, s, i);
    if chain[i].produced.Some? { OnlyLastIsLive(l, s, i); }
    CutFrameKeepsLink(l, CommitCut(l, op).value, op, s, chain, chain + [op.record], i);
  }

  lemma RootIsSheet(l: Ledger, op: CutOp, s: Id)
    requires OpOK(l, op) && RootOf(l.remnants, op.record.source) == Some(s)
    ensures s in l.sheets
  {
  }

  lemma SourceUnspent(l: Ledger, l': Ledger, op: CutOp)
    requires CutFrame(l, l', op)
    ensures op.record.source.FromRemnant? ==>
      op.record.source.remnant in l.remnants && !RemnantSpent(l.remnants[op.record.source.remnant].status)
  {
  }

  lemma ChainLink(l: Ledger, s: Id, i: nat)
    requires Inv(l) && s in l.sheets && i < |ChainOf(l, s)|
    ensures LinkOK(l, s, ChainOf(l, s), i) && Rooted(l, ChainOf(l, s)[i].source)
  {
    hide LinkOK;
    assert SheetOK(l, s);
    ChainMembers(l.cuts, l.remnants, s);
  }

  lemma CommitAddsLink(l: Ledger, op: CutOp, s: Id)
    requires Inv(l) && OpOK(l, op) && CommitCut(l, op).Ok?
    requires RootOf(l.remnants, op.record.source) == Some(s)
    ensures LinkOK(CommitCut(l, op).value, s, ChainOf(l, s) + [op.record], |ChainOf(l, s)|)
  {
    var chain, l' := ChainOf(l, s), CommitCut(l, op).value;
    CommitExtendsChain(l, op, s);
    CommitFrame(l, op);
    assert SheetOK(l, s);
    if chain != [] { assert LinkOK(l, s, chain, |chain| - 1); }
    assert SourceDim(l', op.record.source) == SourceDim(l, op.record.source);
    assert WasteOf(l', op.record) >= 0;
  }

  lemma CommitKeepsRoot(l: Ledger, op: CutOp, s: Id)
    requires Inv(l) && OpOK(l, op) && CommitCut(l, op).Ok?
    requires RootOf(l.remnants, op.record.source) == Some(s)
    ensures SheetOK(CommitCut(l, op).value, s)
  {
    hide CommitCut, LinkOK, Chain, OpOK;
    var l' := CommitCut(l, op).value;
    var chain, chain' := ChainOf(l, s), ChainOf(l, s) + [op.record];
    RootIsSheet(l, op, s);
    CommitExtendsChain(l, op, s);
    CommitFrame(l, op);
    assert SheetOK(l, s);
    forall i | 0 <= i < |chain'|
      ensures LinkOK(l', s, chain', i)
    {
      if i < |chain| { CommitKeepsLink(l, op, s, i); } else { CommitAddsLink(l, op, s); }
    }
    NewRemnantsLinked(l, l', op, s);
  }

  lemma NewRemnantsLinked(l: Ledger, l': Ledger, op: CutOp, s: Id)
    requires s in l.sheets && SheetOK(l, s) && CutFrame(l, l', op)
    ensures forall r :: r in l'.remnants && l'.remnants[r].parentBoard == s ==>
      exists i :: 0 <= i <= |ChainOf(l, s)| && (ChainOf(l, s) + [op.record])[i].produced == Some(r)
  {
    hide LinkOK, Chain;
    var chain, chain' := ChainOf(l, s), ChainOf(l, s) + [op.record];
    forall r | r in l'.remnants && l'.remnants[r].parentBoard == s
      ensures exists i :: 0 <= i < |chain'| && chain'[i].produced == Some(r)
    {
      if r in l.remnants {
        var i :| 0 <= i < |chain| && chain[i].produced == Some(r);
        assert chain'[i].produced == Some(r);
      } else {
        assert chain'[|chain|].produced == Some(r);
      }
    }
  }

  lemma CommitKeepsChain(l: Ledger, op: CutOp, t: Id)
    requires Inv(l) && OpOK(l, op) && CommitCut(l, op).Ok?
    requires RootOf(l.remnants, op.record.source) != Some(t)
    ensures ChainOf(CommitCut(l, op).value, t) == ChainOf(l, t)
  {
    hide SheetOK, OpOK, CommitCut;
    var l' := CommitCut(l, op).value;
    CommitFrame(l, op);
    assert l'.cuts[..|l.cuts|] == l.cuts;
    RootsStay(l, op);
    ChainStable(l.cuts, l.remnants, l'.remnants, t);
  }

  lemma CommitKeepsOtherLink(l: Ledger, op: CutOp, t: Id, i: nat)
    requires Inv(l) && OpOK(l, op) && CommitCut(l, op).Ok?
    requires t in l.sheets && RootOf(l.remnants, op.record.source) != Some(t) && i < |ChainOf(l, t)|
    ensures LinkOK(CommitCut(l, op).value, t, ChainOf(l, t), i)
  {
    hide OpOK, CommitCut, LinkOK, CutFrame, SheetOK, Chain, Inv;
    var chain := ChainOf(l, t);
    CommitFrame(l, op);
    ChainLink(l, t, i);
    if chain[i].produced.Some? { ProducedBoard(l, t, i); }
    CutFrameKeepsLink(l, CommitCut(l, op).value, op, t, chain, chain, i);
  }

  lemma ProducedBoard(l: Ledger, s: Id, i: nat)
    requires Inv(l) && s in l.sheets && i < |ChainOf(l, s)| && ChainOf(l, s)[i].produced.Some?
    ensures RootOf(l.remnants, FromRemnant(ChainOf(l, s)[i].produced.value)) == Some(s)
  {
    assert LinkOK(l, s, ChainOf(l, s), i) by { ChainLink(l, s, i); }
    hide Chain, SheetOK;
  }

  lemma CommitKeepsOther(l: Ledger, op: CutOp, t: Id)
    requires Inv(l) && OpOK(l, op) && CommitCut(l, op).Ok?
    requires t in l.sheets && RootOf(l.remnants, op.record.source) != Some(t)
    ensures SheetOK(CommitCut(l, op).value, t)
  {
    hide OpOK, CommitCut, LinkOK, Chain;
    var l', chain := CommitCut(l, op).value, ChainOf(l, t);
    CommitKeepsChain(l, op, t);
    CommitFrame(l, op);
    OtherBoards(l, op, t);
    assert SheetOK(l, t);
    forall i | 0 <= i < |chain|
      ensures LinkOK(l', t, chain, i)
    {
      CommitKeepsOtherLink(l, op, t, i);
    }
  }

  lemma OtherBoards(l: Ledger, op: CutOp, t: Id)
    requires OpOK(l, op) && CommitCut(l, op).Ok? && RootOf(l.remnants, op.record.source) != Some(t)
    ensures var l' := CommitCut(l, op).value;
            forall r :: r in l'.remnants && l'.remnants[r].parentBoard == t ==>
              r in l.remnants && l.remnants[r].parentBoard == t
  {
    CommitFrame(l, op);
    hide CommitCut;
  }

  lemma CommitKeepsInv(l: Ledger, op: CutOp)
    requires Inv(l) && OpOK(l, op) && CommitCut(l, op).Ok?
    ensures Inv(CommitCut(l, op).value)
  {
    hide SheetOK, OpOK, CommitCut, Chain, ChainOf;
    var l' := CommitCut(l, op).value;
    CommitFrame(l, op);
    forall s | s in l'.sheets
      ensures SheetOK(l', s)
    {
      if RootOf(l.remnants, op.record.source) == Some(s) {
        CommitKeepsRoot(l, op, s);
      } else {
        CommitKeepsOther(l, op, s);
      }
    }
    CommitKeepsRooted(l, op);
  }

  lemma CommitKeepsRooted(l: Ledger, op: CutOp)
    requires Inv(l) && OpOK(l, op) && CommitCut(l, op).Ok?
    ensures var l' := CommitCut(l, op).value;
            && (forall i :: 0 <= i < |l'.cuts| ==> Rooted(l', l'.cuts[i].source))
            && (forall r :: r in l'.remnants ==> l'.remnants[r].parentBoard in l'.sheets)
  {
    hide SheetOK, CommitCut;
    CommitFrame(l, op);
    var l' := CommitCut(l, op).value;
    forall i | 0 <= i < |l'.cuts|
      ensures Rooted(l', l'.cuts[i].source)
    {
      assert i < |l.cuts| ==> Rooted(l, l.cuts[i].source);
    }
  }

  lemma CommitKeepsOp(l: Ledger, op: CutOp, other: CutOp)
    requires Inv(l) && OpOK(l, op) && OpOK(l, other) && CommitCut(l, op).Ok?
    ensures OpOK(CommitCut(l, op).value, other)
  {
    hide Inv, OpOK, CommitCut, CutFrame;
    CommitFrame(l, op);
    CutFrameKeepsOp(l, CommitCut(l, op).value, op, other);
  }

  lemma CutFrameKeepsOp(l: Ledger, l': Ledger, op: CutOp, other: CutOp)
    requires CutFrame(l, l', op) && OpOK(l, other)
    ensures OpOK(l', other)
  {
  }

  // ------------------------------------------------------------------- runs

  lemma CommitStepKeepsInv(s: System, client: Id)
    requires SystemInv(s) && client in s.pending
    ensures SystemInv(Next(s, StepCommitCut(client)))
  {
    hide Inv, OpOK, CommitCut;
    var op := s.pending[client];
    if CommitCut(s.ledger, op).Ok? {
      CommitKeepsInv(s.ledger, op);
      forall c | c in s.pending
        ensures OpOK(CommitCut(s.ledger, op).value, s.pending[c])
      {
        CommitKeepsOp(s.ledger, op, s.pending[c]);
      }
    }
  }

  lemma LedgerStepKeepsInv(s: System, step: Step)
    requires SystemInv(s) && CleanStep(s.ledger, step)
    ensures SystemInv(s.(ledger := LedgerStep(s.ledger, step)))
  {
    hide Inv, OpOK, LedgerStep, CleanStep, Frame;
    var l' := LedgerStep(s.ledger, step);
    LedgerStepFrame(s.ledger, step);
    FrameKeepsInv(s.ledger, l');
    forall c | c in s.pending
      ensures OpOK(l', s.pending[c])
    {
      FrameKeepsOp(s.ledger, l', s.pending[c]);
    }
  }

  lemma NextKeepsInv(s: System, step: Step)
    requires SystemInv(s) && CleanStep(s.ledger, step)
    ensures SystemInv(Next(s, step))
  {
    hide Inv, OpOK, LedgerStep, CommitCut, PrepareCut, CleanStep;
    match step
    case StepBeginCut(client, input, env) =>
      if PrepareCut(s.ledger, input, env).Ok? { PreparedIsOK(s.ledger, input, env); }
    case StepCommitCut(client) => if client in s.pending { CommitStepKeepsInv(s, client); }
    case StepDropCut(_) =>
    case _ => LedgerStepKeepsInv(s, step);
  }

  /** No posted cycle count along the run moves an entity across the spent boundary. */
  predicate CleanRun(s: System, steps: seq<Step>)
    decreases |steps|
  {
    steps == [] || (CleanStep(s.ledger, steps[0]) && CleanRun(Next(s, steps[0]), steps[1..]))
  }

  lemma {:induction false} RunKeepsInv(s: System, steps: seq<Step>)
    requires SystemInv(s) && CleanRun(s, steps)
    ensures SystemInv(Run(s, steps))
    decreases |steps|
  {
    if steps != [] {
      NextKeepsInv(s, steps[0]);
      RunKeepsInv(Next(s, steps[0]), steps[1..]);
    }
  }

  /** The ledgers any interleaving of clients can reach from an empty database. */
  ghost predicate Reachable(l: Ledger) {
    exists steps :: CleanRun(Empty, steps) && Run(Empty, steps).ledger == l
  }

  lemma ReachableInv(l: Ledger)
    requires Reachable(l)
    ensures Inv(l)
  {
    var steps :| CleanRun(Empty, steps) && Run(Empty, steps).ledger == l;
    RunKeepsInv(Empty, steps);
  }
}
