/** What each update of the cutting ledger accepts and does, in terms of the input
    and the rows alone, and what the minimum-remnant policy keeps over a run. */
module CuttingRules {
  import opened Common
  import opened Domain
  import opened Inventory

  // ------------------------------------------------------------------ validation

  predicate Positive(d: Dimension) { d.length > 0 && d.width > 0 }

  /** One source, positive sizes, a leftover or waste but not both, a known shape. */
  predicate InputOK(input: CutInput) {
    && (input.sheet.Some? <==> input.remnant.None?)
    && Positive(input.used)
    && (input.leftover.Some? ==> Positive(input.leftover.value))
    && (input.leftover.Some? <==> !input.isWaste)
    && (input.shape == "" || input.shape == "rectangle" || input.shape == "irregular")
  }

  predicate SourceThere(l: Ledger, input: CutInput) {
    (input.sheet.Some? ==> input.sheet.value in l.sheets) && (input.remnant.Some? ==> input.remnant.value in l.remnants)
  }

  /** The sheet is in stock, the remnant AVAILABLE or ALLOCATED. */
  predicate SourceUsable(l: Ledger, input: CutInput)
    requires SourceThere(l, input)
  {
    && (input.sheet.Some? ==> l.sheets[input.sheet.value].status == InStock)
    && (input.remnant.Some? ==>
      || l.remnants[input.remnant.value].status == Available
      || l.remnants[input.remnant.value].status == Allocated)
  }

  function SizeOf(l: Ledger, input: CutInput): Dimension
    requires SourceThere(l, input)
  {
    if input.sheet.Some? then l.sheets[input.sheet.value].dim
    else if input.remnant.Some? then l.remnants[input.remnant.value].dim else Dimension(0, 0)
  }

  predicate LeftoverFits(input: CutInput, size: Dimension) {
    input.leftover.Some? ==>
      input.leftover.value.length <= size.length && input.leftover.value.width <= size.width
  }

  /** Square millimetres used and left over. */
  function Taken(input: CutInput): int {
    input.used.length * input.used.width
    + if input.leftover.Some? then input.leftover.value.length * input.leftover.value.width else 0
  }

  /** Both sides of the bounding box are given or neither, and it lies within the
      leftover. */
  predicate BoxOK(input: CutInput) {
    input.leftover.Some? ==>
      && (input.boxLength.Some? <==> input.boxWidth.Some?)
      && (input.boxLength.Some? && input.boxWidth.Some? ==>
        && input.boxLength.value <= input.leftover.value.length
        && input.boxWidth.value <= input.leftover.value.width)
  }

  /** RecordCut validates exactly these inputs, and the first thing wrong with
      any other decides the error. */
  lemma PrepareOutcome(l: Ledger, input: CutInput, env: CutEnv)
    ensures var r := PrepareCut(l, input, env);
            if !InputOK(input) then r == Err(InvalidInput)
            else if input.sheet.Some? && env.overflowRed then r == Err(PreconditionFailed)
            else if !SourceThere(l, input) then r == Err(NotFound)
            else if !SourceUsable(l, input) || !LeftoverFits(input, SizeOf(l, input)) then r == Err(InvalidInput)
            else if Taken(input) > SizeOf(l, input).length * SizeOf(l, input).width then r == Err(AreaConservation)
            else if !BoxOK(input) then r == Err(InvalidInput)
            else r.Ok?
  {
  }

  /** The policy keeps a leftover that meets every enabled threshold on its axis. */
  predicate MeetsMinimum(d: Dimension, env: CutEnv) {
    (env.minLength > 0 ==> d.length >= env.minLength) && (env.minWidth > 0 ==> d.width >= env.minWidth)
  }

  /** The write a validated cut becomes. A leftover is kept if and only if one was
      given and it meets the minimum on both axes; it then carries the given size,
      its box or its own size as box, its parents, and its source's material. */
  lemma PreparedWrite(l: Ledger, input: CutInput, env: CutEnv)
    requires PrepareCut(l, input, env).Ok?
    ensures var op := PrepareCut(l, input, env).value;
            && (op.newRemnant.Some? <==> input.leftover.Some? && MeetsMinimum(input.leftover.value, env))
            && op.record == Cut(env.cutId,
                                if input.sheet.Some? then FromSheet(input.sheet.value)
                                else if input.remnant.Some? then FromRemnant(input.remnant.value) else op.record.source,
                                input.workOrder, input.sku, input.used,
                                if op.newRemnant.Some? then Some(env.remnantId) else None, env.now)
    ensures var op := PrepareCut(l, input, env).value;
            op.newRemnant.Some? && input.leftover.Some? ==>
              var n, d := op.newRemnant.value, input.leftover.value;
              && n.dim == d && n.status == Available && n.allocatedTo == None && n.allocatedAt == None
              && n.createdAt == env.now
              && n.box.length == (if input.boxLength.Some? then input.boxLength.value else d.length)
              && n.box.width == (if input.boxWidth.Some? then input.boxWidth.value else d.width)
              && n.shape == (if input.shape == "irregular" then "irregular" else "rectangle")
    ensures var op := PrepareCut(l, input, env).value;
            op.newRemnant.Some? ==>
              var n := op.newRemnant.value;
              && (input.sheet.Some? ==>
                && input.sheet.value in l.sheets && n.parentBoard == input.sheet.value
                && n.parentRemnant == None && n.material == l.sheets[input.sheet.value].material)
              && (input.remnant.Some? ==>
                && input.remnant.value in l.remnants && n.parentRemnant == input.remnant
                && n.parentBoard == l.remnants[input.remnant.value].parentBoard
                && n.material == l.remnants[input.remnant.value].material)
  {
  }

  // ---------------------------------------------------------------------- commit

  predicate SourceFree(l: Ledger, source: Source) {
    match source
    case FromSheet(s) => s in l.sheets && l.sheets[s].status == InStock
    case FromRemnant(r) => r in l.remnants && (l.remnants[r].status == Available || l.remnants[r].status == Allocated)
  }

  predicate SourceKnown(l: Ledger, source: Source) {
    match source
    case FromSheet(s) => s in l.sheets
    case FromRemnant(r) => r in l.remnants
  }

  predicate IdsUnused(l: Ledger, op: CutOp) {
    && (forall c | c in l.cuts :: c.id != op.record.id)
    && (op.newRemnant.Some? && op.record.produced.Some? ==> op.record.produced.value !in l.remnants)
  }

  lemma CutIdIff(l: Ledger, id: Id)
    ensures CutIdTaken(l, id) <==> exists c :: c in l.cuts && c.id == id
  {
    if CutIdTaken(l, id) {
      var i :| 0 <= i < |l.cuts| && l.cuts[i].id == id;
      assert l.cuts[i] in l.cuts;
    }
  }

  lemma CommitOutcome(l: Ledger, op: CutOp)
    ensures var r := CommitCut(l, op);
            if !SourceKnown(l, op.record.source) then r == Err(NotFound)
            else if !SourceFree(l, op.record.source) then r == Err(PreconditionFailed)
            else if !IdsUnused(l, op) then r == Err(DbError)
            else r.Ok?
  {
    CutIdIff(l, op.record.id);
    hide CutIdTaken;
  }

  /** What a commit leaves behind: the sheet ISSUED to the work order or the
      remnant CONSUMED and released, the record, and the leftover if there is one. */
  lemma CommitEffect(l: Ledger, op: CutOp)
    requires CommitCut(l, op).Ok?
    ensures var l' := CommitCut(l, op).value;
            && l'.cuts == l.cuts + [op.record]
            && (match op.record.source
                case FromSheet(s) =>
                  && s in l.sheets
                  && l'.sheets == l.sheets[s := l.sheets[s].(status := Issued, issuedTo := Some(op.record.workOrder))]
                case FromRemnant(r) => l'.sheets == l.sheets)
            && l'.remnants.Keys == l.remnants.Keys
               + (if op.newRemnant.Some? && op.record.produced.Some? then {op.record.produced.value} else {})
            && (forall r :: r in l.remnants && op.record.source != FromRemnant(r) ==> l'.remnants[r] == l.remnants[r])
            && (forall r :: r in l.remnants && op.record.source == FromRemnant(r) ==>
              l'.remnants[r] == l.remnants[r].(status := Consumed, allocatedTo := None))
            && (op.newRemnant.Some? && op.record.produced.Some? ==>
              l'.remnants[op.record.produced.value] == op.newRemnant.value)
  {
  }

  /** A cut validated and committed with nobody in between does what the two
      halves say, and leaves nothing pending. */
  lemma SoloCut(l: Ledger, client: Id, input: CutInput, env: CutEnv)
    ensures var s := Next(Next(System(l, map[]), StepBeginCut(client, input, env)), StepCommitCut(client));
            var op := PrepareCut(l, input, env);
            && s.pending == map[]
            && s.ledger == if op.Ok? && CommitCut(l, op.value).Ok? then CommitCut(l, op.value).value else l
  {
    hide PrepareCut, CommitCut;
  }

  // --------------------------------------------------------------- other updates

  lemma AllocateOutcome(l: Ledger, r: Id, workOrder: Id, now: int)
    ensures var x := Allocate(l, r, workOrder, now);
            if r !in l.remnants then x == Err(NotFound)
            else if l.remnants[r].status != Available then x == Err(PreconditionFailed)
            else x.Ok? && x.value == l.(remnants := l.remnants[r := l.remnants[r].(
              allocatedAt := Some(now), allocatedTo := Some(workOrder), status := Allocated)])
  {
  }

  lemma WasteOutcome(l: Ledger, r: Id)
    ensures var x := MarkWaste(l, r);
            if r !in l.remnants then x == Err(NotFound)
            else if l.remnants[r].status in {Consumed, Wasted, Expired} then x == Err(PreconditionFailed)
            else x.Ok? && x.value == l.(remnants := l.remnants[r := l.remnants[r].(
              allocatedTo := None, status := Wasted)])
  {
  }

  /** A release takes exactly the ALLOCATED remnants held since before the
      deadline back to AVAILABLE, an expiry exactly the AVAILABLE ones older than
      the cutoff to EXPIRED. */
  lemma SweepsEffect(l: Ledger, before: int, r: Id)
    requires r in l.remnants
    ensures var x := l.remnants[r];
            && r in ReleaseExpired(l, before).remnants && r in ExpireStale(l, before).remnants
            && ReleaseExpired(l, before).remnants[r] == (match x.allocatedAt
                 case Some(t) => if x.status == Allocated && t < before
                                 then x.(allocatedAt := None, allocatedTo := None, status := Available) else x
                 case None => x)
            && ExpireStale(l, before).remnants[r]
               == (if x.createdAt < before && x.status == Available then x.(status := Expired) else x)
    ensures ReleaseExpired(l, before) == l.(remnants := ReleaseExpired(l, before).remnants)
    ensures ExpireStale(l, before) == l.(remnants := ExpireStale(l, before).remnants)
  {
  }

  function Waiting(lot: Id, input: ReceiveInput): Sheet {
    Sheet(lot, input.dim, input.cost, PendingQC, None, Material(None, Some(input.supplier), None, None))
  }

  /** Stock arrives as so many sheets waiting for inspection, one per id. */
  lemma ReceiveOutcome(l: Ledger, input: ReceiveInput, lot: Id, ids: seq<Id>)
    ensures var x := ReceiveStock(l, input, lot, ids);
            if input.quantity <= 0 || !Positive(input.dim) || |ids| != input.quantity then x == Err(InvalidInput)
            else if exists i, j :: 0 <= i < j < |ids| && ids[i] == ids[j] then x == Err(DbError)
            else if exists id :: id in ids && id in l.sheets then x == Err(DbError)
            else
              && x.Ok? && x.value.remnants == l.remnants && x.value.cuts == l.cuts
              && (forall s :: s in x.value.sheets <==> s in l.sheets || s in ids)
              && (forall s :: s in l.sheets ==> x.value.sheets[s] == l.sheets[s])
              && (forall s :: s in ids ==> x.value.sheets[s] == Waiting(lot, input))
  {
    if id :| id in ids && id in l.sheets {
      var i :| 0 <= i < |ids| && ids[i] == id;
      assert ids[i] in l.sheets;
    }
  }

  /** Inspection moves exactly the waiting sheets of the lot into stock. */
  lemma InspectionEffect(l: Ledger, lot: Id, s: Id)
    requires s in l.sheets
    ensures var l' := QCPassLot(l, lot);
            && s in l'.sheets
            && l'.sheets[s] == (if l.sheets[s].status == PendingQC && l.sheets[s].lot == lot
                                then l.sheets[s].(status := InStock) else l.sheets[s])
            && l' == l.(sheets := l'.sheets)
  {
  }

  /** Rejection takes chosen sheets of the lot that wait for inspection, or none. */
  lemma RejectOutcome(l: Ledger, lot: Id, chosen: set<Id>)
    ensures var x := RejectLot(l, lot, chosen);
            if forall s :: s in chosen ==> s in l.sheets && l.sheets[s].lot == lot && l.sheets[s].status == PendingQC
            then x.Ok? && x.value == l.(sheets := map s | s in l.sheets ::
              if s in chosen then l.sheets[s].(status := Rejected) else l.sheets[s])
            else x == Err(PreconditionFailed)
  {
  }

  lemma PreAssignOutcome(l: Ledger, s: Id, workOrder: Id)
    ensures var x := PreAssign(l, s, workOrder);
            if s !in l.sheets then x == Err(NotFound)
            else if l.sheets[s].status in {PendingQC, Issued, Rejected} then x == Err(PreconditionFailed)
            else x.Ok? && x.value == l.(sheets := l.sheets[s := l.sheets[s].(issuedTo := Some(workOrder))])
  {
  }

  // --------------------------------------------------------- the policy over a run

  /** Every cut of the run is validated under thresholds of at least these. */
  predicate Strict(steps: seq<Step>, length: int, width: int) {
    forall i | 0 <= i < |steps| && steps[i].StepBeginCut? ::
      steps[i].env.minLength >= length && steps[i].env.minWidth >= width
  }

  predicate BigEnough(r: Remnant, length: int, width: int) { r.dim.length >= length && r.dim.width >= width }

  ghost predicate AllBig(s: System, length: int, width: int) {
    && (forall r :: r in s.ledger.remnants ==> BigEnough(s.ledger.remnants[r], length, width))
    && (forall c :: c in s.pending && s.pending[c].newRemnant.Some? ==>
      BigEnough(s.pending[c].newRemnant.value, length, width))
  }

  /** Sizes are never changed, and rows come only from cuts. */
  lemma SizesStay(l: Ledger, step: Step)
    ensures LedgerStep(l, step).remnants.Keys == l.remnants.Keys
    ensures forall r :: r in l.remnants ==> LedgerStep(l, step).remnants[r].dim == l.remnants[r].dim
  {
  }

  lemma NextKeepsBig(s: System, step: Step, length: int, width: int)
    requires AllBig(s, length, width)
    requires step.StepBeginCut? ==> step.env.minLength >= length && step.env.minWidth >= width
    ensures AllBig(Next(s, step), length, width)
  {
    hide PrepareCut, CommitCut, LedgerStep;
    match step
    case StepBeginCut(_, input, env) =>
      if PrepareCut(s.ledger, input, env).Ok? {
        PrepareOutcome(s.ledger, input, env);
        PreparedWrite(s.ledger, input, env);
      }
    case StepCommitCut(client) =>
      if client in s.pending && CommitCut(s.ledger, s.pending[client]).Ok? {
        CommitEffect(s.ledger, s.pending[client]);
      }
    case StepDropCut(_) =>
    case _ => SizesStay(s.ledger, step);
  }

  lemma {:induction false} RunKeepsBig(s: System, steps: seq<Step>, length: int, width: int)
    requires AllBig(s, length, width) && Strict(steps, length, width)
    ensures AllBig(Run(s, steps), length, width)
    decreases |steps|
  {
    if steps != [] {
      hide AllBig, Next;
      NextKeepsBig(s, steps[0], length, width);
      RunKeepsBig(Next(s, steps[0]), steps[1..], length, width);
    }
  }

  /** No remnant of the ledger is ever smaller than the thresholds under which
      every cut was validated. */
  lemma RemnantsMeetThePolicy(steps: seq<Step>, length: int, width: int, r: Id)
    requires Strict(steps, length, width)
    requires r in Run(Empty, steps).ledger.remnants
    ensures var d := Run(Empty, steps).ledger.remnants[r].dim; d.length >= length && d.width >= width
  {
    hide Run;
    RunKeepsBig(Empty, steps, length, width);
  }
}
