/** Who holds what in the cutting ledger: the owner columns of sheets and
    remnants over every run without posted cycle counts. */
module Ownership {
  import opened Common
  import opened Domain
  import opened Inventory
  import opened Lineage

  /** A remnant has an owner, and a time to expire, exactly while ALLOCATED. */
  predicate RemnantOwned(r: Remnant) {
    && (r.allocatedTo.Some? <==> r.status == Allocated)
    && (r.status == Allocated ==> r.allocatedAt.Some?)
  }

  /** The sheet of a committed cut is issued to the work order of that cut. */
  predicate CutOwnsSheet(l: Ledger, c: Cut) {
    c.source.FromSheet? ==>
      && c.source.sheet in l.sheets
      && l.sheets[c.source.sheet].status == Issued
      && l.sheets[c.source.sheet].issuedTo == Some(c.workOrder)
  }

  ghost predicate Owners(l: Ledger) {
    && (forall r :: r in l.remnants ==> RemnantOwned(l.remnants[r]))
    && (forall i :: 0 <= i < |l.cuts| ==> CutOwnsSheet(l, l.cuts[i]))
  }

  predicate FreshLeftover(op: CutOp) {
    op.newRemnant.Some? ==> op.newRemnant.value.status == Available && op.newRemnant.value.allocatedTo == None
  }

  ghost predicate OwnersInv(s: System) {
    Owners(s.ledger) && forall c :: c in s.pending ==> FreshLeftover(s.pending[c])
  }

  /** Sheets already issued keep their row. */
  predicate KeepsIssued(l: Ledger, l': Ledger) {
    forall s | s in l.sheets && l.sheets[s].status == Issued :: s in l'.sheets && l'.sheets[s] == l.sheets[s]
  }

  lemma SheetsKeepOwners(l: Ledger, l': Ledger)
    requires Owners(l) && KeepsIssued(l, l') && l'.cuts == l.cuts
    requires forall r :: r in l'.remnants ==> RemnantOwned(l'.remnants[r])
    ensures Owners(l')
  {
  }

  lemma CommitKeepsOwners(l: Ledger, op: CutOp)
    requires Owners(l) && FreshLeftover(op) && CommitCut(l, op).Ok?
    ensures Owners(CommitCut(l, op).value)
  {
    var l' := CommitCut(l, op).value;
    forall i | 0 <= i < |l'.cuts|
      ensures CutOwnsSheet(l', l'.cuts[i])
    {
      if i < |l.cuts| { assert CutOwnsSheet(l, l.cuts[i]); }
    }
  }

  lemma StockStepKeepsOwners(l: Ledger, step: Step)
    requires Owners(l) && (step.StepReceive? || step.StepQCPass? || step.StepReject? || step.StepPreAssign?)
    ensures Owners(LedgerStep(l, step))
  {
    hide Owners;
    var l' := LedgerStep(l, step);
    assert l'.cuts == l.cuts && l'.remnants == l.remnants && KeepsIssued(l, l');
    RemnantsOwned(l);
    SheetsKeepOwners(l, l');
  }

  lemma RemnantsOwned(l: Ledger)
    requires Owners(l)
    ensures forall r :: r in l.remnants ==> RemnantOwned(l.remnants[r])
  {
  }

  lemma RemnantStepKeepsOwners(l: Ledger, step: Step)
    requires Owners(l) && (step.StepAllocate? || step.StepWaste? || step.StepRelease? || step.StepExpire?)
    ensures Owners(LedgerStep(l, step))
  {
    hide Owners;
    var l' := LedgerStep(l, step);
    RemnantsOwned(l);
    assert l'.cuts == l.cuts && l'.sheets == l.sheets;
    assert forall r :: r in l'.remnants ==> RemnantOwned(l'.remnants[r]);
    SheetsKeepOwners(l, l');
  }

  lemma PreparedIsFresh(l: Ledger, input: CutInput, env: CutEnv)
    requires PrepareCut(l, input, env).Ok?
    ensures FreshLeftover(PrepareCut(l, input, env).value)
  {
    hide ReadSource, CheckInput, CheckAreas, CheckBox;
  }

  lemma NextKeepsOwners(s: System, step: Step)
    requires OwnersInv(s) && !step.StepCount?
    ensures OwnersInv(Next(s, step))
  {
    hide Owners, FreshLeftover, PrepareCut, CommitCut, LedgerStep;
    match step
    case StepBeginCut(client, input, env) =>
      if PrepareCut(s.ledger, input, env).Ok? { PreparedIsFresh(s.ledger, input, env); }
    case StepCommitCut(client) =>
      if client in s.pending && CommitCut(s.ledger, s.pending[client]).Ok? {
        CommitKeepsOwners(s.ledger, s.pending[client]);
      }
    case StepDropCut(_) =>
    case _ =>
      if step.StepReceive? || step.StepQCPass? || step.StepReject? || step.StepPreAssign? {
        StockStepKeepsOwners(s.ledger, step);
      } else {
        RemnantStepKeepsOwners(s.ledger, step);
      }
  }

  predicate NoCounts(steps: seq<Step>) { forall i | 0 <= i < |steps| :: !steps[i].StepCount? }

  lemma {:induction false} RunKeepsOwners(s: System, steps: seq<Step>)
    requires OwnersInv(s) && NoCounts(steps)
    ensures OwnersInv(Run(s, steps))
    decreases |steps|
  {
    if steps != [] {
      hide OwnersInv, Next;
      NextKeepsOwners(s, steps[0]);
      RunKeepsOwners(Next(s, steps[0]), steps[1..]);
    }
  }

  /** In every run without posted counts: a remnant has an owner exactly while it
      is ALLOCATED, and a sheet that was cut belongs to the work order of its
      cutting record, pre-assignments notwithstanding. */
  lemma OwnersInEveryRun(steps: seq<Step>)
    requires NoCounts(steps)
    ensures var l := Run(Empty, steps).ledger;
            && (forall r :: r in l.remnants ==> RemnantOwned(l.remnants[r]))
            && (forall i :: 0 <= i < |l.cuts| ==> CutOwnsSheet(l, l.cuts[i]))
  {
    hide Run, RemnantOwned, CutOwnsSheet;
    assert OwnersInv(Empty);
    RunKeepsOwners(Empty, steps);
  }

  /** A posted count updates the status alone, so it keeps the owner columns in
      step exactly when it does not move a remnant into or out of ALLOCATED, nor
      a cut sheet out of ISSUED. */
  lemma CountKeepsOwnersIff(l: Ledger, c: Count)
    requires Owners(l)
    ensures Owners(ApplyCount(l, c)) <==>
      match c
      case CountRemnant(r, st) => r in l.remnants ==> (st == Allocated <==> l.remnants[r].status == Allocated)
      case CountSheet(s, st) =>
        s in l.sheets && st != Issued ==> forall i :: 0 <= i < |l.cuts| ==> l.cuts[i].source != FromSheet(s)
  {
    var l' := ApplyCount(l, c);
    match c
    case CountRemnant(r, st) =>
      if r in l.remnants && (st == Allocated) != (l.remnants[r].status == Allocated) {
        assert !RemnantOwned(l'.remnants[r]);
      }
    case CountSheet(s, st) =>
      if i :| 0 <= i < |l.cuts| && l.cuts[i].source == FromSheet(s) && s in l.sheets && st != Issued {
        assert !CutOwnsSheet(l', l'.cuts[i]);
      }
      forall i | 0 <= i < |l.cuts|
        ensures l.cuts[i].source != FromSheet(s) || st == Issued ==> CutOwnsSheet(l', l'.cuts[i])
      {
        assert CutOwnsSheet(l, l.cuts[i]);
      }
  }

  /** After the release of expired allocations no remnant is held since before
      the deadline: none escapes for want of an allocation time. */
  lemma ReleaseLeavesNoneExpired(steps: seq<Step>, before: int, r: Id)
    requires NoCounts(steps)
    requires r in Next(Run(Empty, steps), StepRelease(before)).ledger.remnants
    ensures var x := Next(Run(Empty, steps), StepRelease(before)).ledger.remnants[r];
            x.allocatedTo.Some? ==> x.allocatedAt.Some? && x.allocatedAt.value >= before
  {
    hide Run;
    RunKeepsOwners(Empty, steps);
    assert RemnantOwned(Run(Empty, steps).ledger.remnants[r]);
  }
}
