/** How often a source is cut when posted counts may change any status: the
    records of a source against the counts that spent or revived it. */
module Recounts {
  import opened Common
  import opened Domain
  import opened Inventory
  import opened Lineage
  import opened Ownership

  function CutsOf(cuts: seq<Cut>, source: Source): nat {
    if cuts == [] then 0
    else CutsOf(cuts[..|cuts| - 1], source) + if cuts[|cuts| - 1].source == source then 1 else 0
  }

  /** ISSUED sheet or CONSUMED remnant. */
  predicate Spent(l: Ledger, source: Source) {
    match source
    case FromSheet(s) => s in l.sheets && SheetSpent(l.sheets[s].status)
    case FromRemnant(r) => r in l.remnants && RemnantSpent(l.remnants[r].status)
  }

  function One(b: bool): nat { if b then 1 else 0 }

  /** The posted count puts the source back into use. */
  predicate Revives(s: System, step: Step, source: Source) {
    step.StepCount? && Spent(s.ledger, source) && !Spent(Next(s, step).ledger, source)
  }

  /** The posted count takes the source out of use without a cut. */
  predicate Retires(s: System, step: Step, source: Source) {
    step.StepCount? && !Spent(s.ledger, source) && Spent(Next(s, step).ledger, source)
  }

  function Revivals(s: System, steps: seq<Step>, source: Source): nat
    decreases |steps|
  {
    if steps == [] then 0 else One(Revives(s, steps[0], source)) + Revivals(Next(s, steps[0]), steps[1..], source)
  }

  function Retirements(s: System, steps: seq<Step>, source: Source): nat
    decreases |steps|
  {
    if steps == [] then 0 else One(Retires(s, steps[0], source)) + Retirements(Next(s, steps[0]), steps[1..], source)
  }

  /** Every pending leftover starts out AVAILABLE. */
  ghost predicate FreshPending(s: System) {
    forall c :: c in s.pending ==> FreshLeftover(s.pending[c])
  }

  /** The source row is spent and nothing else changes. */
  lemma SourceSpent(l: Ledger, used: Source, workOrder: Id, source: Source)
    requires SpendSource(l, used, workOrder).Ok?
    ensures var l' := SpendSource(l, used, workOrder).value;
            && l'.cuts == l.cuts && l'.remnants.Keys == l.remnants.Keys
            && !Spent(l, used) && (Spent(l', source) <==> Spent(l, source) || source == used)
  {
  }

  /** After that a commit adds its record and perhaps a leftover. */
  lemma CommitAdds(l: Ledger, op: CutOp, source: Source)
    requires FreshLeftover(op) && CommitCut(l, op).Ok?
    ensures SpendSource(l, op.record.source, op.record.workOrder).Ok?
    ensures var spent := SpendSource(l, op.record.source, op.record.workOrder).value;
            CommitCut(l, op).value.cuts == spent.cuts + [op.record]
            && (Spent(CommitCut(l, op).value, source) <==> Spent(spent, source))
  {
    hide SpendSource, CutIdTaken;
  }

  lemma CommitCounts(l: Ledger, op: CutOp, source: Source)
    requires FreshLeftover(op) && CommitCut(l, op).Ok?
    ensures var l' := CommitCut(l, op).value;
            CutsOf(l'.cuts, source) - One(Spent(l', source)) == CutsOf(l.cuts, source) - One(Spent(l, source))
  {
    hide CommitCut, SpendSource, Spent, FreshLeftover;
    CommitAdds(l, op, source);
    SourceSpent(l, op.record.source, op.record.workOrder, source);
    var cuts := CommitCut(l, op).value.cuts;
    assert cuts[..|l.cuts|] == l.cuts;
  }

  lemma FrameCounts(l: Ledger, l': Ledger, source: Source)
    requires Frame(l, l')
    ensures l'.cuts == l.cuts && (Spent(l', source) <==> Spent(l, source))
  {
  }

  lemma StepCounts(s: System, step: Step, source: Source)
    requires FreshPending(s)
    ensures var s' := Next(s, step);
            CutsOf(s'.ledger.cuts, source) - One(Spent(s'.ledger, source)) + One(Retires(s, step, source))
            == CutsOf(s.ledger.cuts, source) - One(Spent(s.ledger, source)) + One(Revives(s, step, source))
    ensures FreshPending(Next(s, step))
  {
    hide Spent, CutsOf, FreshLeftover, CommitCut, PrepareCut, LedgerStep;
    match step
    case StepBeginCut(client, input, env) =>
      if PrepareCut(s.ledger, input, env).Ok? { PreparedIsFresh(s.ledger, input, env); }
    case StepCommitCut(client) =>
      if client in s.pending && CommitCut(s.ledger, s.pending[client]).Ok? {
        CommitCounts(s.ledger, s.pending[client], source);
      }
    case StepDropCut(_) =>
    case StepCount(c) => CountStepKeepsCuts(s.ledger, c);
    case _ =>
      LedgerStepFrame(s.ledger, step);
      FrameCounts(s.ledger, LedgerStep(s.ledger, step), source);
  }

  lemma CountStepKeepsCuts(l: Ledger, c: Count)
    ensures LedgerStep(l, StepCount(c)).cuts == l.cuts
  {
  }

  lemma {:induction false} RunCounts(s: System, steps: seq<Step>, source: Source)
    requires FreshPending(s)
    ensures var s' := Run(s, steps);
            CutsOf(s'.ledger.cuts, source) - One(Spent(s'.ledger, source)) + Retirements(s, steps, source)
            == CutsOf(s.ledger.cuts, source) - One(Spent(s.ledger, source)) + Revivals(s, steps, source)
    decreases |steps|
  {
    if steps != [] {
      hide FreshPending, Next, Spent, CutsOf, Revives, Retires;
      StepCounts(s, steps[0], source);
      RunCounts(Next(s, steps[0]), steps[1..], source);
    }
  }

  /** Over every run, posted counts included: the cutting records of a source and
      the counts that retired it are together as many as the counts that revived
      it, and one more if it is spent now. So a source is cut at most once more
      than counts put it back. */
  lemma CutsAgainstCounts(steps: seq<Step>, source: Source)
    ensures var l := Run(Empty, steps).ledger;
            && CutsOf(l.cuts, source) + Retirements(Empty, steps, source)
               == Revivals(Empty, steps, source) + One(Spent(l, source))
            && CutsOf(l.cuts, source) <= Revivals(Empty, steps, source) + 1
  {
    hide Run, Revivals, Retirements;
    RunCounts(Empty, steps, source);
  }
}
