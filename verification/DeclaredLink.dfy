/** The cutting ledger when cutting_records.produced_remnant_id is the foreign
    key its migration declares: checked as the record is inserted, while the
    leftover it names is inserted afterwards. */
module DeclaredLink {
  import opened Common
  import opened Domain
  import opened Inventory
  import opened Lineage

  /** Under the declared key a validated cut commits exactly when it keeps no
      leftover, and then does what it does without the key. */
  lemma CommitsIffNoLeftover(l: Ledger, op: CutOp)
    requires OpOK(l, op)
    ensures CommitLinked(l, op).Ok? <==> CommitCut(l, op).Ok? && op.newRemnant.None?
    ensures CommitLinked(l, op).Ok? ==> CommitLinked(l, op) == CommitCut(l, op)
  {
    hide Rooted, RootOf, SourceDim, SourceMaterial;
  }

  /** One sheet of 10 x 10 in stock. */
  function Stock(): Ledger {
    Ledger(map[1 := Sheet(5, Dimension(10, 10), 100, InStock, None, Material(None, None, None, None))], map[], [])
  }

  /** Half a sheet is used in part, the other half is kept: the cut passes its
      checks and would commit, but the declared key refuses it. */
  lemma LeftoverIsRefused()
    ensures var input := CutInput(Some(1), None, 7, 8, Dimension(5, 5), Some(Dimension(5, 10)), false, "", None, None);
            var op := PrepareCut(Stock(), input, CutEnv(false, 0, 0, 2, 3, 0));
            && op.Ok? && op.value.record.produced == Some(3)
            && CommitCut(Stock(), op.value).Ok? && CommitLinked(Stock(), op.value) == Err(DbError)
  {
  }

  function NextLinked(s: System, step: Step): System {
    if step.StepCommitCut? && step.client in s.pending
    then System(OrSame(s.ledger, CommitLinked(s.ledger, s.pending[step.client])), s.pending - {step.client})
    else Next(s, step)
  }

  function RunLinked(s: System, steps: seq<Step>): System
    decreases |steps|
  {
    if steps == [] then s else RunLinked(NextLinked(s, steps[0]), steps[1..])
  }

  predicate CleanLinked(s: System, steps: seq<Step>)
    decreases |steps|
  {
    steps == [] || (CleanStep(s.ledger, steps[0]) && CleanLinked(NextLinked(s, steps[0]), steps[1..]))
  }

  /** A refused commit leaves things as if the client had dropped its cut. */
  function Replacement(s: System, step: Step): Step {
    if step.StepCommitCut? && step.client in s.pending && CommitLinked(s.ledger, s.pending[step.client]).Err?
    then StepDropCut(step.client) else step
  }

  lemma LinkedStepIsStep(s: System, step: Step)
    requires SystemInv(s)
    ensures NextLinked(s, step) == Next(s, Replacement(s, step))
    ensures CleanStep(s.ledger, step) ==> CleanStep(s.ledger, Replacement(s, step))
  {
    hide Inv, OpOK, CommitLinked, CommitCut, LedgerStep, PrepareCut;
    if step.StepCommitCut? && step.client in s.pending {
      CommitsIffNoLeftover(s.ledger, s.pending[step.client]);
    }
  }

  lemma {:induction false} LinkedRunIsRun(s: System, steps: seq<Step>) returns (others: seq<Step>)
    requires SystemInv(s) && CleanLinked(s, steps)
    ensures CleanRun(s, others) && Run(s, others) == RunLinked(s, steps)
    decreases |steps|
  {
    others := [];
    if steps != [] {
      hide SystemInv, CleanStep, Next, NextLinked, Replacement;
      var step := Replacement(s, steps[0]);
      LinkedStepIsStep(s, steps[0]);
      NextKeepsInv(s, step);
      var rest := LinkedRunIsRun(NextLinked(s, steps[0]), steps[1..]);
      others := [step] + rest;
      assert others[1..] == rest;
    }
  }

  /** Every ledger the declared key admits is one of the reachable ledgers, so
      all their theorems hold of it. */
  lemma LinkedLedgersAreReachable(steps: seq<Step>)
    requires CleanLinked(Empty, steps)
    ensures Reachable(RunLinked(Empty, steps).ledger)
  {
    hide RunLinked, Run, CleanLinked, CleanRun;
    assert SystemInv(Empty);
    var others := LinkedRunIsRun(Empty, steps);
  }

  lemma NoLeftoverStep(s: System, step: Step)
    requires SystemInv(s) && CleanStep(s.ledger, step) && s.ledger.remnants == map[]
    ensures NextLinked(s, step).ledger.remnants == map[]
  {
    hide Inv, OpOK, PrepareCut, CommitLinked, LedgerStep, CleanStep;
    if step.StepCommitCut? && step.client in s.pending {
      NoLeftoverCommit(s.ledger, s.pending[step.client]);
    } else {
      LedgerStepFrame(s.ledger, step);
    }
  }

  lemma NoLeftoverCommit(l: Ledger, op: CutOp)
    requires OpOK(l, op) && l.remnants == map[]
    ensures CommitLinked(l, op).Ok? ==> CommitLinked(l, op).value.remnants == map[]
  {
    hide SourceDim, SourceMaterial;
  }

  lemma {:induction false} NoRemnants(s: System, steps: seq<Step>)
    requires SystemInv(s) && CleanLinked(s, steps) && s.ledger.remnants == map[]
    ensures RunLinked(s, steps).ledger.remnants == map[]
    decreases |steps|
  {
    if steps != [] {
      hide SystemInv, CleanStep, Next, NextLinked, Replacement;
      NoLeftoverStep(s, steps[0]);
      LinkedStepIsStep(s, steps[0]);
      NextKeepsInv(s, Replacement(s, steps[0]));
      NoRemnants(NextLinked(s, steps[0]), steps[1..]);
    }
  }

  /** Under the declared key no run ever keeps a leftover. */
  lemma NoLeftoverEverKept(steps: seq<Step>)
    requires CleanLinked(Empty, steps)
    ensures RunLinked(Empty, steps).ledger.remnants == map[]
  {
    hide RunLinked, CleanLinked;
    assert SystemInv(Empty);
    NoRemnants(Empty, steps);
  }
}
