/** Loading plan approval: which plan of a container is live, and where the chain
    of superseded_by links leads. */
module LoadingPlans {
  import opened Common
  import opened LineTable
  import opened Delivery
  import opened Loading

  // ------------------------------------------------------------ approval order

  /** The call promotes its plan, rather than finding it approved already. */
  predicate Promotes(db: Db, step: Step) {
    step.StepApprove? && Try(db, step).Ok? && step.plan in db.plans && db.plans[step.plan].status != Approved
  }

  /** Numbers the plans in the order in which they are approved. */
  function Number(db: Db, at: map<Id, nat>, step: Step): map<Id, nat> {
    if Promotes(db, step) then at[step.plan := |at|] else at
  }

  /** The approval numbers along a run. */
  function Approvals(db: Db, at: map<Id, nat>, steps: seq<Step>): map<Id, nat>
    decreases |steps|
  {
    if steps == [] then at else Approvals(Next(db, steps[0]), Number(db, at, steps[0]), steps[1..])
  }

  // ------------------------------------------------------------------ invariant

  ghost predicate PlanOK(plans: map<Id, Plan>, at: map<Id, nat>, p: Id) {
    p in plans &&
    match plans[p].status
    case Approved =>
      && p in at && plans[p].supersededBy == None
      && (forall q :: q in at && q in plans && plans[q].container == plans[p].container && q != p ==> at[q] < at[p])
    case Superseded =>
      && plans[p].supersededBy.Some?
      && var q := plans[p].supersededBy.value;
      && q in plans && q in at && plans[q].container == plans[p].container
      && p != q && (p in at ==> at[p] < at[q])
    case _ => p !in at && plans[p].supersededBy == None
  }

  ghost predicate LivePlan(plans: map<Id, Plan>, c: Id, p: Id) {
    p in plans && plans[p].container == c && plans[p].status == Approved
  }

  ghost predicate HasLive(plans: map<Id, Plan>, q: Id) {
    q in plans && exists p :: LivePlan(plans, plans[q].container, p)
  }

  /** Every container that has seen an approval has a live plan. */
  ghost predicate ChainInv(plans: map<Id, Plan>, at: map<Id, nat>) {
    && (forall p :: p in at ==> at[p] < |at|)
    && (forall p :: p in plans ==> PlanOK(plans, at, p))
    && (forall q :: q in at ==> HasLive(plans, q))
  }

  lemma PromotedPlanOK(plans: map<Id, Plan>, at: map<Id, nat>, plan: Id, actor: Id, p: Id)
    requires plan in plans && plans[plan].status in {Parsed, Validated} && plan !in at
    requires forall q :: q in at ==> at[q] < |at|
    requires PlanOK(plans, at, p)
    ensures PlanOK(Promote(plans, plan, actor), at[plan := |at|], p)
  {
  }

  lemma PromotedLive(plans: map<Id, Plan>, plan: Id, actor: Id, q: Id)
    requires plan in plans && HasLive(plans, q)
    ensures HasLive(Promote(plans, plan, actor), q)
  {
    var c := plans[q].container;
    var p :| LivePlan(plans, c, p);
    var plans' := Promote(plans, plan, actor);
    assert LivePlan(plans', c, p) || LivePlan(plans', c, plan);
  }

  lemma NotYetApproved(plans: map<Id, Plan>, at: map<Id, nat>, plan: Id)
    requires PlanOK(plans, at, plan) && plans[plan].status in {Parsed, Validated}
    ensures plan !in at
  {
  }

  lemma NewlyLive(plans: map<Id, Plan>, plan: Id, actor: Id)
    requires plan in plans
    ensures Promote(plans, plan, actor).Keys == plans.Keys
    ensures HasLive(Promote(plans, plan, actor), plan)
  {
    var plans' := Promote(plans, plan, actor);
    assert LivePlan(plans', plans'[plan].container, plan);
  }

  lemma PromoteKeeps(plans: map<Id, Plan>, at: map<Id, nat>, plan: Id, actor: Id)
    requires ChainInv(plans, at) && plan in plans && plans[plan].status in {Parsed, Validated}
    ensures ChainInv(Promote(plans, plan, actor), at[plan := |at|])
  {
    hide Promote, HasLive, PlanOK;
    var plans' := Promote(plans, plan, actor);
    var at' := at[plan := |at|];
    NotYetApproved(plans, at, plan);
    assert |at'| == |at| + 1;
    NewlyLive(plans, plan, actor);
    forall p | p in plans'
      ensures PlanOK(plans', at', p)
    {
      PromotedPlanOK(plans, at, plan, actor, p);
    }
    forall q | q in at'
      ensures HasLive(plans', q)
    {
      if q != plan { PromotedLive(plans, plan, actor, q); }
    }
  }

  lemma UploadedLive(plans: map<Id, Plan>, plan: Id, row: Plan, q: Id)
    requires plan !in plans && HasLive(plans, q)
    ensures HasLive(plans[plan := row], q)
  {
    var p :| LivePlan(plans, plans[q].container, p);
    assert LivePlan(plans[plan := row], plans[q].container, p);
  }

  lemma UploadedPlanOK(plans: map<Id, Plan>, at: map<Id, nat>, plan: Id, row: Plan, p: Id)
    requires plan !in plans && plan !in at && PlanOK(plans, at, p)
    ensures PlanOK(plans[plan := row], at, p)
  {
  }

  lemma UploadKeeps(plans: map<Id, Plan>, at: map<Id, nat>, plan: Id, row: Plan)
    requires ChainInv(plans, at) && plan !in plans && row.status == Parsed && row.supersededBy == None
    ensures ChainInv(plans[plan := row], at)
  {
    var plans' := plans[plan := row];
    hide HasLive, PlanOK;
    assert plan !in at by { OnlyPlansNumbered(plans, at, plan); }
    FreshPlanOK(plans', at, plan);
    forall q | q in at
      ensures HasLive(plans', q)
    {
      UploadedLive(plans, plan, row, q);
    }
    forall p | p in plans'
      ensures PlanOK(plans', at, p)
    {
      if p != plan { UploadedPlanOK(plans, at, plan, row, p); }
    }
  }

  lemma OnlyPlansNumbered(plans: map<Id, Plan>, at: map<Id, nat>, plan: Id)
    requires ChainInv(plans, at) && plan !in plans
    ensures plan !in at
  {
    hide PlanOK;
  }

  lemma FreshPlanOK(plans: map<Id, Plan>, at: map<Id, nat>, plan: Id)
    requires plan in plans && plans[plan].status == Parsed && plans[plan].supersededBy == None && plan !in at
    ensures PlanOK(plans, at, plan)
  {
  }

  /** What each step does to the plans. */
  lemma PlansAfter(db: Db, step: Step)
    requires Try(db, step).Ok?
    ensures step.StepCall? || step.StepCreate? ==> Next(db, step).plans == db.plans
    ensures step.StepUpload? ==>
      && step.plan !in db.plans
      && Next(db, step).plans
         == db.plans[step.plan := Plan(step.container, step.hash, step.version, Parsed, None, None)]
    ensures step.StepApprove? ==>
      && step.plan in db.plans
      && (db.plans[step.plan].status == Approved ==> Next(db, step).plans == db.plans)
      && (db.plans[step.plan].status != Approved ==>
        && db.plans[step.plan].status in {Parsed, Validated}
        && Next(db, step).plans == Promote(db.plans, step.plan, step.actor))
  {
    hide Exec, ViewOf, Wipe, MustSupersede, Promote;
    match step
    case StepCall(req, seen) => ExecKeepsPlans(db, req, ViewOf(db, req));
    case StepApprove(plan, _, _) => WipeKeepsPlans(db, plan);
    case _ =>
  }

  lemma StepKeeps(db: Db, at: map<Id, nat>, step: Step)
    requires ChainInv(db.plans, at)
    ensures ChainInv(Next(db, step).plans, Number(db, at, step))
  {
    hide ChainInv, Try, Promote;
    if Try(db, step).Ok? {
      PlansAfter(db, step);
      hide Next;
      match step
      case StepUpload(plan, container, hash, version) =>
        UploadKeeps(db.plans, at, plan, Plan(container, hash, version, Parsed, None, None));
      case StepApprove(plan, actor, _) =>
        if db.plans[plan].status != Approved { PromoteKeeps(db.plans, at, plan, actor); }
      case _ =>
    }
  }

  lemma {:induction false} RunKeeps(db: Db, at: map<Id, nat>, steps: seq<Step>)
    requires ChainInv(db.plans, at)
    ensures ChainInv(Run(db, steps).plans, Approvals(db, at, steps))
    decreases |steps|
  {
    hide ChainInv, Next, Number;
    if steps != [] {
      StepKeeps(db, at, steps[0]);
      RunKeeps(Next(db, steps[0]), Number(db, at, steps[0]), steps[1..]);
    }
  }

  // ---------------------------------------------------------------- main results

  /** In every run a container has at most one APPROVED plan. */
  lemma OneLivePlan(db: Db, steps: seq<Step>, c: Id, p: Id, q: Id)
    requires Start(db) && LivePlan(Run(db, steps).plans, c, p) && LivePlan(Run(db, steps).plans, c, q)
    ensures p == q
  {
    hide Run, Approvals;
    RunKeeps(db, map[], steps);
    var plans, at := Run(db, steps).plans, Approvals(db, map[], steps);
    assert PlanOK(plans, at, p) && PlanOK(plans, at, q);
  }

  /** A walk along superseded_by. */
  ghost predicate Walk(plans: map<Id, Plan>, path: seq<Id>) {
    && path != []
    && (forall i :: 0 <= i < |path| ==> path[i] in plans)
    && (forall i :: 0 <= i < |path| - 1 ==> plans[path[i]].supersededBy == Some(path[i + 1]))
  }

  /** A link stays in the container and leads to a plan approved later. */
  lemma LinkClimbs(plans: map<Id, Plan>, at: map<Id, nat>, p: Id, q: Id)
    requires ChainInv(plans, at) && p in plans && plans[p].supersededBy == Some(q)
    ensures q in plans && q in at && plans[q].container == plans[p].container && p != q
    ensures p in at ==> at[p] < at[q]
  {
    assert PlanOK(plans, at, p);
  }

  lemma {:induction false} WalkClimbs(plans: map<Id, Plan>, at: map<Id, nat>, path: seq<Id>)
    requires ChainInv(plans, at) && Walk(plans, path)
    ensures forall i :: 0 <= i < |path| ==> plans[path[i]].container == plans[path[0]].container
    ensures forall i :: 0 < i < |path| ==> path[i] in at
    ensures forall i, j :: 0 <= i < j < |path| && path[i] in at ==> path[j] in at && at[path[i]] < at[path[j]]
    decreases |path|
  {
    hide ChainInv;
    var n := |path|;
    if n > 1 {
      WalkClimbs(plans, at, path[..n - 1]);
      assert plans[path[n - 2]].supersededBy == Some(path[n - 2 + 1]);
      LinkClimbs(plans, at, path[n - 2], path[n - 1]);
      assert forall i :: 0 <= i < n - 1 ==> path[..n - 1][i] == path[i];
    }
  }

  /** Following superseded_by in any run never leaves the container and never
      meets a plan twice. */
  lemma WalksDoNotCycle(db: Db, steps: seq<Step>, path: seq<Id>)
    requires Start(db) && Walk(Run(db, steps).plans, path)
    ensures var plans := Run(db, steps).plans;
            forall i, j :: 0 <= i < j < |path| ==>
              path[i] != path[j] && plans[path[i]].container == plans[path[j]].container
  {
    hide Run, Approvals;
    RunKeeps(db, map[], steps);
    var plans, at := Run(db, steps).plans, Approvals(db, map[], steps);
    hide ChainInv;
    WalkClimbs(plans, at, path);
    forall i, j | 0 <= i < j < |path|
      ensures path[i] != path[j]
    {
      assert path[j] in at;
    }
  }

  ghost predicate LeadsToLive(plans: map<Id, Plan>, p: Id) {
    exists path :: Walk(plans, path) && path[0] == p && plans[path[|path| - 1]].status == Approved
  }

  lemma SupersederIsOut(plans: map<Id, Plan>, at: map<Id, nat>, p: Id)
    requires ChainInv(plans, at) && p in plans && plans[p].status in {Approved, Superseded}
    ensures plans[p].status == Superseded ==>
      && plans[p].supersededBy.Some?
      && var q := plans[p].supersededBy.value;
      && q in plans && q in at && plans[q].status in {Approved, Superseded}
      && (p in at ==> at[p] < at[q])
    ensures p in at ==> at[p] < |at|
  {
    hide HasLive, PlanOK;
    assert PlanOK(plans, at, p);
    LinkOfOK(plans, at, p);
    if plans[p].status == Superseded {
      var q := plans[p].supersededBy.value;
      assert PlanOK(plans, at, q);
      LinkOfOK(plans, at, q);
    }
  }

  lemma LinkOfOK(plans: map<Id, Plan>, at: map<Id, nat>, p: Id)
    requires PlanOK(plans, at, p)
    ensures p in at ==> plans[p].status in {Approved, Superseded}
    ensures plans[p].status == Superseded ==>
      && plans[p].supersededBy.Some?
      && var q := plans[p].supersededBy.value;
      && q in plans && q in at && (p in at ==> at[p] < at[q])
  {
  }

  lemma {:induction false} FollowToLive(plans: map<Id, Plan>, at: map<Id, nat>, p: Id)
    requires ChainInv(plans, at) && p in plans && plans[p].status in {Approved, Superseded}
    ensures LeadsToLive(plans, p)
    decreases if p in at then |at| - at[p] else |at| + 1
  {
    hide ChainInv, LeadsToLive;
    SupersederIsOut(plans, at, p);
    if plans[p].status == Approved {
      LiveLeads(plans, p);
    } else {
      var q := plans[p].supersededBy.value;
      SupersederIsOut(plans, at, q);
      FollowToLive(plans, at, q);
      LinkLeads(plans, p, q);
    }
  }

  lemma LiveLeads(plans: map<Id, Plan>, p: Id)
    requires p in plans && plans[p].status == Approved
    ensures LeadsToLive(plans, p)
  {
    assert Walk(plans, [p]);
  }

  lemma LinkLeads(plans: map<Id, Plan>, p: Id, q: Id)
    requires p in plans && plans[p].supersededBy == Some(q) && LeadsToLive(plans, q)
    ensures LeadsToLive(plans, p)
  {
    var rest :| Walk(plans, rest) && rest[0] == q && plans[rest[|rest| - 1]].status == Approved;
    Prepend(plans, p, rest);
  }

  lemma Prepend(plans: map<Id, Plan>, p: Id, rest: seq<Id>)
    requires p in plans && Walk(plans, rest) && plans[p].supersededBy == Some(rest[0])
    ensures Walk(plans, [p] + rest) && ([p] + rest)[|rest|] == rest[|rest| - 1]
  {
  }

  /** From any SUPERSEDED plan of any run, following superseded_by ends at the one
      APPROVED plan of its container. */
  lemma ChainEndsAtLivePlan(db: Db, steps: seq<Step>, p: Id)
    requires Start(db) && p in Run(db, steps).plans && Run(db, steps).plans[p].status == Superseded
    ensures var plans := Run(db, steps).plans;
            exists path :: Walk(plans, path) && path[0] == p
              && LivePlan(plans, plans[p].container, path[|path| - 1])
              && (forall q :: LivePlan(plans, plans[p].container, q) ==> q == path[|path| - 1])
  {
    hide Run, Approvals;
    RunKeeps(db, map[], steps);
    var plans, at := Run(db, steps).plans, Approvals(db, map[], steps);
    hide ChainInv;
    FollowToLive(plans, at, p);
    var path :| Walk(plans, path) && path[0] == p && plans[path[|path| - 1]].status == Approved;
    WalkClimbs(plans, at, path);
    var last := path[|path| - 1];
    assert LivePlan(plans, plans[p].container, last);
    forall q | LivePlan(plans, plans[p].container, q)
      ensures q == last
    {
      OneLivePlan(db, steps, plans[p].container, q, last);
    }
  }

  lemma PlanRowStep(db: Db, step: Step, p: Id)
    requires p in db.plans
    ensures p in Next(db, step).plans
    ensures Next(db, step).plans[p].container == db.plans[p].container
    ensures db.plans[p].status == Superseded ==> Next(db, step).plans[p] == db.plans[p]
    ensures db.plans[p].status == Approved ==>
      Next(db, step).plans[p] == db.plans[p] || Next(db, step).plans[p].status == Superseded
  {
    hide Try;
    if Try(db, step).Ok? { PlansAfter(db, step); }
  }

  lemma WipeKeepsPlans(db: Db, plan: Id)
    ensures forall c :: Wipe(db, c, plan).plans == db.plans
  {
  }

  /** SUPERSEDED is terminal: no later call changes the row again. */
  lemma {:induction false} SupersededForever(db: Db, steps: seq<Step>, p: Id)
    requires p in db.plans && db.plans[p].status == Superseded
    ensures p in Run(db, steps).plans && Run(db, steps).plans[p] == db.plans[p]
    decreases |steps|
  {
    hide Next;
    if steps != [] {
      PlanRowStep(db, steps[0], p);
      SupersededForever(Next(db, steps[0]), steps[1..], p);
    }
  }

  /** A plan that was once live is live or superseded ever after. */
  lemma {:induction false} ApprovedStaysOrRetires(db: Db, steps: seq<Step>, p: Id)
    requires p in db.plans && db.plans[p].status in {Approved, Superseded}
    ensures p in Run(db, steps).plans && Run(db, steps).plans[p].status in {Approved, Superseded}
    decreases |steps|
  {
    hide Next;
    if steps != [] {
      PlanRowStep(db, steps[0], p);
      ApprovedStaysOrRetires(Next(db, steps[0]), steps[1..], p);
    }
  }

  // ------------------------------------------------------------ one plan per file

  /** No two active plans of a container come from the same file. */
  ghost predicate FilesOnce(plans: map<Id, Plan>) {
    forall p, q :: p in plans && q in plans && SameFile(plans[p], plans[q]) ==> p == q
  }

  /** Active plans of one container from one file. */
  predicate SameFile(p: Plan, q: Plan) {
    p.container == q.container && p.hash == q.hash && p.status != Superseded && q.status != Superseded
  }

  lemma PromoteKeepsFiles(plans: map<Id, Plan>, plan: Id, actor: Id)
    requires FilesOnce(plans) && plan in plans && plans[plan].status in {Parsed, Validated}
    ensures FilesOnce(Promote(plans, plan, actor))
  {
  }

  lemma UploadKeepsFiles(db: Db, plan: Id, container: Id, hash: int, version: int)
    requires FilesOnce(db.plans) && UploadPlan(db, plan, container, hash, version).Ok?
    ensures FilesOnce(UploadPlan(db, plan, container, hash, version).value.plans)
  {
    assert forall p :: p in db.plans && Active(db.plans[p], container) ==> db.plans[p].hash != hash;
  }

  lemma {:induction false} RunKeepsFiles(db: Db, steps: seq<Step>)
    requires FilesOnce(db.plans)
    ensures FilesOnce(Run(db, steps).plans)
    decreases |steps|
  {
    if steps != [] {
      hide FilesOnce, Try, Promote, UploadPlan;
      var step := steps[0];
      if Try(db, step).Ok? {
        PlansAfter(db, step);
        if step.StepUpload? { UploadedFiles(db, step); }
        if step.StepApprove? && db.plans[step.plan].status != Approved {
          PromoteKeepsFiles(db.plans, step.plan, step.actor);
        }
      }
      RunKeepsFiles(Next(db, step), steps[1..]);
    }
  }

  lemma UploadedFiles(db: Db, step: Step)
    requires step.StepUpload? && Try(db, step).Ok? && FilesOnce(db.plans)
    ensures FilesOnce(Next(db, step).plans)
  {
    hide FilesOnce, UploadPlan;
    UploadKeepsFiles(db, step.plan, step.container, step.hash, step.version);
  }

  /** In every run an active plan is the only active one of its file in its container. */
  lemma OneActivePlanPerFile(db: Db, steps: seq<Step>, p: Id, q: Id)
    requires Start(db)
    requires var plans := Run(db, steps).plans;
             p in plans && q in plans && SameFile(plans[p], plans[q])
    ensures p == q
  {
    hide Run;
    RunKeepsFiles(db, steps);
  }
}
