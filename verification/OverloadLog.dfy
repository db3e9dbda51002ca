/** What the foreign key of the overload log does to the lines it names: a line
    that was added over capacity can never leave its container. */
module OverloadLog {
  import opened Common
  import opened LineTable
  import opened Delivery
  import opened Loading

  predicate Holds(lines: map<Id, Line>, o: Overload) {
    o.line in lines && lines[o.line].container == o.container
  }

  ghost predicate Referenced(db: Db) {
    forall i :: 0 <= i < |db.overloads| ==> Holds(db.lines, db.overloads[i])
  }

  lemma AddKeepsReferences(db: Db, req: Request, v: View)
    requires Referenced(db) && req.AddLine? && ExecAdd(db, req, v).Ok?
    ensures Referenced(ExecAdd(db, req, v).value)
  {
    hide Fits;
  }

  lemma DeleteKeepsReferences(db: Db, req: Request, v: View)
    requires Referenced(db) && req.DeleteLine? && ExecDelete(db, req, v).Ok?
    ensures Referenced(ExecDelete(db, req, v).value)
  {
    forall i | 0 <= i < |db.overloads|
      ensures Holds(db.lines - {req.line}, db.overloads[i])
    {
      assert Holds(db.lines, db.overloads[i]);
    }
  }

  lemma TransferKeepsReferences(db: Db, req: Request, v: View)
    requires Referenced(db) && req.TransferLine? && ExecTransfer(db, req, v).Ok? && v.line == Lookup(db.lines, req.line)
    ensures Referenced(ExecTransfer(db, req, v).value)
  {
    hide Fits;
    TransferOk(db, req, v);
    TransferWrites(db, req, v);
    forall i | 0 <= i < |db.overloads|
      ensures Holds(LinesAfterTransfer(db.lines, req), db.overloads[i])
    {
      assert Holds(db.lines, db.overloads[i]);
    }
  }

  lemma SameTablesKeepReferences(db: Db, db': Db)
    requires Referenced(db) && db'.lines == db.lines && db'.overloads == db.overloads
    ensures Referenced(db')
  {
  }

  lemma MoveKeepsTables(db: Db, req: Request, v: View)
    requires req.Seal? || req.Reopen? || req.Ship? || req.Cancel?
    requires Exec(db, req, v).Ok?
    ensures Exec(db, req, v).value.lines == db.lines && Exec(db, req, v).value.overloads == db.overloads
  {
  }

  lemma CallKeepsReferences(db: Db, req: Request, seen: map<Id, SOLine>)
    requires Referenced(db) && Call(db, req, seen).Ok?
    ensures Referenced(Call(db, req, seen).value)
  {
    hide Referenced, ViewOf, ExecAdd, ExecDelete, ExecTransfer;
    ViewLine(db, req);
    var v := ViewOf(db, req);
    match req
    case AddLine(_, _, _, _, _, _, _, _, _, _, _, _) => AddKeepsReferences(db, req, v);
    case DeleteLine(_, _) => DeleteKeepsReferences(db, req, v);
    case TransferLine(_, _, _, _, _, _, _, _, _, _, _) => TransferKeepsReferences(db, req, v);
    case _ =>
      MoveKeepsTables(db, req, v);
      SameTablesKeepReferences(db, Call(db, req, seen).value);
  }

  lemma ApproveKeepsReferences(db: Db, plan: Id, actor: Id, confirm: bool)
    requires Referenced(db) && ApprovePlan(db, plan, actor, confirm).Ok?
    ensures Referenced(ApprovePlan(db, plan, actor, confirm).value)
  {
    hide Snapshot, Promote;
    var db' := ApprovePlan(db, plan, actor, confirm).value;
    forall i | 0 <= i < |db.overloads|
      ensures Holds(db'.lines, db.overloads[i])
    {
      assert Holds(db.lines, db.overloads[i]);
      assert Logged(db, db.overloads[i].line);
    }
  }

  lemma StepKeepsReferences(db: Db, step: Step)
    requires Referenced(db)
    ensures Referenced(Next(db, step))
  {
    hide Referenced, Call, ApprovePlan;
    if Try(db, step).Ok? {
      match step
      case StepCall(req, seen) => CallKeepsReferences(db, req, seen);
      case StepApprove(plan, actor, confirm) => ApproveKeepsReferences(db, plan, actor, confirm);
      case _ => SameTablesKeepReferences(db, Next(db, step));
    }
  }

  /** In every run each overload-log row's line is still in the container it was
      added to: never deleted, moved as a whole, or wiped. */
  lemma {:induction false} LoggedLinesStay(db: Db, steps: seq<Step>)
    requires Referenced(db)
    ensures Referenced(Run(db, steps))
    decreases |steps|
  {
    if steps != [] {
      hide Referenced, Next;
      StepKeepsReferences(db, steps[0]);
      LoggedLinesStay(Next(db, steps[0]), steps[1..]);
    }
  }

  lemma OverrideIsLogged(db: Db, container: Id)
    requires Referenced(db)
    ensures AnyLogged(db, container) <==> exists i :: 0 <= i < |db.overloads| && db.overloads[i].container == container
  {
    if id :| id in Pick(db.lines, Just(container)) && Logged(db, id) {
      var i :| 0 <= i < |db.overloads| && db.overloads[i].line == id;
      assert Holds(db.lines, db.overloads[i]);
    }
    if i :| 0 <= i < |db.overloads| && db.overloads[i].container == container {
      assert Holds(db.lines, db.overloads[i]);
      assert db.overloads[i].line in Pick(db.lines, Just(container)) && Logged(db, db.overloads[i].line);
    }
  }

  /** What an approval needs besides: a plan not decided yet, of a container that
      can hold lines, an actor, and the consent to wipe. */
  predicate Approvable(db: Db, plan: Id, actor: Id) {
    && plan != NIL && actor != NIL && plan in db.plans
    && db.plans[plan].status in {Parsed, Validated}
    && db.plans[plan].container in db.containers
    && CanHoldLines(db.containers[db.plans[plan].container].status)
  }

  /** So in every run a new plan can be approved exactly when capacity was never
      overridden in its container: an override is for good, because the lines it
      let in cannot be wiped. */
  lemma ApprovedIffNeverOverridden(db: Db, steps: seq<Step>, plan: Id, actor: Id)
    requires Start(db) && Approvable(Run(db, steps), plan, actor)
    ensures var now := Run(db, steps);
            ApprovePlan(now, plan, actor, true).Ok? <==>
              forall i :: 0 <= i < |now.overloads| ==> now.overloads[i].container != now.plans[plan].container
  {
    hide Run, Promote, Wipe, CanHoldLines, AnyLogged, Referenced;
    assert Referenced(db) by { NothingLogged(db); }
    LoggedLinesStay(db, steps);
    var now := Run(db, steps);
    var c := now.plans[plan].container;
    OverrideIsLogged(now, c);
    if AnyLogged(now, c) { LoggedMeansLines(now, c); }
  }

  /** Whoever asks, and whether or not they consent to wiping: an override blocks
      every plan that is not approved already. */
  lemma OverrideBlocksNewPlans(db: Db, steps: seq<Step>, i: nat, plan: Id, actor: Id, confirm: bool)
    requires Start(db) && i < |Run(db, steps).overloads| && plan in Run(db, steps).plans
    requires Run(db, steps).plans[plan].container == Run(db, steps).overloads[i].container
    requires Run(db, steps).plans[plan].status != Approved
    ensures ApprovePlan(Run(db, steps), plan, actor, confirm).Err?
  {
    hide Run, CanHoldLines, AnyLogged, Referenced;
    assert Referenced(db) by { NothingLogged(db); }
    LoggedLinesStay(db, steps);
    var now := Run(db, steps);
    OverrideIsLogged(now, now.plans[plan].container);
    LoggedMeansLines(now, now.plans[plan].container);
  }

  lemma NothingLogged(db: Db)
    requires Start(db)
    ensures Referenced(db)
  {
  }

  lemma LoggedMeansLines(db: Db, container: Id)
    requires AnyLogged(db, container)
    ensures Pick(db.lines, Just(container)) != map[]
  {
  }

  // ------------------------------------------------------------------- it happens

  const Shop := Db(0.0, map[], map[], map[5 := SOLine(3, true, 1, 0)], map[], [], [], [], [])

  const Make := StepCreate(1, GP20, 0.0, 0.0, None, 9)

  const Upload := StepUpload(20, 1, 77, 1)

  const Force := StepCall(AddLine(1, 11, 3, 5, 1, 40.0, 1.0, 9, true, true, true, 0), Shop.soLines)

  /** A container of 33.2 cubic metres and its parsed plan. */
  function Ready(): Db {
    Shop.(containers := map[1 := Container(33.2, 28000.0, Open, None, None, None)],
          plans := map[20 := Plan(1, 77, 1, Parsed, None, None)])
  }

  /** The same with 40 cubic metres forced in. */
  function Forced(): Db {
    Ready().(containers := map[1 := Container(33.2, 28000.0, Loading, None, None, None)],
             lines := map[11 := Line(1, 3, 5, 1, 40.0, 1.0)],
             statusLog := [StatusEntry(1, Open, Loading, 9, 0)],
             overloads := [Overload(1, 11, 40.0, 33.2, 1.0, 28000.0)])
  }

  lemma MadeReady()
    ensures Next(Next(Shop, Make), Upload) == Ready()
  {
    var made := Next(Shop, Make);
    assert made.containers == Ready().containers;
    assert Next(made, Upload).plans == Ready().plans;
  }

  lemma ForcedIn()
    ensures Next(Ready(), Force) == Forced()
  {
    assert Pick(map[], Just(1)) == map[];
    assert ViewOf(Ready(), Force.req).load == Zero;
    var db' := Next(Ready(), Force);
    assert db'.lines == Forced().lines && db'.containers == Forced().containers;
  }

  /** An admin forces a line in over capacity; after that neither deleting the
      line nor approving the parsed plan goes through. */
  lemma ForcedLineIsStuck()
    ensures var now := Run(Shop, [Make, Upload, Force]);
            && Start(Shop) && now == Forced()
            && Call(now, DeleteLine(1, 11), now.soLines) == Err(DbError)
            && ApprovePlan(now, 20, 9, true) == Err(DbError)
  {
    MadeReady();
    ForcedIn();
    ForcedRefusals();
    hide Next, Call, ApprovePlan;
    assert [Make, Upload, Force][1..] == [Upload, Force] && [Upload, Force][1..] == [Force] && [Force][1..] == [];
    assert Run(Forced(), []) == Forced();
    assert Run(Ready(), [Force]) == Forced();
    assert Run(Next(Shop, Make), [Upload, Force]) == Forced();
  }

  lemma ForcedRefusals()
    ensures Call(Forced(), DeleteLine(1, 11), Forced().soLines) == Err(DbError)
    ensures ApprovePlan(Forced(), 20, 9, true) == Err(DbError)
  {
    var db := Forced();
    assert db.overloads[0].line == 11;
    assert Logged(db, 11);
    assert 11 in Pick(db.lines, Just(1));
    assert AnyLogged(db, 1);
  }
}
