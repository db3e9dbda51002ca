/** Where quantities go: the ledger of every container and sales order line over
    a run, and the shipments booked by Seal. */
module LoadingLedger {
  import opened Common
  import opened LineTable
  import opened Delivery
  import opened Loading

  // ---------------------------------------------------------- quantity ledger

  /** Line totals added, deleted, transferred in and transferred out. */
  datatype Flow = Flow(added: Load, deleted: Load, movedIn: Load, movedOut: Load) {
    function Plus(f: Flow): Flow {
      Flow(added.Plus(f.added), deleted.Plus(f.deleted), movedIn.Plus(f.movedIn), movedOut.Plus(f.movedOut))
    }
  }

  const NoFlow := Flow(Zero, Zero, Zero, Zero)

  /** What a successful call adds to, deletes from or moves across a selection. */
  function StepFlow(db: Db, step: Step, sel: Sel): Flow {
    if !step.StepCall? || Try(db, step).Err? then NoFlow
    else
      match step.req
      case AddLine(c, _, sku, so, qty, cbm, kg, _, _, _, _, _) =>
        NoFlow.(added := Part(Line(c, sku, so, qty, cbm, kg), sel))
      case DeleteLine(_, line) =>
        if line in db.lines then NoFlow.(deleted := Part(db.lines[line], sel)) else NoFlow
      case TransferLine(c, _, line, _, _, _, _, _, _, _, _) =>
        if line !in db.lines then NoFlow
        else
          var part := Asked(step.req, db.lines[line]);
          NoFlow.(movedIn := Part(part.(container := step.req.target), sel),
                  movedOut := Part(part.(container := c), sel))
      case _ => NoFlow
  }

  function RunFlow(db: Db, steps: seq<Step>, sel: Sel): Flow
    decreases |steps|
  {
    if steps == [] then NoFlow
    else StepFlow(db, steps[0], sel).Plus(RunFlow(Next(db, steps[0]), steps[1..], sel))
  }

  /** Totals frozen into container_lines_history. */
  function Wiped(history: seq<HistoryRow>, sel: Sel): Load {
    if history == [] then Zero
    else Wiped(history[..|history| - 1], sel).Plus(Part(history[|history| - 1].row, sel))
  }

  lemma PlusAssoc(x: Load, y: Load, z: Load)
    ensures x.Plus(y).Plus(z) == x.Plus(y.Plus(z))
    ensures x.Plus(Zero) == x
  {
  }

  lemma {:induction false} WipedAppend(a: seq<HistoryRow>, b: seq<HistoryRow>, sel: Sel)
    ensures Wiped(a + b, sel) == Wiped(a, sel).Plus(Wiped(b, sel))
  {
    if b == [] {
      assert a + b == a;
    } else {
      WipedAppend(a, b[..|b| - 1], sel);
      WipedAppendLast(a, b, sel);
    }
  }

  lemma WipedAppendLast(a: seq<HistoryRow>, b: seq<HistoryRow>, sel: Sel)
    requires b != []
    requires Wiped(a + b[..|b| - 1], sel) == Wiped(a, sel).Plus(Wiped(b[..|b| - 1], sel))
    ensures Wiped(a + b, sel) == Wiped(a, sel).Plus(Wiped(b, sel))
  {
    hide Part, Load.Plus;
    var n := |b| - 1;
    assert (a + b)[..|a + b| - 1] == a + b[..n] && (a + b)[|a + b| - 1] == b[n];
    PlusAssoc(Wiped(a, sel), Wiped(b[..n], sel), Part(b[n].row, sel));
  }

  /** The snapshot of a supersede freezes exactly the rows it wipes. */
  lemma {:induction false} SnapshotIsTotal(rows: map<Id, Line>, plan: Id, sel: Sel)
    ensures Wiped(Snapshot(rows, plan), sel) == LoadOf(rows, sel)
    decreases |rows|
  {
    if rows == map[] {
      assert Pick(rows, sel) == map[];
    } else {
      var k := Least(rows.Keys);
      SnapshotIsTotal(rows - {k}, plan, sel);
      SnapshotStep(rows, k, plan, sel);
    }
  }

  lemma SnapshotStep(rows: map<Id, Line>, k: Id, plan: Id, sel: Sel)
    requires rows != map[] && k == Least(rows.Keys)
    requires Wiped(Snapshot(rows - {k}, plan), sel) == LoadOf(rows - {k}, sel)
    ensures Wiped(Snapshot(rows, plan), sel) == LoadOf(rows, sel)
  {
    hide LoadOf, Part, Pick;
    var h := HistoryRow(k, rows[k], plan);
    var rest := Snapshot(rows - {k}, plan);
    assert Snapshot(rows, plan) == [h] + rest;
    hide Snapshot;
    WipedAppend([h], rest, sel);
    assert [h][..0] == [];
    assert Wiped([h], sel) == Wiped([], sel).Plus(Part(rows[k], sel));
    hide Wiped;
    LoadDelete(rows, k, sel);
  }

  /** Taking out the lines of one container takes their totals out. */
  lemma WipeTakesOut(lines: map<Id, Line>, c: Id, sel: Sel)
    ensures var rows := Pick(lines, Just(c));
            LoadOf(lines, sel) == LoadOf(lines - rows.Keys, sel).Plus(LoadOf(rows, sel))
  {
    var rows := Pick(lines, Just(c));
    assert Pick(lines, sel) == Pick(lines - rows.Keys, sel) + Pick(rows, sel);
    TotalUnion(Pick(lines - rows.Keys, sel), Pick(rows, sel));
  }

  lemma ApproveBalances(db: Db, plan: Id, actor: Id, confirm: bool, sel: Sel)
    requires ApprovePlan(db, plan, actor, confirm).Ok?
    ensures var db' := ApprovePlan(db, plan, actor, confirm).value;
            LoadOf(db'.lines, sel).Plus(Wiped(db'.history, sel)) == LoadOf(db.lines, sel).Plus(Wiped(db.history, sel))
  {
    hide LoadOf, Wiped;
    var c := db.plans[plan].container;
    var rows := Pick(db.lines, Just(c));
    WipeTakesOut(db.lines, c, sel);
    SnapshotIsTotal(rows, plan, sel);
    WipedAppend(db.history, Snapshot(rows, plan), sel);
  }

  lemma CallBalances(db: Db, req: Request, seen: map<Id, SOLine>, sel: Sel)
    requires Call(db, req, seen).Ok?
    ensures var f := StepFlow(db, StepCall(req, seen), sel);
            var db' := Call(db, req, seen).value;
            && db'.history == db.history
            && LoadOf(db'.lines, sel).Plus(f.deleted).Plus(f.movedOut)
               == LoadOf(db.lines, sel).Plus(f.added).Plus(f.movedIn)
  {
    hide LoadOf, ViewOf;
    ViewLine(db, req);
    match req
    case AddLine(_, _, _, _, _, _, _, _, _, _, _, _) => AddedLoad(db, req, ViewOf(db, req), sel);
    case DeleteLine(_, line) => LoadDelete(db.lines, line, sel);
    case TransferLine(_, _, _, _, _, _, _, _, _, _, _) =>
      TransferWrites(db, req, ViewOf(db, req));
      TransferLoads(db.lines, req, sel);
    case _ =>
  }

  /** Lines and history of a selection taken together. */
  function Accounted(db: Db, sel: Sel): Load { LoadOf(db.lines, sel).Plus(Wiped(db.history, sel)) }

  ghost predicate Balanced(before: Load, after: Load, f: Flow) {
    after.Plus(f.deleted).Plus(f.movedOut) == before.Plus(f.added).Plus(f.movedIn)
  }

  lemma StepBalances(db: Db, step: Step, sel: Sel)
    ensures Balanced(Accounted(db, sel), Accounted(Next(db, step), sel), StepFlow(db, step, sel))
  {
    hide LoadOf, Wiped, Call, ApprovePlan;
    if Try(db, step).Ok? {
      match step
      case StepCall(req, seen) => CallBalances(db, req, seen, sel);
      case StepApprove(plan, actor, confirm) => ApproveBalances(db, plan, actor, confirm, sel);
      case _ =>
    }
  }

  /** The quantity ledger. For any selection of containers, SKU and sales order
      line, and over any run: what is on the lines now and in the history, plus
      what was deleted and transferred out, is what there was before plus what
      was added and transferred in; for pieces, CBM and weight alike. */
  lemma {:induction false} QuantityLedger(db: Db, steps: seq<Step>, sel: Sel)
    ensures Balanced(Accounted(db, sel), Accounted(Run(db, steps), sel), RunFlow(db, steps, sel))
    decreases |steps|
  {
    hide Accounted, StepFlow, Next;
    if steps != [] {
      var mid := Next(db, steps[0]);
      StepBalances(db, steps[0], sel);
      QuantityLedger(mid, steps[1..], sel);
      BalancesChain(Accounted(db, sel), Accounted(mid, sel), Accounted(Run(mid, steps[1..]), sel),
                    StepFlow(db, steps[0], sel), RunFlow(mid, steps[1..], sel));
    }
  }

  lemma BalancesChain(before: Load, mid: Load, after: Load, f: Flow, g: Flow)
    requires Balanced(before, mid, f) && Balanced(mid, after, g)
    ensures Balanced(before, after, f.Plus(g))
  {
  }

  // ------------------------------------------------------------ transfer audit

  predicate Wanted(sku: Option<Id>, t: Transfer) { sku.Some? ==> t.sku == sku.value }

  function AuditIn(audit: seq<Transfer>, containers: set<Id>, sku: Option<Id>): int {
    if audit == [] then 0
    else
      var t := audit[|audit| - 1];
      AuditIn(audit[..|audit| - 1], containers, sku) + if t.target in containers && Wanted(sku, t) then t.qty else 0
  }

  function AuditOut(audit: seq<Transfer>, containers: set<Id>, sku: Option<Id>): int {
    if audit == [] then 0
    else
      var t := audit[|audit| - 1];
      AuditOut(audit[..|audit| - 1], containers, sku) + if t.source in containers && Wanted(sku, t) then t.qty else 0
  }

  predicate Transfers(db: Db, step: Step) { step.StepCall? && step.req.TransferLine? && Try(db, step).Ok? }

  lemma OthersDoNotAudit(db: Db, step: Step)
    requires !Transfers(db, step)
    ensures Next(db, step).transfers == db.transfers
    ensures forall sel :: StepFlow(db, step, sel).movedIn == StepFlow(db, step, sel).movedOut == Zero
  {
    hide LoadOf, Pick, ReadAggregates, Wipe, Promote, Part;
    if step.StepApprove? { WipeKeepsOrders(db, step.plan); }
  }

  lemma TransferAudits(db: Db, req: Request, seen: map<Id, SOLine>)
    requires Transfers(db, StepCall(req, seen))
    ensures req.line in db.lines
    ensures var part := Asked(req, db.lines[req.line]);
            exists cross :: Next(db, StepCall(req, seen)).transfers
              == db.transfers + [Transfer(req.container, req.target, req.line, part.sku, part.qty, cross)]
  {
    hide LoadOf, Pick;
  }

  lemma StepAudited(db: Db, step: Step, containers: set<Id>, sku: Option<Id>)
    ensures var f := StepFlow(db, step, Sel(containers, sku, None));
            var db' := Next(db, step);
            && AuditIn(db'.transfers, containers, sku) == AuditIn(db.transfers, containers, sku) + f.movedIn.qty
            && AuditOut(db'.transfers, containers, sku) == AuditOut(db.transfers, containers, sku) + f.movedOut.qty
  {
    hide Next;
    if Transfers(db, step) {
      hide Call;
      var req := step.req;
      TransferAudits(db, req, step.seen);
      var part := Asked(req, db.lines[req.line]);
      var cross :| Next(db, step).transfers
        == db.transfers + [Transfer(req.container, req.target, req.line, part.sku, part.qty, cross)];
      var t := Next(db, step).transfers;
      assert t[..|t| - 1] == db.transfers;
    } else {
      hide StepFlow, Transfers;
      OthersDoNotAudit(db, step);
    }
  }

  /** The audit table accounts for the transferred pieces of every container and SKU. */
  lemma {:induction false} TransfersAudited(db: Db, steps: seq<Step>, containers: set<Id>, sku: Option<Id>)
    ensures var f := RunFlow(db, steps, Sel(containers, sku, None));
            var db' := Run(db, steps);
            && AuditIn(db'.transfers, containers, sku) == AuditIn(db.transfers, containers, sku) + f.movedIn.qty
            && AuditOut(db'.transfers, containers, sku) == AuditOut(db.transfers, containers, sku) + f.movedOut.qty
    decreases |steps|
  {
    if steps != [] {
      hide StepFlow, Next;
      StepAudited(db, steps[0], containers, sku);
      TransfersAudited(Next(db, steps[0]), steps[1..], containers, sku);
    }
  }

  /** Reconciliation from the tables alone: the pieces of a SKU now in a
      container are those added, less those deleted, less those in the history,
      plus the audit's arrivals, less the audit's departures. */
  lemma ContainerReconciles(db: Db, steps: seq<Step>, c: Id, sku: Option<Id>)
    requires Start(db)
    ensures var sel := Sel({c}, sku, None);
            var db' := Run(db, steps);
            var f := RunFlow(db, steps, sel);
            LoadOf(db'.lines, sel).qty
            == f.added.qty - f.deleted.qty - Wiped(db'.history, sel).qty
               + AuditIn(db'.transfers, {c}, sku) - AuditOut(db'.transfers, {c}, sku)
  {
    QuantityLedger(db, steps, Sel({c}, sku, None));
    TransfersAudited(db, steps, {c}, sku);
    assert Pick(db.lines, Sel({c}, sku, None)) == map[];
  }

  /** Every transfer, full or partial, conserves pieces, CBM and weight of every
      SKU and sales order line over any containers that include both ends. */
  lemma TransferConserves(db: Db, req: Request, seen: map<Id, SOLine>, sel: Sel)
    requires req.TransferLine? && Call(db, req, seen).Ok?
    requires req.container in sel.containers && req.target in sel.containers
    ensures LoadOf(Call(db, req, seen).value.lines, sel) == LoadOf(db.lines, sel)
  {
    hide LoadOf;
    TransferWrites(db, req, ViewOf(db, req));
    TransferLoads(db.lines, req, sel);
  }

  /** Every live line keeps a positive quantity and non-negative CBM and weight. */
  lemma LinesStayPositive(db: Db, steps: seq<Step>, id: Id)
    requires Start(db) && id in Run(db, steps).lines
    ensures LineOK(Run(db, steps).lines[id])
  {
    StartInv(db);
    RunKeepsInv(db, steps);
  }

  // ------------------------------------------------------------------ shipments

  function Booked(db: Db, so: Id): int { if so in db.soLines then db.soLines[so].shipped else 0 }

  function QtyFor(db: Db, containers: set<Id>, so: Id): int {
    LoadOf(db.lines, Sel(containers, None, Some(so))).qty
  }

  function SealedSet(db: Db): set<Id> {
    set c | c in db.containers && IsSealed(db.containers[c].status)
  }

  /** Pieces of a sales order line on SEALED and SHIPPED containers. */
  function OnSealed(db: Db, so: Id): int { QtyFor(db, SealedSet(db), so) }

  predicate Seals(db: Db, step: Step) { step.StepCall? && step.req.Seal? && Try(db, step).Ok? }

  predicate Unseals(db: Db, step: Step) { step.StepCall? && step.req.Reopen? && Try(db, step).Ok? }

  function SealedByStep(db: Db, step: Step, so: Id): int {
    if Seals(db, step) then QtyFor(db, {step.req.container}, so) else 0
  }

  function ReopenedByStep(db: Db, step: Step, so: Id): int {
    if Unseals(db, step) then QtyFor(db, {step.req.container}, so) else 0
  }

  /** Pieces on the containers sealed along a run, at the time of each seal. */
  function SealedIn(db: Db, steps: seq<Step>, so: Id): int
    decreases |steps|
  {
    if steps == [] then 0 else SealedByStep(db, steps[0], so) + SealedIn(Next(db, steps[0]), steps[1..], so)
  }

  /** Pieces on the containers reopened along a run, at the time of each reopening. */
  function ReopenedIn(db: Db, steps: seq<Step>, so: Id): int
    decreases |steps|
  {
    if steps == [] then 0 else ReopenedByStep(db, steps[0], so) + ReopenedIn(Next(db, steps[0]), steps[1..], so)
  }

  lemma SealBooks(db: Db, req: Request, seen: map<Id, SOLine>, so: Id)
    requires req.Seal? && Call(db, req, seen).Ok?
    ensures Booked(Call(db, req, seen).value, so) == Booked(db, so) + QtyFor(db, {req.container}, so)
    ensures Call(db, req, seen).value.soLines.Keys == db.soLines.Keys
  {
    hide LoadOf;
    var rows := Pick(db.lines, Just(req.container));
    ItemsAreGroupedQuantities(rows, {req.container}, so);
    assert Pick(rows, Sel({req.container}, None, Some(so))) == Pick(db.lines, Sel({req.container}, None, Some(so)));
    SamePick(rows, db.lines, Sel({req.container}, None, Some(so)));
  }

  lemma SamePick(a: map<Id, Line>, b: map<Id, Line>, sel: Sel)
    requires Pick(a, sel) == Pick(b, sel)
    ensures LoadOf(a, sel) == LoadOf(b, sel)
  {
  }

  lemma OthersDoNotBook(db: Db, step: Step, so: Id)
    requires !(step.StepCall? && step.req.Seal?)
    ensures Next(db, step).soLines == db.soLines
  {
    hide LoadOf, Pick, Wipe, Exec, ViewOf, Promote;
    if step.StepApprove? { WipeKeepsOrders(db, step.plan); }
    if step.StepCall? { CallKeepsOrders(db, step.req, ViewOf(db, step.req)); }
  }

  lemma CallKeepsOrders(db: Db, req: Request, v: View)
    requires !req.Seal?
    ensures Exec(db, req, v).Ok? ==> Exec(db, req, v).value.soLines == db.soLines
  {
    hide LoadOf, Pick, Fits;
  }

  lemma WipeKeepsOrders(db: Db, plan: Id)
    ensures forall c :: var w := Wipe(db, c, plan);
      w.soLines == db.soLines && w.containers == db.containers && w.plans == db.plans && w.transfers == db.transfers
  {
  }

  /** Shipment accounting: qty_shipped of a sales order line grows by exactly the
      grouped quantities of the committed seals. */
  lemma {:induction false} BookedIsSealed(db: Db, steps: seq<Step>, so: Id)
    ensures Booked(Run(db, steps), so) == Booked(db, so) + SealedIn(db, steps, so)
    decreases |steps|
  {
    if steps != [] {
      hide Call, QtyFor;
      var step := steps[0];
      if step.StepCall? && step.req.Seal? {
        if Try(db, step).Ok? { SealBooks(db, step.req, step.seen, so); }
      } else {
        OthersDoNotBook(db, step, so);
      }
      BookedIsSealed(Next(db, step), steps[1..], so);
    }
  }

  lemma SplitQty(db: Db, a: set<Id>, b: set<Id>, so: Id)
    requires a !! b
    ensures QtyFor(db, a + b, so) == QtyFor(db, a, so) + QtyFor(db, b, so)
  {
    LoadSplit(db.lines, a, b, None, Some(so));
  }

  /** Lines change only in containers that are not sealed. */
  lemma SealedLinesStay(db: Db, step: Step, so: Id)
    requires !(step.StepCall? && step.req.Reopen?)
    ensures forall c :: c in SealedSet(db) ==> c in SealedSet(Next(db, step))
    ensures QtyFor(Next(db, step), SealedSet(db), so) == QtyFor(db, SealedSet(db), so)
  {
    hide Next, LoadOf, RowsIn;
    var db' := Next(db, step);
    forall c | c in SealedSet(db)
      ensures c in SealedSet(db') && RowsIn(db', c) == RowsIn(db, c)
    {
      FrozenStep(db, step, c);
    }
    SameRowsSameQty(db, db', SealedSet(db), so);
  }

  lemma SameRowsSameQty(db: Db, db': Db, containers: set<Id>, so: Id)
    requires forall c :: c in containers ==> RowsIn(db', c) == RowsIn(db, c)
    ensures QtyFor(db', containers, so) == QtyFor(db, containers, so)
  {
    hide LoadOf;
    var s := Sel(containers, None, Some(so));
    forall id | id in db.lines && Matches(s, db.lines[id])
      ensures id in db'.lines && db'.lines[id] == db.lines[id]
    {
      assert id in RowsIn(db, db.lines[id].container);
      assert id in RowsIn(db', db.lines[id].container);
    }
    forall id | id in db'.lines && Matches(s, db'.lines[id])
      ensures id in db.lines && db'.lines[id] == db.lines[id]
    {
      assert id in RowsIn(db', db'.lines[id].container);
      assert id in RowsIn(db, db'.lines[id].container);
    }
    assert Pick(db'.lines, s) == Pick(db.lines, s);
    SamePick(db'.lines, db.lines, s);
  }

  lemma SealedSetSeal(db: Db, req: Request, seen: map<Id, SOLine>)
    requires req.Seal? && Call(db, req, seen).Ok?
    ensures SealedSet(Call(db, req, seen).value) == SealedSet(db) + {req.container}
    ensures req.container !in SealedSet(db)
  {
    hide LoadOf, Pick, ReadAggregates, RecordShipment;
    ViewMain(db, req);
  }

  lemma SealedSetReopen(db: Db, req: Request, seen: map<Id, SOLine>)
    requires req.Reopen? && Call(db, req, seen).Ok?
    ensures SealedSet(Call(db, req, seen).value) + {req.container} == SealedSet(db)
    ensures req.container !in SealedSet(Call(db, req, seen).value)
  {
    hide LoadOf, Pick, ReadAggregates;
    ViewMain(db, req);
  }

  lemma SealedSetCall(db: Db, req: Request, seen: map<Id, SOLine>)
    requires !req.Seal? && !req.Reopen? && Call(db, req, seen).Ok?
    ensures SealedSet(Call(db, req, seen).value) == SealedSet(db)
  {
    hide LoadOf, Pick, ReadAggregates, Moved;
    ViewMain(db, req);
  }

  lemma SealedSetStep(db: Db, step: Step)
    requires !Seals(db, step) && !Unseals(db, step)
    ensures SealedSet(Next(db, step)) == SealedSet(db)
  {
    if Try(db, step).Ok? {
      match step
      case StepCall(req, seen) => SealedSetCall(db, req, seen);
      case StepApprove(plan, _, _) =>
        hide Wipe, Promote, Pick;
        WipeKeepsOrders(db, plan);
      case _ =>
    }
  }

  lemma ViewMain(db: Db, req: Request)
    ensures ViewOf(db, req).main == Lookup(db.containers, req.container)
    ensures req.TransferLine? ==> ViewOf(db, req).target == Lookup(db.containers, req.target)
  {
  }

  /** One step moves the gap between booked and sealed pieces only by reopening. */
  lemma StepGap(db: Db, step: Step, so: Id)
    ensures Booked(Next(db, step), so) - OnSealed(Next(db, step), so)
            == Booked(db, so) - OnSealed(db, so) + ReopenedByStep(db, step, so)
  {
    hide Call, QtyFor, SealedSet, Booked;
    var db' := Next(db, step);
    if Unseals(db, step) {
      var c := step.req.container;
      OthersDoNotBook(db, step, so);
      SealedSetReopen(db, step.req, step.seen);
      ReopenKeepsLines(db, step.req, step.seen);
      SplitQty(db, SealedSet(db'), {c}, so);
      SameLines(db, db', SealedSet(db'), so);
      SameBooked(db, db', so);
    } else if Seals(db, step) {
      var c := step.req.container;
      SealBooks(db, step.req, step.seen, so);
      SealedSetSeal(db, step.req, step.seen);
      SealKeepsLines(db, step.req, step.seen);
      SplitQty(db', SealedSet(db), {c}, so);
      SameLines(db, db', {c}, so);
      SameLines(db, db', SealedSet(db), so);
    } else if db' != db {
      SealedLinesStay(db, step, so);
      SealedSetStep(db, step);
      OthersDoNotBook(db, step, so);
      SameBooked(db, db', so);
    }
  }

  lemma SameBooked(db: Db, db': Db, so: Id)
    requires db'.soLines == db.soLines
    ensures Booked(db', so) == Booked(db, so)
  {
  }

  lemma SameLines(db: Db, db': Db, containers: set<Id>, so: Id)
    requires db'.lines == db.lines
    ensures QtyFor(db', containers, so) == QtyFor(db, containers, so)
  {
  }

  lemma ReopenKeepsLines(db: Db, req: Request, seen: map<Id, SOLine>)
    requires req.Reopen? && Call(db, req, seen).Ok?
    ensures Call(db, req, seen).value.lines == db.lines
  {
    hide LoadOf, Pick;
  }

  lemma SealKeepsLines(db: Db, req: Request, seen: map<Id, SOLine>)
    requires req.Seal? && Call(db, req, seen).Ok?
    ensures Call(db, req, seen).value.lines == db.lines
  {
    hide LoadOf, Pick;
  }

  /** The general law: over any run, booked minus sealed pieces grows by exactly
      the pieces on reopened containers, because Reopen does not take back what
      Seal booked. */
  lemma {:induction false} ReopenedIsTheGap(db: Db, steps: seq<Step>, so: Id)
    ensures Booked(Run(db, steps), so) - OnSealed(Run(db, steps), so)
            == Booked(db, so) - OnSealed(db, so) + ReopenedIn(db, steps, so)
    decreases |steps|
  {
    if steps != [] {
      hide Next, OnSealed, ReopenedByStep, Booked;
      StepGap(db, steps[0], so);
      ReopenedIsTheGap(Next(db, steps[0]), steps[1..], so);
    }
  }

  lemma QtyNonNegative(db: Db, containers: set<Id>, so: Id)
    requires LinesOK(db)
    ensures QtyFor(db, containers, so) >= 0
  {
    TotalNonNegative(Pick(db.lines, Sel(containers, None, Some(so))));
  }

  /** Every reopening along a run found no piece of the order line. */
  ghost predicate ReopenedEmpty(db: Db, steps: seq<Step>, so: Id)
    decreases |steps|
  {
    steps == [] || (ReopenedByStep(db, steps[0], so) == 0 && ReopenedEmpty(Next(db, steps[0]), steps[1..], so))
  }

  lemma ReopenedNonNegative(db: Db, step: Step, so: Id)
    requires Inv(db)
    ensures ReopenedByStep(db, step, so) >= 0
  {
    hide Inv, QtyFor, LinesOK;
    ReachedLines(db);
    if Unseals(db, step) { QtyNonNegative(db, {step.req.container}, so); }
  }

  lemma {:induction false} ReopenedTerms(db: Db, steps: seq<Step>, so: Id)
    requires Inv(db)
    ensures ReopenedIn(db, steps, so) >= 0
    ensures ReopenedIn(db, steps, so) == 0 <==> ReopenedEmpty(db, steps, so)
    decreases |steps|
  {
    if steps != [] {
      hide Inv, Next, ReopenedByStep;
      NextKeepsInv(db, steps[0]);
      ReopenedTerms(Next(db, steps[0]), steps[1..], so);
      ReopenedNonNegative(db, steps[0], so);
    }
  }

  lemma ReachedLines(db: Db)
    requires Inv(db)
    ensures LinesOK(db)
  {
  }

  /** From a start with nothing booked, qty_shipped never falls behind the pieces
      on SEALED and SHIPPED containers, and equals them exactly when no piece was
      on a container at its reopening; in particular in runs without Reopen. */
  lemma BookedEqualsSealedIff(db: Db, steps: seq<Step>, so: Id)
    requires Start(db) && Booked(db, so) == 0
    ensures Booked(Run(db, steps), so) >= OnSealed(Run(db, steps), so)
    ensures Booked(Run(db, steps), so) == OnSealed(Run(db, steps), so) <==> ReopenedEmpty(db, steps, so)
    ensures (forall i :: 0 <= i < |steps| ==> !(steps[i].StepCall? && steps[i].req.Reopen?)) ==>
      Booked(Run(db, steps), so) == OnSealed(Run(db, steps), so)
  {
    StartInv(db);
    assert Pick(db.lines, Sel(SealedSet(db), None, Some(so))) == map[];
    assert OnSealed(db, so) == 0;
    hide OnSealed, Booked, Run, Inv;
    ReopenedIsTheGap(db, steps, so);
    ReopenedTerms(db, steps, so);
    if forall i :: 0 <= i < |steps| ==> !(steps[i].StepCall? && steps[i].req.Reopen?) {
      NoReopens(db, steps, so);
    }
  }

  lemma {:induction false} NoReopens(db: Db, steps: seq<Step>, so: Id)
    requires forall i :: 0 <= i < |steps| ==> !(steps[i].StepCall? && steps[i].req.Reopen?)
    ensures ReopenedIn(db, steps, so) == 0
    decreases |steps|
  {
    if steps != [] { NoReopens(Next(db, steps[0]), steps[1..], so); }
  }

  // ---------------------------------------------------------- planned quantities

  ghost predicate WithinPlan(db: Db) {
    forall so :: so in db.soLines ==> db.soLines[so].shipped <= db.soLines[so].planned
  }

  /** No run ships more of a sales order line than is planned. */
  lemma {:induction false} NeverOverships(db: Db, steps: seq<Step>)
    requires WithinPlan(db)
    ensures WithinPlan(Run(db, steps))
    decreases |steps|
  {
    if steps != [] {
      OvershipStep(db, steps[0]);
      NeverOverships(Next(db, steps[0]), steps[1..]);
    }
  }

  lemma OvershipStep(db: Db, step: Step)
    requires WithinPlan(db)
    ensures WithinPlan(Next(db, step))
  {
    if step.StepCall? && step.req.Seal? {
      hide LoadOf, Pick;
    } else {
      OthersDoNotBook(db, step, NIL);
    }
  }

  // -------------------------------------------------- loaded against planned

  /** Pieces of a sales order line on all the lines there are. */
  function Loaded(db: Db, so: Id): int { QtyFor(db, db.containers.Keys, so) }

  function Planned(db: Db, so: Id): int { if so in db.soLines then db.soLines[so].planned else 0 }

  predicate Adds(db: Db, step: Step, so: Id) {
    step.StepCall? && step.req.AddLine? && step.req.soLine == so && Try(db, step).Ok?
  }

  /** If the step adds a line, the lines so far leave room for it in the plan. */
  predicate FoundRoom(db: Db, step: Step, so: Id) {
    Adds(db, step, so) ==> Loaded(db, so) + step.req.qty <= Planned(db, so)
  }

  lemma SameTablesLoaded(db: Db, db': Db, so: Id)
    requires LinesOK(db) && db'.lines == db.lines && db.containers.Keys <= db'.containers.Keys
    ensures Loaded(db', so) == Loaded(db, so)
  {
    assert Pick(db'.lines, Sel(db'.containers.Keys, None, Some(so)))
      == Pick(db.lines, Sel(db.containers.Keys, None, Some(so)));
  }

  lemma CallLoaded(db: Db, req: Request, seen: map<Id, SOLine>, so: Id)
    requires Inv(db) && Call(db, req, seen).Ok?
    ensures var db' := Call(db, req, seen).value;
            if req.AddLine? && req.soLine == so then Loaded(db', so) == Loaded(db, so) + req.qty
            else Loaded(db', so) <= Loaded(db, so)
  {
    hide LoadOf, ViewOf, ContainerOK, Fits;
    var db' := Call(db, req, seen).value;
    var sel := Sel(db.containers.Keys, None, Some(so));
    ExecKeepsKeys(db, req, ViewOf(db, req));
    ViewLine(db, req);
    ViewMain(db, req);
    CallBalances(db, req, seen, sel);
    if req.DeleteLine? { assert LineOK(db.lines[req.line]); }
    if req.TransferLine? { TransferWrites(db, req, ViewOf(db, req)); }
  }

  lemma ApproveLoaded(db: Db, plan: Id, actor: Id, confirm: bool, so: Id)
    requires LinesOK(db) && ApprovePlan(db, plan, actor, confirm).Ok?
    ensures Loaded(ApprovePlan(db, plan, actor, confirm).value, so) <= Loaded(db, so)
  {
    hide Promote, Snapshot, Total;
    var rows := Pick(db.lines, Just(db.plans[plan].container));
    var sel := Sel(db.containers.Keys, None, Some(so));
    WipeTakesOut(db.lines, db.plans[plan].container, sel);
    TotalNonNegative(Pick(rows, sel));
  }

  lemma StepLoaded(db: Db, step: Step, so: Id)
    requires Inv(db)
    ensures Adds(db, step, so) ==> Loaded(Next(db, step), so) == Loaded(db, so) + step.req.qty
    ensures !Adds(db, step, so) ==> Loaded(Next(db, step), so) <= Loaded(db, so)
  {
    hide Inv, Call, ApprovePlan, Loaded;
    ReachedLines(db);
    if Try(db, step).Ok? {
      match step
      case StepCall(req, seen) => CallLoaded(db, req, seen, so);
      case StepApprove(plan, actor, confirm) => ApproveLoaded(db, plan, actor, confirm, so);
      case _ => SameTablesLoaded(db, Next(db, step), so);
    }
  }

  lemma StepPlanned(db: Db, step: Step, so: Id)
    ensures Planned(Next(db, step), so) == Planned(db, so)
  {
    if step.StepCall? && step.req.Seal? {
      hide LoadOf, Pick;
    } else {
      OthersDoNotBook(db, step, so);
    }
  }

  /** The state after the first k steps. */
  function At(db: Db, steps: seq<Step>, k: nat): Db
    requires k <= |steps|
  {
    Run(db, steps[..k])
  }

  lemma AtNext(db: Db, steps: seq<Step>, k: nat)
    requires k < |steps|
    ensures At(db, steps, k + 1) == Next(At(db, steps, k), steps[k])
  {
    hide Next, Run;
    assert steps[..k + 1] == steps[..k] + [steps[k]];
    RunAppend(db, steps[..k], steps[k]);
  }

  lemma {:induction false} AtInv(db: Db, steps: seq<Step>, k: nat, so: Id)
    requires Inv(db) && k <= |steps|
    ensures Inv(At(db, steps, k)) && Planned(At(db, steps, k), so) == Planned(db, so)
  {
    if k == 0 {
      assert At(db, steps, 0) == db;
    } else {
      hide Inv, Next, At, Planned;
      AtInv(db, steps, k - 1, so);
      AtNext(db, steps, k - 1);
      NextKeepsInv(At(db, steps, k - 1), steps[k - 1]);
      StepPlanned(At(db, steps, k - 1), steps[k - 1], so);
    }
  }

  lemma RoomStep(db: Db, step: Step, so: Id, plan: int)
    requires Inv(db) && Loaded(db, so) <= plan == Planned(db, so) && FoundRoom(db, step, so)
    ensures Loaded(Next(db, step), so) <= plan
  {
    hide Inv, Next, Planned, Loaded, Adds;
    StepLoaded(db, step, so);
  }

  lemma {:induction false} RoomKeepsPlan(db: Db, steps: seq<Step>, k: nat, so: Id)
    requires Inv(db) && k <= |steps| && Loaded(db, so) <= Planned(db, so)
    requires forall i :: 0 <= i < |steps| ==> FoundRoom(At(db, steps, i), steps[i], so)
    ensures Loaded(At(db, steps, k), so) <= Planned(db, so)
  {
    if k == 0 {
      AtStart(db, steps);
    } else {
      hide Inv, Next, At, Planned, Loaded, FoundRoom;
      RoomKeepsPlan(db, steps, k - 1, so);
      AtNext(db, steps, k - 1);
      AtInv(db, steps, k - 1, so);
      assert FoundRoom(At(db, steps, k - 1), steps[k - 1], so);
      RoomStep(At(db, steps, k - 1), steps[k - 1], so, Planned(db, so));
    }
  }

  lemma AtStart(db: Db, steps: seq<Step>)
    ensures At(db, steps, 0) == db
  {
    hide Next;
    assert steps[..0] == [];
  }

  /** The promise that the lines of an order line stay within its plan, although
      AddLine compares only qty_shipped with it: it is kept after every step of a
      run exactly when each line added found room beside those already loaded. */
  lemma LoadedWithinPlanIff(db: Db, steps: seq<Step>, so: Id)
    requires Start(db) && Planned(db, so) >= 0
    ensures (forall k :: 0 <= k <= |steps| ==> Loaded(At(db, steps, k), so) <= Planned(db, so))
      <==> (forall i :: 0 <= i < |steps| ==> FoundRoom(At(db, steps, i), steps[i], so))
  {
    StartInv(db);
    assert Pick(db.lines, Sel(db.containers.Keys, None, Some(so))) == map[];
    assert Loaded(db, so) == 0;
    hide Inv, At, Planned, Loaded, Adds;
    if forall i :: 0 <= i < |steps| ==> FoundRoom(At(db, steps, i), steps[i], so) {
      forall k | 0 <= k <= |steps|
        ensures Loaded(At(db, steps, k), so) <= Planned(db, so)
      {
        RoomKeepsPlan(db, steps, k, so);
      }
    }
    if forall k :: 0 <= k <= |steps| ==> Loaded(At(db, steps, k), so) <= Planned(db, so) {
      forall i | 0 <= i < |steps|
        ensures FoundRoom(At(db, steps, i), steps[i], so)
      {
        AtInv(db, steps, i, so);
        AtNext(db, steps, i);
        StepLoaded(At(db, steps, i), steps[i], so);
        assert Loaded(At(db, steps, i + 1), so) <= Planned(db, so);
      }
    }
  }
}
