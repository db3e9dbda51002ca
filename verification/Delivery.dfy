/** Container loading: what each transaction of the delivery service checks and
    writes. A transaction sees its View, the rows it has locked and the
    aggregates it has read; Exec says what it then commits. Running Exec on the
    view of the current database is one atomic service call; module Locking runs
    it on views collected step by step under interleaving. */
module Delivery {
  import opened Common
  import opened LineTable

  datatype Status = Open | Loading | Sealed | Shipped | Cancelled

  datatype Container = Container(maxCbm: real, maxKg: real, status: Status,
                                 sealedAt: Option<int>, sealedBy: Option<Id>, cutoff: Option<int>)

  datatype StatusEntry = StatusEntry(container: Id, from: Status, to: Status, actor: Id, at: int)

  datatype Overload = Overload(container: Id, line: Id, cbm: real, maxCbm: real, kg: real, maxKg: real)

  datatype Transfer = Transfer(source: Id, target: Id, line: Id, sku: Id, qty: int, crossPlan: bool)

  datatype HistoryRow = HistoryRow(line: Id, row: Line, plan: Id)

  datatype PlanStatus = Parsed | Validated | Approved | Superseded

  datatype Plan = Plan(container: Id, hash: int, version: int, status: PlanStatus,
                       approvedBy: Option<Id>, supersededBy: Option<Id>)

  /** The sales order line as the sales module reports it; shippable stands for
      the sales order being CONFIRMED, IN_PRODUCTION or PARTIALLY_SHIPPED. */
  datatype SOLine = SOLine(sku: Id, shippable: bool, planned: int, shipped: int)

  datatype Db = Db(overheadPct: real, containers: map<Id, Container>, lines: map<Id, Line>,
                   soLines: map<Id, SOLine>, plans: map<Id, Plan>,
                   statusLog: seq<StatusEntry>, overloads: seq<Overload>,
                   transfers: seq<Transfer>, history: seq<HistoryRow>)

  // ---------------------------------------------------------------- requests

  /** The seven calls that lock containers. Fresh UUIDs, the clock, the caller's
      role and the answers of other modules are part of the request. */
  datatype Request =
    | AddLine(container: Id, newLine: Id, sku: Id, soLine: Id, qty: int, cbm: real, kg: real,
              actor: Id, admin: bool, allowOverload: bool, skuKnown: bool, now: int)
    | DeleteLine(container: Id, line: Id)
    | TransferLine(container: Id, target: Id, line: Id, qty: int, cbm: real, kg: real,
                   newLine: Id, reason: string, actor: Id, planner: bool, now: int)
    | Seal(container: Id, actor: Id, pendingExceptions: nat, componentsComplete: bool, now: int)
    | Reopen(container: Id, reason: string, actor: Id, now: int)
    | Ship(container: Id, actor: Id, now: int)
    | Cancel(container: Id, actor: Id, now: int)

  predicate ReasonBlank(s: string) {
    forall i | 0 <= i < |s| :: s[i] in {' ', '\t', '\n', '\r'}
  }

  /** Checks on the request alone. */
  function CheckRequest(req: Request): Option<Error> {
    match req
    case AddLine(_, _, sku, so, qty, cbm, kg, actor, admin, overload, _, _) =>
      if qty <= 0 || sku == NIL || so == NIL || cbm < 0.0 || kg < 0.0 || actor == NIL then Some(InvalidInput)
      else if overload && !admin then Some(PreconditionFailed)
      else None
    case TransferLine(c, t, line, qty, _, _, _, reason, _, _, _) =>
      if line == NIL || t == NIL || c == t || qty < 0 || ReasonBlank(reason) then Some(InvalidInput) else None
    case Seal(_, _, pending, complete, _) =>
      if pending > 0 || !complete then Some(PreconditionFailed) else None
    case Reopen(_, reason, _, _) => if ReasonBlank(reason) then Some(InvalidInput) else None
    case _ => None
  }

  /** AddLine's unlocked cross-module checks. */
  function CheckOrder(seen: map<Id, SOLine>, req: Request): Option<Error> {
    if !req.AddLine? then None
    else if !req.skuKnown || req.soLine !in seen then Some(NotFound)
    else
      var so := seen[req.soLine];
      if so.sku != req.sku then Some(InvalidInput)
      else if !so.shippable then Some(InvalidTransition)
      else if so.shipped + req.qty > so.planned then Some(InvalidInput)
      else None
  }

  // ---------------------------------------------------------- row-level pieces

  predicate CanHoldLines(s: Status) { s == Open || s == Loading }

  function Overhead(pct: real): real {
    if 1.0 + pct / 100.0 < 1.0 then 1.0 else 1.0 + pct / 100.0
  }

  /** checkCapacity: both totals within the widened maximum. */
  predicate Fits(pct: real, c: Container, cbm: real, kg: real) {
    cbm <= c.maxCbm * Overhead(pct) && kg <= c.maxKg * Overhead(pct)
  }

  /** updateContainerStatus: flip the status, stamp or clear the seal, log it. */
  function SetStatus(db: Db, id: Id, from: Status, to: Status, actor: Id, now: int): Db {
    if id !in db.containers then db
    else
      var c := db.containers[id];
      var c' := match to
        case Sealed => c.(status := to, sealedAt := Some(now), sealedBy := Some(actor))
        case Loading => c.(status := to, sealedAt := None, sealedBy := None)
        case _ => c.(status := to);
      db.(containers := db.containers[id := c'],
          statusLog := db.statusLog + [StatusEntry(id, from, to, actor, now)])
  }

  function FlipIfOpen(db: Db, id: Id, seen: Status, actor: Id, now: int): Db {
    if seen == Open then SetStatus(db, id, Open, Loading, actor, now) else db
  }

  /** RecordShipmentTx, by its contract: bump qty_shipped of every item, or
      refuse them all when one would pass qty_planned. */
  function RecordShipment(soLines: map<Id, SOLine>, items: map<Id, int>): Option<map<Id, SOLine>> {
    if forall so | so in items :: so in soLines && soLines[so].shipped + items[so] <= soLines[so].planned
    then Some(map so | so in soLines :: soLines[so].(shipped := soLines[so].shipped + ItemQty(items, so)))
    else None
  }

  predicate HasApproved(plans: map<Id, Plan>, container: Id) {
    exists p | p in plans :: plans[p].container == container && plans[p].status == Approved
  }

  // ------------------------------------------------------------- transactions

  /** What a transaction has read: the container rows and the line row under
      their locks, then the aggregates. */
  datatype View = View(main: Option<Container>, target: Option<Container>, line: Option<Line>,
                       crossPlan: bool, load: Load, items: map<Id, int>)

  const Blank := View(None, None, None, false, Zero, map[])

  function ReadAggregates(db: Db, req: Request, v: View): View {
    match req
    case AddLine(c, _, _, _, _, _, _, _, _, _, _, _) => v.(load := LoadOf(db.lines, Just(c)))
    case TransferLine(c, t, _, _, _, _, _, _, _, _, _) =>
      v.(load := LoadOf(db.lines, Just(t)), crossPlan := HasApproved(db.plans, c))
    case Seal(c, _, _, _, _) => v.(items := ShipmentItems(Pick(db.lines, Just(c))))
    case _ => v
  }

  function LockedRows(db: Db, req: Request): View {
    var main := Blank.(main := Lookup(db.containers, req.container));
    match req
    case DeleteLine(_, line) => main.(line := Lookup(db.lines, line))
    case TransferLine(_, t, line, _, _, _, _, _, _, _, _) =>
      main.(target := Lookup(db.containers, t), line := Lookup(db.lines, line))
    case _ => main
  }

  function ViewOf(db: Db, req: Request): View {
    ReadAggregates(db, req, LockedRows(db, req))
  }

  function ExecAdd(db: Db, req: Request, v: View): Result<Db>
    requires req.AddLine?
  {
    if v.main.None? then Err(NotFound)
    else if !CanHoldLines(v.main.value.status) then Err(InvalidTransition)
    else
      var c := v.main.value;
      var cbm, kg := v.load.cbm + req.cbm, v.load.kg + req.kg;
      var over := !Fits(db.overheadPct, c, cbm, kg);
      if over && !req.allowOverload then Err(InsufficientStock)
      else if req.newLine in db.lines then Err(DbError)
      else
        var row := Line(req.container, req.sku, req.soLine, req.qty, req.cbm, req.kg);
        var db1 := db.(lines := db.lines[req.newLine := row]);
        var db2 := if over
          then db1.(overloads := db1.overloads + [Overload(req.container, req.newLine, cbm, c.maxCbm, kg, c.maxKg)])
          else db1;
        Ok(FlipIfOpen(db2, req.container, c.status, req.actor, req.now))
  }

  /** An overload-log row refers to the line, so the line cannot be deleted. */
  predicate Logged(db: Db, line: Id) {
    exists i | 0 <= i < |db.overloads| :: db.overloads[i].line == line
  }

  function ExecDelete(db: Db, req: Request, v: View): Result<Db>
    requires req.DeleteLine?
  {
    if v.main.None? then Err(NotFound)
    else if !CanHoldLines(v.main.value.status) then Err(InvalidTransition)
    else if v.line.None? then Err(NotFound)
    else if v.line.value.container != req.container then Err(InvalidInput)
    else if req.line !in db.lines then Err(NotFound)
    else if Logged(db, req.line) then Err(DbError)
    else Ok(db.(lines := db.lines - {req.line}))
  }

  predicate IsFull(req: Request, line: Line)
    requires req.TransferLine?
  {
    req.qty == 0 || req.qty == line.qty
  }

  /** What leaves the source line. */
  function Moved(req: Request, line: Line): Line
    requires req.TransferLine?
  {
    if IsFull(req, line) then line.(container := req.target)
    else line.(container := req.target, qty := req.qty, cbm := req.cbm, kg := req.kg)
  }

  function CheckTransfer(db: Db, req: Request, v: View): Option<Error>
    requires req.TransferLine?
  {
    if v.main.None? || v.target.None? then Some(NotFound)
    else if !CanHoldLines(v.main.value.status) || !CanHoldLines(v.target.value.status) then Some(InvalidTransition)
    else if v.crossPlan && !req.planner then Some(PreconditionFailed)
    else if v.line.None? then Some(NotFound)
    else
      var line := v.line.value;
      if line.container != req.container then Some(InvalidInput)
      else if !IsFull(req, line)
              && (req.qty > line.qty || req.cbm <= 0.0 || req.kg <= 0.0 || req.cbm > line.cbm || req.kg > line.kg)
      then Some(InvalidInput)
      else if !Fits(db.overheadPct, v.target.value, v.load.cbm + Moved(req, line).cbm, v.load.kg + Moved(req, line).kg)
      then Some(InsufficientStock)
      else if req.line !in db.lines then Some(NotFound)
      else if req.newLine in db.lines || (IsFull(req, line) && Logged(db, req.line)) then Some(DbError)
      else None
  }

  function ExecTransfer(db: Db, req: Request, v: View): Result<Db>
    requires req.TransferLine?
  {
    match CheckTransfer(db, req, v)
    case Some(e) => Err(e)
    case None =>
      var line := v.line.value;
      var moved := Moved(req, line);
      var rest := if IsFull(req, line) then db.lines - {req.line}
        else
          var left := line.(qty := line.qty - moved.qty, cbm := line.cbm - moved.cbm, kg := line.kg - moved.kg);
          db.lines[req.line := left];
      var db1 := db.(lines := rest[req.newLine := moved]);
      var db2 := FlipIfOpen(db1, req.target, v.target.value.status, req.actor, req.now);
      Ok(db2.(transfers := db2.transfers
        + [Transfer(req.container, req.target, req.line, line.sku, moved.qty, v.crossPlan)]))
  }

  function ExecSeal(db: Db, req: Request, v: View): Result<Db>
    requires req.Seal?
  {
    if v.main.None? then Err(NotFound)
    else if !CanHoldLines(v.main.value.status) then Err(InvalidTransition)
    else if v.main.value.cutoff.Some? && req.now > v.main.value.cutoff.value then Err(PreconditionFailed)
    else if v.items == map[] then Err(InvalidInput)
    else
      match RecordShipment(db.soLines, v.items)
      case None => Err(InvalidInput)
      case Some(bumped) =>
        Ok(SetStatus(db.(soLines := bumped), req.container, v.main.value.status, Sealed, req.actor, req.now))
  }

  /** Reopen, Ship and Cancel differ in the status they leave and enter. */
  function ExecMove(db: Db, req: Request, v: View, legal: bool, to: Status, actor: Id, now: int): Result<Db> {
    if v.main.None? then Err(NotFound)
    else if !legal then Err(InvalidTransition)
    else Ok(SetStatus(db, req.container, v.main.value.status, to, actor, now))
  }

  function Exec(db: Db, req: Request, v: View): Result<Db> {
    match req
    case AddLine(_, _, _, _, _, _, _, _, _, _, _, _) => ExecAdd(db, req, v)
    case DeleteLine(_, _) => ExecDelete(db, req, v)
    case TransferLine(_, _, _, _, _, _, _, _, _, _, _) => ExecTransfer(db, req, v)
    case Seal(_, _, _, _, _) => ExecSeal(db, req, v)
    case Reopen(_, _, actor, now) =>
      ExecMove(db, req, v, v.main.Some? && v.main.value.status == Sealed, Loading, actor, now)
    case Ship(_, actor, now) =>
      ExecMove(db, req, v, v.main.Some? && v.main.value.status == Sealed, Shipped, actor, now)
    case Cancel(_, actor, now) =>
      ExecMove(db, req, v, v.main.Some? && CanHoldLines(v.main.value.status), Cancelled, actor, now)
  }

  /** A service call whose transaction runs with nobody in between. AddLine reads
      the sales order line before its transaction begins, so what it has seen
      may be out of date. */
  function Call(db: Db, req: Request, seen: map<Id, SOLine>): Result<Db> {
    match CheckRequest(req)
    case Some(e) => Err(e)
    case None =>
      match CheckOrder(seen, req)
      case Some(e) => Err(e)
      case None => Exec(db, req, ViewOf(db, req))
  }

  // ------------------------------------------- containers and loading plans

  datatype ContainerType = GP20 | GP40 | HC40 | UnknownType

  function DefaultCapacity(t: ContainerType): Option<(real, real)> {
    match t
    case GP20 => Some((33.2, 28000.0))
    case GP40 => Some((67.7, 26500.0))
    case HC40 => Some((76.4, 26500.0))
    case UnknownType => None
  }

  function CreateContainer(db: Db, id: Id, t: ContainerType, cbm: real, kg: real,
                           cutoff: Option<int>, createdBy: Id): Result<Db> {
    if DefaultCapacity(t).None? || createdBy == NIL then Err(InvalidInput)
    else if id in db.containers then Err(DbError)
    else
      var d := DefaultCapacity(t).value;
      Ok(db.(containers := db.containers[id :=
        Container(if cbm <= 0.0 then d.0 else cbm, if kg <= 0.0 then d.1 else kg, Open, None, None, cutoff)]))
  }

  predicate Active(p: Plan, container: Id) { p.container == container && p.status != Superseded }

  /** UploadLoadingPlan after parsing; version is the number the query hands out.
      The partial unique index admits one active plan per container and file hash. */
  function UploadPlan(db: Db, plan: Id, container: Id, hash: int, version: int): Result<Db> {
    if container == NIL then Err(InvalidInput)
    else if container !in db.containers then Err(NotFound)
    else if !CanHoldLines(db.containers[container].status) then Err(InvalidTransition)
    else if exists p | p in db.plans :: Active(db.plans[p], container) && db.plans[p].hash == hash
    then Err(InvalidInput)
    else if plan in db.plans then Err(DbError)
    else Ok(db.(plans := db.plans[plan := Plan(container, hash, version, Parsed, None, None)]))
  }

  /** SUPERSEDE every other active plan of the container, promote this one. */
  function Promote(plans: map<Id, Plan>, plan: Id, actor: Id): map<Id, Plan>
    requires plan in plans
  {
    map p | p in plans ::
      if p == plan then plans[p].(status := Approved, approvedBy := Some(actor))
      else if Active(plans[p], plans[plan].container)
      then plans[p].(status := Superseded, supersededBy := Some(plan))
      else plans[p]
  }

  function Snapshot(rows: map<Id, Line>, plan: Id): seq<HistoryRow> {
    if rows == map[] then []
    else var k := Least(rows.Keys); [HistoryRow(k, rows[k], plan)] + Snapshot(rows - {k}, plan)
  }

  /** supersedeLoadingPlanTx: move the live lines to the history, then promote. */
  function Wipe(db: Db, container: Id, plan: Id): Db {
    var rows := Pick(db.lines, Just(container));
    db.(lines := db.lines - rows.Keys, history := db.history + Snapshot(rows, plan))
  }

  predicate MustSupersede(db: Db, plan: Id)
    requires plan in db.plans
  {
    Pick(db.lines, Just(db.plans[plan].container)) != map[] && db.plans[plan].status != Approved
  }

  predicate AnyLogged(db: Db, container: Id) {
    exists id | id in Pick(db.lines, Just(container)) :: Logged(db, id)
  }

  /** ApproveLoadingPlan, as one atomic service call. */
  function ApprovePlan(db: Db, plan: Id, actor: Id, confirm: bool): Result<Db> {
    if plan == NIL || actor == NIL then Err(InvalidInput)
    else if plan !in db.plans || db.plans[plan].container !in db.containers then Err(NotFound)
    else
      var p := db.plans[plan];
      if !CanHoldLines(db.containers[p.container].status) then Err(InvalidTransition)
      else if MustSupersede(db, plan) && !confirm then Err(PreconditionFailed)
      else if p.status == Approved then Ok(db)
      else if p.status == Superseded then Err(InvalidTransition)
      else if MustSupersede(db, plan) && AnyLogged(db, p.container) then Err(DbError)
      else
        var db1 := if MustSupersede(db, plan) then Wipe(db, p.container, plan) else db;
        Ok(db1.(plans := Promote(db1.plans, plan, actor)))
  }

  // --------------------------------------------------------------------- runs

  datatype Step =
    | StepCall(req: Request, seen: map<Id, SOLine>)
    | StepCreate(id: Id, kind: ContainerType, cbm: real, kg: real, cutoff: Option<int>, createdBy: Id)
    | StepUpload(plan: Id, container: Id, hash: int, version: int)
    | StepApprove(plan: Id, actor: Id, confirm: bool)

  function Try(db: Db, step: Step): Result<Db> {
    match step
    case StepCall(req, seen) => Call(db, req, seen)
    case StepCreate(id, kind, cbm, kg, cutoff, creator) => CreateContainer(db, id, kind, cbm, kg, cutoff, creator)
    case StepUpload(plan, container, hash, version) => UploadPlan(db, plan, container, hash, version)
    case StepApprove(plan, actor, confirm) => ApprovePlan(db, plan, actor, confirm)
  }

  /** A refused call changes nothing. */
  function Next(db: Db, step: Step): Db {
    if Try(db, step).Ok? then Try(db, step).value else db
  }

  function Run(db: Db, steps: seq<Step>): Db
    decreases |steps|
  {
    if steps == [] then db else Run(Next(db, steps[0]), steps[1..])
  }
}
