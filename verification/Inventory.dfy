/** The cutting ledger: board sheets, remnants and cutting records, the two
    halves of RecordCut (a validation on unlocked reads, a commit under a row
    lock), and the step system in which any number of clients run them. */
module Inventory {
  import opened Common
  import opened Domain

  datatype SheetStatus = PendingQC | InStock | Issued | Rejected

  datatype RemnantStatus = Available | Allocated | Consumed | Wasted | Expired

  /** Supplier code, lot batch, grain pattern and quality grade. */
  datatype Material = Material(supplier: Option<string>, lotBatch: Option<string>,
                               grain: Option<string>, grade: Option<string>)

  datatype Sheet = Sheet(lot: Id, dim: Dimension, cost: int, status: SheetStatus,
                         issuedTo: Option<Id>, material: Material)

  datatype Remnant = Remnant(parentBoard: Id, parentRemnant: Option<Id>, dim: Dimension,
                             box: Dimension, shape: string, material: Material,
                             status: RemnantStatus, allocatedTo: Option<Id>,
                             allocatedAt: Option<int>, createdAt: int)

  datatype Source = FromSheet(sheet: Id) | FromRemnant(remnant: Id)

  datatype Cut = Cut(id: Id, source: Source, workOrder: Id, sku: Id, used: Dimension,
                     produced: Option<Id>, createdAt: int)

  datatype Ledger = Ledger(sheets: map<Id, Sheet>, remnants: map<Id, Remnant>, cuts: seq<Cut>)

  // ---------------------------------------------------------------- RecordCut

  datatype CutInput = CutInput(sheet: Option<Id>, remnant: Option<Id>, workOrder: Id, sku: Id,
                               used: Dimension, leftover: Option<Dimension>, isWaste: bool,
                               shape: string, boxLength: Option<int>, boxWidth: Option<int>)

  /** What RecordCut learns from elsewhere: the overflow gate, the minimum
      remnant policy of the root sheet, two fresh UUIDs and the clock. */
  datatype CutEnv = CutEnv(overflowRed: bool, minLength: int, minWidth: int,
                           cutId: Id, remnantId: Id, now: int)

  /** The validated, ready-to-persist write. */
  datatype CutOp = CutOp(record: Cut, newRemnant: Option<Remnant>)

  /** The source row as the unlocked read saw it. */
  datatype SourceRow = SourceRow(source: Source, dim: Dimension, board: Id,
                                 parentRemnant: Option<Id>, material: Material)

  function CheckInput(input: CutInput): Option<Error> {
    if input.sheet.None? == input.remnant.None? then Some(InvalidInput)
    else if !input.used.Valid() then Some(InvalidInput)
    else if input.leftover.Some? && !input.leftover.value.Valid() then Some(InvalidInput)
    else if input.leftover.Some? == input.isWaste then Some(InvalidInput)
    else if input.shape != "" && input.shape != "rectangle" && input.shape != "irregular"
    then Some(InvalidInput)
    else None
  }

  function ReadSource(l: Ledger, input: CutInput, overflowRed: bool): Result<SourceRow> {
    if input.sheet.Some? then
      if overflowRed then Err(PreconditionFailed)
      else
        match Lookup(l.sheets, input.sheet.value)
        case None => Err(NotFound)
        case Some(s) =>
          if s.status != InStock then Err(InvalidInput)
          else Ok(SourceRow(FromSheet(input.sheet.value), s.dim, input.sheet.value, None, s.material))
    else if input.remnant.Some? then
      match Lookup(l.remnants, input.remnant.value)
      case None => Err(NotFound)
      case Some(r) =>
        if r.status != Available && r.status != Allocated then Err(InvalidInput)
        else Ok(SourceRow(FromRemnant(input.remnant.value), r.dim, r.parentBoard, input.remnant, r.material))
    else Err(InvalidInput)
  }

  function CheckAreas(used: Dimension, leftover: Option<Dimension>, source: Dimension): Option<Error> {
    if leftover.Some? && !leftover.value.FitsInside(source) then Some(InvalidInput)
    else if used.Area() + (if leftover.Some? then leftover.value.Area() else 0) > source.Area()
    then Some(AreaConservation)
    else None
  }

  function CheckBox(input: CutInput): Option<Error> {
    if input.leftover.None? then None
    else if input.boxLength.None? != input.boxWidth.None? then Some(InvalidInput)
    else if input.boxLength.Some? && input.boxWidth.Some?
            && (input.boxLength.value > input.leftover.value.length
                || input.boxWidth.value > input.leftover.value.width)
    then Some(InvalidInput)
    else None
  }

  /** The minimum-remnant policy: a leftover below an enabled threshold is dropped. */
  predicate DroppedByPolicy(dim: Dimension, env: CutEnv) {
    (env.minLength > 0 && dim.length < env.minLength)
    || (env.minWidth > 0 && dim.width < env.minWidth)
  }

  function LeftoverRow(input: CutInput, src: SourceRow, now: int): Remnant
    requires input.leftover.Some?
  {
    var dim := input.leftover.value;
    var box := Dimension(if input.boxLength.Some? then input.boxLength.value else dim.length,
                         if input.boxWidth.Some? then input.boxWidth.value else dim.width);
    Remnant(src.board, src.parentRemnant, dim, box,
            if input.shape == "" then "rectangle" else input.shape,
            src.material, Available, None, None, now)
  }

  /** Everything RecordCut does before its transaction. */
  function PrepareCut(l: Ledger, input: CutInput, env: CutEnv): Result<CutOp> {
    match CheckInput(input)
    case Some(e) => Err(e)
    case None =>
      match ReadSource(l, input, env.overflowRed)
      case Err(e) => Err(e)
      case Ok(src) =>
        match CheckAreas(input.used, input.leftover, src.dim)
        case Some(e) => Err(e)
        case None =>
          match CheckBox(input)
          case Some(e) => Err(e)
          case None =>
            var record := Cut(env.cutId, src.source, input.workOrder, input.sku, input.used, None, env.now);
            if input.leftover.None? || DroppedByPolicy(input.leftover.value, env)
            then Ok(CutOp(record, None))
            else Ok(CutOp(record.(produced := Some(env.remnantId)),
                          Some(LeftoverRow(input, src, env.now))))
  }

  /** Marks the source of a cut as used up, re-checking its status under the lock. */
  function SpendSource(l: Ledger, source: Source, workOrder: Id): Result<Ledger> {
    match source
    case FromSheet(s) =>
      if s !in l.sheets then Err(NotFound)
      else if l.sheets[s].status != InStock then Err(PreconditionFailed)
      else Ok(l.(sheets := l.sheets[s := l.sheets[s].(status := Issued, issuedTo := Some(workOrder))]))
    case FromRemnant(r) =>
      if r !in l.remnants then Err(NotFound)
      else if l.remnants[r].status != Available && l.remnants[r].status != Allocated
      then Err(PreconditionFailed)
      else Ok(l.(remnants := l.remnants[r := l.remnants[r].(status := Consumed, allocatedTo := None)]))
  }

  predicate CutIdTaken(l: Ledger, id: Id) {
    exists i | 0 <= i < |l.cuts| :: l.cuts[i].id == id
  }

  /** recordCutAtomically as one transaction. */
  function CommitCut(l: Ledger, op: CutOp): Result<Ledger> {
    match SpendSource(l, op.record.source, op.record.workOrder)
    case Err(e) => Err(e)
    case Ok(spent) =>
      if CutIdTaken(l, op.record.id) then Err(DbError)
      else
        var cut := spent.(cuts := spent.cuts + [op.record]);
        if op.newRemnant.None? || op.record.produced.None? then Ok(cut)
        else if op.record.produced.value in cut.remnants then Err(DbError)
        else Ok(cut.(remnants := cut.remnants[op.record.produced.value := op.newRemnant.value]))
  }

  /** The same transaction when produced_remnant_id is checked against the
      remnants as the record is inserted, before the leftover is. */
  function CommitLinked(l: Ledger, op: CutOp): Result<Ledger> {
    match SpendSource(l, op.record.source, op.record.workOrder)
    case Err(e) => Err(e)
    case Ok(spent) =>
      if CutIdTaken(l, op.record.id) then Err(DbError)
      else if op.record.produced.Some? && op.record.produced.value !in spent.remnants then Err(DbError)
      else
        var cut := spent.(cuts := spent.cuts + [op.record]);
        if op.newRemnant.None? || op.record.produced.None? then Ok(cut) else Err(DbError)
  }

  function CommitWith(l: Ledger, op: CutOp, linkChecked: bool): Result<Ledger> {
    if linkChecked then CommitLinked(l, op) else CommitCut(l, op)
  }

  // ------------------------------------------------- the other ledger updates

  datatype ReceiveInput = ReceiveInput(quantity: int, dim: Dimension, cost: int, supplier: string)

  function NewSheet(input: ReceiveInput, lot: Id): Sheet {
    Sheet(lot, input.dim, input.cost, PendingQC, None, Material(None, Some(input.supplier), None, None))
  }

  predicate NoDuplicates(ids: seq<Id>) {
    forall i, j | 0 <= i < j < |ids| :: ids[i] != ids[j]
  }

  /** insertSheets sends its rows in one batch, which the driver runs as one
      implicit transaction: a taken primary key refuses them all. */
  function InsertSheets(l: Ledger, ids: seq<Id>, row: Sheet): Result<Ledger> {
    if !NoDuplicates(ids) || (exists i | 0 <= i < |ids| :: ids[i] in l.sheets) then Err(DbError)
    else Ok(l.(sheets := l.sheets + map id | id in ids :: row))
  }

  function ReceiveStock(l: Ledger, input: ReceiveInput, lot: Id, ids: seq<Id>): Result<Ledger> {
    if input.quantity <= 0 || !input.dim.Valid() || |ids| != input.quantity then Err(InvalidInput)
    else InsertSheets(l, ids, NewSheet(input, lot))
  }

  function QCPassLot(l: Ledger, lot: Id): Ledger {
    l.(sheets := map s | s in l.sheets ::
      if l.sheets[s].lot == lot && l.sheets[s].status == PendingQC
      then l.sheets[s].(status := InStock) else l.sheets[s])
  }

  /** Rejects the chosen pending sheets of a lot; chosen stands for the rows the
      ORDER BY id LIMIT query locks. */
  function RejectLot(l: Ledger, lot: Id, chosen: set<Id>): Result<Ledger> {
    if exists s | s in chosen :: s !in l.sheets || l.sheets[s].lot != lot || l.sheets[s].status != PendingQC
    then Err(PreconditionFailed)
    else Ok(l.(sheets := map s | s in l.sheets ::
      if s in chosen then l.sheets[s].(status := Rejected) else l.sheets[s]))
  }

  function PreAssign(l: Ledger, s: Id, workOrder: Id): Result<Ledger> {
    if s !in l.sheets then Err(NotFound)
    else if l.sheets[s].status != InStock then Err(PreconditionFailed)
    else Ok(l.(sheets := l.sheets[s := l.sheets[s].(issuedTo := Some(workOrder))]))
  }

  function Allocate(l: Ledger, r: Id, workOrder: Id, now: int): Result<Ledger> {
    if r !in l.remnants then Err(NotFound)
    else if l.remnants[r].status != Available then Err(PreconditionFailed)
    else Ok(l.(remnants := l.remnants[r := l.remnants[r].(
      status := Allocated, allocatedTo := Some(workOrder), allocatedAt := Some(now))]))
  }

  function MarkWaste(l: Ledger, r: Id): Result<Ledger> {
    if r !in l.remnants then Err(NotFound)
    else if l.remnants[r].status != Available && l.remnants[r].status != Allocated
    then Err(PreconditionFailed)
    else Ok(l.(remnants := l.remnants[r := l.remnants[r].(status := Wasted, allocatedTo := None)]))
  }

  predicate AllocationExpired(r: Remnant, before: int) {
    r.status == Allocated && r.allocatedAt.Some? && r.allocatedAt.value < before
  }

  function ReleaseExpired(l: Ledger, before: int): Ledger {
    l.(remnants := map r | r in l.remnants ::
      if AllocationExpired(l.remnants[r], before)
      then l.remnants[r].(status := Available, allocatedTo := None, allocatedAt := None)
      else l.remnants[r])
  }

  function ExpireStale(l: Ledger, cutoff: int): Ledger {
    l.(remnants := map r | r in l.remnants ::
      if l.remnants[r].status == Available && l.remnants[r].createdAt < cutoff
      then l.remnants[r].(status := Expired) else l.remnants[r])
  }

  /** One adjustment of a posted cycle count: an UPDATE by id of the status,
      without regard to the current one. */
  datatype Count = CountSheet(sheet: Id, sheetStatus: SheetStatus)
                 | CountRemnant(remnant: Id, remnantStatus: RemnantStatus)

  function ApplyCount(l: Ledger, c: Count): Ledger {
    match c
    case CountSheet(s, st) =>
      if s in l.sheets then l.(sheets := l.sheets[s := l.sheets[s].(status := st)]) else l
    case CountRemnant(r, st) =>
      if r in l.remnants then l.(remnants := l.remnants[r := l.remnants[r].(status := st)]) else l
  }

  // -------------------------------------------------------- the step system

  /** The ledger and, per client, a cut it has validated but not yet committed. */
  datatype System = System(ledger: Ledger, pending: map<Id, CutOp>)

  datatype Step =
    | StepReceive(receive: ReceiveInput, lot: Id, ids: seq<Id>)
    | StepQCPass(lot: Id)
    | StepReject(lot: Id, chosen: set<Id>)
    | StepPreAssign(sheet: Id, workOrder: Id)
    | StepBeginCut(client: Id, cut: CutInput, env: CutEnv)
    | StepCommitCut(client: Id)
    | StepDropCut(client: Id)
    | StepAllocate(remnant: Id, workOrder: Id, now: int)
    | StepWaste(remnant: Id)
    | StepRelease(before: int)
    | StepExpire(cutoff: int)
    | StepCount(count: Count)

  const Empty := System(Ledger(map[], map[], []), map[])

  /** A failing transaction rolls back. */
  function OrSame(l: Ledger, r: Result<Ledger>): Ledger {
    if r.Ok? then r.value else l
  }

  function LedgerStep(l: Ledger, step: Step): Ledger {
    match step
    case StepReceive(input, lot, ids) => OrSame(l, ReceiveStock(l, input, lot, ids))
    case StepQCPass(lot) => QCPassLot(l, lot)
    case StepReject(lot, chosen) => OrSame(l, RejectLot(l, lot, chosen))
    case StepPreAssign(s, wo) => OrSame(l, PreAssign(l, s, wo))
    case StepAllocate(r, wo, now) => OrSame(l, Allocate(l, r, wo, now))
    case StepWaste(r) => OrSame(l, MarkWaste(l, r))
    case StepRelease(before) => ReleaseExpired(l, before)
    case StepExpire(cutoff) => ExpireStale(l, cutoff)
    case StepCount(c) => ApplyCount(l, c)
    case _ => l
  }

  function Next(s: System, step: Step): System {
    match step
    case StepBeginCut(client, input, env) =>
      var r := PrepareCut(s.ledger, input, env);
      if r.Ok? then s.(pending := s.pending[client := r.value]) else s
    case StepCommitCut(client) =>
      if client in s.pending
      then System(OrSame(s.ledger, CommitCut(s.ledger, s.pending[client])), s.pending - {client})
      else s
    case StepDropCut(client) => s.(pending := s.pending - {client})
    case _ => s.(ledger := LedgerStep(s.ledger, step))
  }

  function Run(s: System, steps: seq<Step>): System
    decreases |steps|
  {
    if steps == [] then s else Run(Next(s, steps[0]), steps[1..])
  }
}
