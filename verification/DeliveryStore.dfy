/** The delivery service on its tables: each call locks, checks and writes row by
    row, rolls back on an error, and amounts to the atomic call of module
    Delivery. */
module DeliveryStore {
  import opened Common
  import opened LineTable
  import opened Delivery
  import opened Loading
  import opened Locking

  function Failure<T>(r: Result<T>): Option<Error> {
    match r
    case Ok(_) => None
    case Err(e) => Some(e)
  }

  /** A transaction that failed has changed nothing; one that did not has the
      given outcome. */
  predicate Outcome(db: Db, r: Result<Db>, err: Option<Error>, db': Db) {
    err == Failure(r) && db' == if r.Ok? then r.value else db
  }

  /** The near-capacity warning: above nine tenths of a maximum. */
  predicate NearCapacity(c: Container, load: Load) {
    (c.maxCbm > 0.0 && load.cbm > c.maxCbm * 0.9) || (c.maxKg > 0.0 && load.kg > c.maxKg * 0.9)
  }

  lemma ViewOfCall(db: Db, req: Request)
    ensures var v := ViewOf(db, req);
            && v.main == Lookup(db.containers, req.container)
            && (req.AddLine? ==> v.load == LoadOf(db.lines, Just(req.container)))
            && (req.TransferLine? ==>
              && v.target == Lookup(db.containers, req.target) && v.line == Lookup(db.lines, req.line)
              && v.crossPlan == HasApproved(db.plans, req.container)
              && v.load == LoadOf(db.lines, Just(req.target)))
  {
    hide LoadOf, Pick, HasApproved;
  }

  lemma LoadAfterAdd(db: Db, req: Request, v: View)
    requires req.AddLine? && ExecAdd(db, req, v).Ok? && v.main == Lookup(db.containers, req.container)
    ensures var db' := ExecAdd(db, req, v).value;
            && LoadIn(db', req.container)
               == LoadIn(db, req.container).Plus(Load(req.qty, req.cbm, req.kg))
            && req.container in db.containers && req.container in db'.containers
            && db'.containers[req.container].maxCbm == db.containers[req.container].maxCbm
            && db'.containers[req.container].maxKg == db.containers[req.container].maxKg
  {
    hide LoadOf, Pick, Fits;
    AddedLoad(db, req, v, Just(req.container));
  }

  class Store {
    const overheadPct: real
    var containers: map<Id, Container>
    var lines: map<Id, Line>
    var soLines: map<Id, SOLine>
    var plans: map<Id, Plan>
    var statusLog: seq<StatusEntry>
    var overloads: seq<Overload>
    var transfers: seq<Transfer>
    var history: seq<HistoryRow>
    ghost var asked: seq<Res>  // the row locks of the last transaction, in order

    function State(): Db
      reads this
    {
      Db(overheadPct, containers, lines, soLines, plans, statusLog, overloads, transfers, history)
    }

    constructor (overheadPct: real, soLines: map<Id, SOLine>)
      ensures Start(State())
      ensures this.overheadPct == overheadPct && this.soLines == soLines
    {
      this.overheadPct := overheadPct;
      this.soLines := soLines;
      containers, lines, plans := map[], map[], map[];
      statusLog, overloads, transfers, history := [], [], [], [];
      asked := [];
    }

    // ------------------------------------------------------------ row primitives

    method LockContainer(id: Id) returns (c: Result<Container>)
      modifies this`asked
      ensures c == if id in containers then Ok(containers[id]) else Err(NotFound)
      ensures asked == old(asked) + [C(id)]
    {
      asked := asked + [C(id)];
      if id !in containers { return Err(NotFound); }
      return Ok(containers[id]);
    }

    method LockLine(id: Id) returns (l: Result<Line>)
      modifies this`asked
      ensures l == if id in lines then Ok(lines[id]) else Err(NotFound)
      ensures asked == old(asked) + [L(id)]
    {
      asked := asked + [L(id)];
      if id !in lines { return Err(NotFound); }
      return Ok(lines[id]);
    }

    method InsertLine(id: Id, line: Line) returns (err: Option<Error>)
      modifies this`lines
      ensures err == if id in old(lines) then Some(DbError) else None
      ensures lines == if id in old(lines) then old(lines) else old(lines)[id := line]
    {
      if id in lines { return Some(DbError); }
      lines := lines[id := line];
      return None;
    }

    method RemoveLine(id: Id) returns (err: Option<Error>)
      modifies this`lines
      ensures err == if id !in old(lines) then Some(NotFound)
        else if Logged(old(State()), id) then Some(DbError) else None
      ensures lines == if err.None? then old(lines) - {id} else old(lines)
    {
      if id !in lines { return Some(NotFound); }
      if exists i | 0 <= i < |overloads| :: overloads[i].line == id { return Some(DbError); }
      lines := lines - {id};
      return None;
    }

    method UpdateLineQty(id: Id, qty: int, cbm: real, kg: real) returns (err: Option<Error>)
      modifies this`lines
      ensures err == if qty <= 0 then Some(InvalidInput) else if id in old(lines) then None else Some(NotFound)
      ensures lines == if err.Some? then old(lines)
        else old(lines)[id := old(lines)[id].(qty := qty, cbm := cbm, kg := kg)]
    {
      if qty <= 0 { return Some(InvalidInput); }
      if id !in lines { return Some(NotFound); }
      lines := lines[id := lines[id].(qty := qty, cbm := cbm, kg := kg)];
      return None;
    }

    /** Flips the status, stamps or clears the seal, writes the log row. */
    method UpdateContainerStatus(id: Id, from: Status, to: Status, actor: Id, now: int)
      requires id in containers
      modifies this`containers, this`statusLog
      ensures State() == SetStatus(old(State()), id, from, to, actor, now)
    {
      var c := containers[id];
      match to {
        case Sealed => containers := containers[id := c.(status := to, sealedAt := Some(now), sealedBy := Some(actor))];
        case Loading => containers := containers[id := c.(status := to, sealedAt := None, sealedBy := None)];
        case _ => containers := containers[id := c.(status := to)];
      }
      statusLog := statusLog + [StatusEntry(id, from, to, actor, now)];
    }

    method FlipToLoadingIfOpen(id: Id, seen: Status, actor: Id, now: int)
      requires id in containers
      modifies this`containers, this`statusLog
      ensures State() == FlipIfOpen(old(State()), id, seen, actor, now)
    {
      if seen == Open { UpdateContainerStatus(id, Open, Loading, actor, now); }
    }

    /** The sales module's part of Seal, by its contract. */
    method RecordShipmentTx(items: map<Id, int>) returns (err: Option<Error>)
      modifies this`soLines
      ensures err.None? <==> RecordShipment(old(soLines), items).Some?
      ensures err.Some? ==> err == Some(InvalidInput)
      ensures Some(soLines) == if err.None? then RecordShipment(old(soLines), items) else Some(old(soLines))
    {
      match RecordShipment(soLines, items) {
        case None => return Some(InvalidInput);
        case Some(bumped) =>
          soLines := bumped;
          return None;
      }
    }

    // ------------------------------------------------------------------ services

    /** Missing capacities are those of the container type. */
    method CreateContainer(id: Id, kind: ContainerType, cbm: real, kg: real, cutoff: Option<int>, createdBy: Id)
      returns (err: Option<Error>)
      modifies this`containers
      ensures err == Failure(Delivery.CreateContainer(old(State()), id, kind, cbm, kg, cutoff, createdBy))
      ensures State() == Next(old(State()), StepCreate(id, kind, cbm, kg, cutoff, createdBy))
    {
      var maxCbm, maxKg := cbm, kg;
      match kind {
        case UnknownType => return Some(InvalidInput);
        case GP20 =>
          if maxCbm <= 0.0 { maxCbm := 33.2; }
          if maxKg <= 0.0 { maxKg := 28000.0; }
        case GP40 =>
          if maxCbm <= 0.0 { maxCbm := 67.7; }
          if maxKg <= 0.0 { maxKg := 26500.0; }
        case HC40 =>
          if maxCbm <= 0.0 { maxCbm := 76.4; }
          if maxKg <= 0.0 { maxKg := 26500.0; }
      }
      if createdBy == NIL { return Some(InvalidInput); }
      if id in containers { return Some(DbError); }
      containers := containers[id := Container(maxCbm, maxKg, Open, None, None, cutoff)];
      return None;
    }

    method UploadLoadingPlan(plan: Id, container: Id, hash: int, version: int) returns (err: Option<Error>)
      modifies this`plans
      ensures err == Failure(UploadPlan(old(State()), plan, container, hash, version))
      ensures State() == Next(old(State()), StepUpload(plan, container, hash, version))
    {
      if container == NIL { return Some(InvalidInput); }
      if container !in containers { return Some(NotFound); }
      var status := containers[container].status;
      if status == Sealed || status == Shipped || status == Cancelled { return Some(InvalidTransition); }
      if exists p | p in plans ::
           plans[p].container == container && plans[p].status != Superseded && plans[p].hash == hash {
        return Some(InvalidInput);
      }
      if plan in plans { return Some(DbError); }
      plans := plans[plan := Plan(container, hash, version, Parsed, None, None)];
      return None;
    }

    method AddLine(req: Request) returns (err: Option<Error>, near: bool)
      requires req.AddLine?
      modifies this
      ensures err == Failure(Call(old(State()), req, old(soLines)))
      ensures State() == Next(old(State()), StepCall(req, old(soLines)))
      ensures asked <= LockPlan(req, true)
      ensures err.None? ==>
        && req.container in containers
        && var c, load := containers[req.container], LoadIn(State(), req.container);
        near == ((c.maxCbm > 0.0 && 10.0 * load.cbm > 9.0 * c.maxCbm)
                 || (c.maxKg > 0.0 && 10.0 * load.kg > 9.0 * c.maxKg))
    {
      hide ExecAdd, ViewOf, CheckRequest, CheckOrder, LoadOf;
      asked, near := [], false;
      err := CheckRequest(req);
      if err.Some? { return; }
      err := CheckOrder(soLines, req);
      if err.Some? { return; }
      err, near := AddLineTx(req);
    }

    method AddLineTx(req: Request) returns (err: Option<Error>, near: bool)
      requires req.AddLine? && asked == []
      modifies this`lines, this`overloads, this`containers, this`statusLog, this`asked
      ensures Outcome(old(State()), ExecAdd(old(State()), req, ViewOf(old(State()), req)), err, State())
      ensures asked == [C(req.container)]
      ensures err.None? ==>
        && req.container in containers
        && var c, load := containers[req.container], LoadIn(State(), req.container);
        near == ((c.maxCbm > 0.0 && 10.0 * load.cbm > 9.0 * c.maxCbm)
                 || (c.maxKg > 0.0 && 10.0 * load.kg > 9.0 * c.maxKg))
    {
      hide ViewOf, LoadOf, Fits, SetStatus, FlipIfOpen, Pick;
      ghost var db := State();
      ghost var v := ViewOf(db, req);
      ViewOfCall(db, req);
      near := false;
      var locked := LockContainer(req.container);
      if locked.Err? { return Some(locked.error), near; }
      var c := locked.value;
      if !CanHoldLines(c.status) { return Some(InvalidTransition), near; }
      var load := LoadOf(lines, Just(req.container));
      var cbm, kg := load.cbm + req.cbm, load.kg + req.kg;
      var over := !Fits(overheadPct, c, cbm, kg);
      if over && !req.allowOverload { return Some(InsufficientStock), near; }
      near := NearCapacity(c, Load(load.qty + req.qty, cbm, kg));
      err := InsertLine(req.newLine, Line(req.container, req.sku, req.soLine, req.qty, req.cbm, req.kg));
      if err.Some? { return; }
      if over {
        overloads := overloads + [Overload(req.container, req.newLine, cbm, c.maxCbm, kg, c.maxKg)];
      }
      FlipToLoadingIfOpen(req.container, c.status, req.actor, req.now);
      LoadAfterAdd(db, req, v);
    }

    method DeleteLine(req: Request) returns (err: Option<Error>)
      requires req.DeleteLine?
      modifies this
      ensures err == Failure(Call(old(State()), req, old(soLines)))
      ensures State() == Next(old(State()), StepCall(req, old(soLines)))
      ensures asked <= LockPlan(req, true)
    {
      asked := [];
      var locked := LockContainer(req.container);
      if locked.Err? { return Some(locked.error); }
      if !CanHoldLines(locked.value.status) { return Some(InvalidTransition); }
      var row := LockLine(req.line);
      if row.Err? { return Some(row.error); }
      if row.value.container != req.container { return Some(InvalidInput); }
      err := RemoveLine(req.line);
    }

    /** The writes of a transfer: a full move inserts the copy and deletes the
        line, a partial one shrinks the line and inserts what left it. */
    method MoveLine(req: Request, line: Line, target: Container, load: Load) returns (err: Option<Error>)
      requires req.TransferLine? && req.qty >= 0 && Lookup(lines, req.line) == Some(line)
      modifies this`lines
      ensures err == if !IsFull(req, line)
          && (req.qty > line.qty || req.cbm <= 0.0 || req.kg <= 0.0 || req.cbm > line.cbm || req.kg > line.kg)
        then Some(InvalidInput)
        else if !Fits(overheadPct, target, load.cbm + Moved(req, line).cbm, load.kg + Moved(req, line).kg)
        then Some(InsufficientStock)
        else if req.newLine in old(lines) || (IsFull(req, line) && Logged(old(State()), req.line)) then Some(DbError)
        else None
      ensures err.None? ==> lines == LinesAfterTransfer(old(lines), req)
    {
      if req.qty == 0 || req.qty == line.qty {
        if !Fits(overheadPct, target, load.cbm + line.cbm, load.kg + line.kg) { return Some(InsufficientStock); }
        err := InsertLine(req.newLine, line.(container := req.target));
        if err.Some? { return; }
        err := RemoveLine(req.line);
      } else {
        if req.qty > line.qty { return Some(InvalidInput); }
        if req.cbm <= 0.0 || req.kg <= 0.0 { return Some(InvalidInput); }
        if req.cbm > line.cbm || req.kg > line.kg { return Some(InvalidInput); }
        if !Fits(overheadPct, target, load.cbm + req.cbm, load.kg + req.kg) { return Some(InsufficientStock); }
        err := UpdateLineQty(req.line, line.qty - req.qty, line.cbm - req.cbm, line.kg - req.kg);
        err := InsertLine(req.newLine, line.(container := req.target, qty := req.qty, cbm := req.cbm, kg := req.kg));
      }
    }

    method TransferLine(req: Request) returns (err: Option<Error>)
      requires req.TransferLine?
      modifies this
      ensures err == Failure(Call(old(State()), req, old(soLines)))
      ensures State() == Next(old(State()), StepCall(req, old(soLines)))
      ensures asked <= LockPlan(req, true)
    {
      hide ExecTransfer, ViewOf;
      asked := [];
      err := CheckRequest(req);
      if err.Some? { return; }
      err := TransferTx(req);
    }

    /** Locks two containers in UUID order and resolves them back. */
    method LockPair(source: Id, target: Id) returns (pair: Result<(Container, Container)>)
      requires source != target
      modifies this`asked
      ensures pair == if source in containers && target in containers
        then Ok((containers[source], containers[target])) else Err(NotFound)
      ensures var plan := if target < source then [C(target), C(source)] else [C(source), C(target)];
              asked <= old(asked) + plan && (pair.Ok? ==> asked == old(asked) + plan)
    {
      var first, second := if source < target then source else target, if source < target then target else source;
      var a := LockContainer(first);
      if a.Err? { return Err(a.error); }
      var b := LockContainer(second);
      if b.Err? { return Err(b.error); }
      return Ok(if first == source then (a.value, b.value) else (b.value, a.value));
    }

    /** The two containers first, the line last. */
    method TransferTx(req: Request) returns (err: Option<Error>)
      requires req.TransferLine? && CheckRequest(req).None? && asked == []
      modifies this`lines, this`transfers, this`containers, this`statusLog, this`asked
      ensures Outcome(old(State()), ExecTransfer(old(State()), req, ViewOf(old(State()), req)), err, State())
      ensures asked <= LockPlan(req, true)
    {
      hide ViewOf, LoadOf, Fits, Moved, HasApproved, ReasonBlank, FlipIfOpen, IsFull, Pick;
      ghost var db := State();
      ghost var v := ViewOf(db, req);
      ViewOfCall(db, req);
      var pair := LockPair(req.container, req.target);
      if pair.Err? { return Some(pair.error); }
      var (source, target) := pair.value;
      if !CanHoldLines(source.status) || !CanHoldLines(target.status) { return Some(InvalidTransition); }
      var crossPlan := HasApproved(plans, req.container);
      if crossPlan && !req.planner { return Some(PreconditionFailed); }
      var row := LockLine(req.line);
      if row.Err? { return Some(row.error); }
      if row.value.container != req.container { return Some(InvalidInput); }
      err := MoveUnderLocks(req, row.value, target, crossPlan, v);
    }

    method MoveUnderLocks(req: Request, line: Line, target: Container, crossPlan: bool, ghost v: View)
      returns (err: Option<Error>)
      requires req.TransferLine? && req.qty >= 0 && line.container == req.container
      requires req.line in lines && lines[req.line] == line && req.target in containers
      requires v.line == Some(line) && v.target == Some(target) && v.crossPlan == crossPlan
      requires v.main.Some? && v.load == LoadOf(lines, Just(req.target))
      requires CanHoldLines(v.main.value.status) && CanHoldLines(target.status) && (crossPlan ==> req.planner)
      modifies this`lines, this`transfers, this`containers, this`statusLog
      ensures Outcome(old(State()), ExecTransfer(old(State()), req, v), err, State())
    {
      ghost var db := State();
      hide LoadOf, Fits;
      var before := lines;
      err := MoveLine(req, line, target, LoadOf(lines, Just(req.target)));
      assert err == CheckTransfer(db, req, v);
      if err.Some? {
        lines := before;  // rollback
        return;
      }
      FlipToLoadingIfOpen(req.target, target.status, req.actor, req.now);
      transfers := transfers
        + [Transfer(req.container, req.target, req.line, line.sku, Moved(req, line).qty, crossPlan)];
    }

    method Seal(req: Request) returns (err: Option<Error>)
      requires req.Seal?
      modifies this
      ensures err == Failure(Call(old(State()), req, old(soLines)))
      ensures State() == Next(old(State()), StepCall(req, old(soLines)))
      ensures asked <= LockPlan(req, true)
    {
      hide ExecSeal, ViewOf;
      asked := [];
      if req.pendingExceptions > 0 { return Some(PreconditionFailed); }
      if !req.componentsComplete { return Some(PreconditionFailed); }
      err := SealTx(req);
    }

    method SealTx(req: Request) returns (err: Option<Error>)
      requires req.Seal? && asked == []
      modifies this`soLines, this`containers, this`statusLog, this`asked
      ensures Outcome(old(State()), ExecSeal(old(State()), req, ViewOf(old(State()), req)), err, State())
      ensures asked == [C(req.container)]
    {
      ghost var v := ViewOf(State(), req);
      var locked := LockContainer(req.container);
      if locked.Err? { return Some(locked.error); }
      var c := locked.value;
      var items := ShipmentItems(Pick(lines, Just(req.container)));
      assert v == Blank.(main := Some(c), items := items);
      hide ViewOf, Pick, RecordShipment;
      if !CanHoldLines(c.status) { return Some(InvalidTransition); }
      if c.cutoff.Some? && req.now > c.cutoff.value { return Some(PreconditionFailed); }
      if items == map[] { return Some(InvalidInput); }
      err := RecordShipmentTx(items);
      if err.Some? { return; }
      UpdateContainerStatus(req.container, c.status, Sealed, req.actor, req.now);
    }

    method Reopen(req: Request) returns (err: Option<Error>)
      requires req.Reopen?
      modifies this
      ensures err == Failure(Call(old(State()), req, old(soLines)))
      ensures State() == Next(old(State()), StepCall(req, old(soLines)))
      ensures asked <= LockPlan(req, true)
    {
      asked := [];
      if ReasonBlank(req.reason) { return Some(InvalidInput); }
      err := MoveStatus(req, Sealed, Sealed, Loading, req.actor, req.now);
    }

    method Ship(req: Request) returns (err: Option<Error>)
      requires req.Ship?
      modifies this
      ensures err == Failure(Call(old(State()), req, old(soLines)))
      ensures State() == Next(old(State()), StepCall(req, old(soLines)))
      ensures asked <= LockPlan(req, true)
    {
      asked := [];
      err := MoveStatus(req, Sealed, Sealed, Shipped, req.actor, req.now);
    }

    method Cancel(req: Request) returns (err: Option<Error>)
      requires req.Cancel?
      modifies this
      ensures err == Failure(Call(old(State()), req, old(soLines)))
      ensures State() == Next(old(State()), StepCall(req, old(soLines)))
      ensures asked <= LockPlan(req, true)
    {
      asked := [];
      err := MoveStatus(req, Open, Loading, Cancelled, req.actor, req.now);
    }

    /** The transaction shared by Reopen, Ship and Cancel: lock, check that the
        status is one of two, move on. */
    method MoveStatus(req: Request, from: Status, orFrom: Status, to: Status, actor: Id, now: int)
      returns (err: Option<Error>)
      modifies this`asked, this`containers, this`statusLog
      ensures asked == old(asked) + [C(req.container)]
      ensures var c := Lookup(old(containers), req.container);
              var legal := c.Some? && c.value.status in {from, orFrom};
              && err == (if c.None? then Some(NotFound) else if !legal then Some(InvalidTransition) else None)
              && State() == if legal then SetStatus(old(State()), req.container, c.value.status, to, actor, now)
                            else old(State())
    {
      var locked := LockContainer(req.container);
      if locked.Err? { return Some(locked.error); }
      if locked.value.status != from && locked.value.status != orFrom { return Some(InvalidTransition); }
      UpdateContainerStatus(req.container, locked.value.status, to, actor, now);
      return None;
    }

    // ------------------------------------------------------------ plan approval

    /** SUPERSEDE the other active plans, then promote the named one. */
    method PromotePlan(plan: Id, actor: Id)
      requires plan in plans && plans[plan].status in {Parsed, Validated}
      modifies this`plans
      ensures plans == Promote(old(plans), plan, actor)
    {
      var container := plans[plan].container;
      plans := map p | p in plans ::
        if p != plan && Active(plans[p], container)
        then plans[p].(status := Superseded, supersededBy := Some(plan)) else plans[p];
      plans := plans[plan := plans[plan].(status := Approved, approvedBy := Some(actor))];
    }

    method ApproveOnly(plan: Id, actor: Id) returns (err: Option<Error>)
      modifies this`plans
      ensures err == if plan !in old(plans) then Some(NotFound)
        else if old(plans)[plan].status == Superseded then Some(InvalidTransition) else None
      ensures plans == if plan !in old(plans) || old(plans)[plan].status in {Approved, Superseded} then old(plans)
                       else Promote(old(plans), plan, actor)
    {
      if plan !in plans { return Some(NotFound); }
      if plans[plan].status == Approved { return None; }
      if plans[plan].status == Superseded { return Some(InvalidTransition); }
      PromotePlan(plan, actor);
      return None;
    }

    /** Copies the live lines of a container one by one; the order is by id. */
    method CopyLines(container: Id, plan: Id) returns (copies: seq<HistoryRow>)
      ensures copies == Snapshot(Pick(lines, Just(container)), plan)
      ensures |copies| == |Pick(lines, Just(container))|
    {
      hide Pick;
      var rows := Pick(lines, Just(container));
      var rest := rows;
      copies := [];
      while rest != map[]
        invariant copies + Snapshot(rest, plan) == Snapshot(rows, plan)
        invariant |copies| + |rest| == |rows|
        decreases |rest|
      {
        var k := Least(rest.Keys);
        copies := copies + [HistoryRow(k, rest[k], plan)];
        SmallerMap(rest, k);
        rest := rest - {k};
      }
    }

    /** Moves the live lines to the history, then promotes the plan; a plan that is
        APPROVED already is left as it is. */
    method Supersede(plan: Id, actor: Id) returns (err: Option<Error>, count: nat)
      modifies this`plans, this`lines, this`history
      ensures err == if plan !in old(plans) then Some(NotFound)
        else if old(plans)[plan].status == Superseded then Some(InvalidTransition)
        else if old(plans)[plan].status == Approved then None
        else if AnyLogged(old(State()), old(plans)[plan].container) then Some(DbError) else None
      ensures err.Some? || old(plans)[plan].status == Approved ==> State() == old(State()) && count == 0
      ensures err.None? && old(plans)[plan].status != Approved ==>
        var c := old(plans)[plan].container;
        var db := Wipe(old(State()), c, plan);
        State() == db.(plans := Promote(db.plans, plan, actor)) && count == |Pick(old(lines), Just(c))|
    {
      hide Pick, Promote, Snapshot;
      if plan !in plans { return Some(NotFound), 0; }
      var container := plans[plan].container;
      if plans[plan].status == Superseded { return Some(InvalidTransition), 0; }
      if plans[plan].status == Approved { return None, 0; }
      var copies := CopyLines(container, plan);
      if exists id | id in Pick(lines, Just(container)) :: Logged(State(), id) { return Some(DbError), 0; }
      history := history + copies;
      lines := lines - Pick(lines, Just(container)).Keys;
      PromotePlan(plan, actor);
      return None, |copies|;
    }

    method ApproveLoadingPlan(plan: Id, actor: Id, confirm: bool) returns (err: Option<Error>)
      modifies this`plans, this`lines, this`history
      ensures err == Failure(ApprovePlan(old(State()), plan, actor, confirm))
      ensures State() == Next(old(State()), StepApprove(plan, actor, confirm))
    {
      if plan == NIL || actor == NIL { return Some(InvalidInput); }
      if plan !in plans { return Some(NotFound); }
      var target := plans[plan];
      if target.container !in containers { return Some(NotFound); }
      if !CanHoldLines(containers[target.container].status) { return Some(InvalidTransition); }
      var count := |Pick(lines, Just(target.container))|;
      var mustSupersede := count > 0 && target.status != Approved;
      if mustSupersede && !confirm { return Some(PreconditionFailed); }
      hide Wipe, Promote, Pick;
      if mustSupersede {
        var wiped: nat;
        err, wiped := Supersede(plan, actor);
      } else {
        err := ApproveOnly(plan, actor);
      }
    }
  }
}
