/** What every run of delivery service calls keeps: capacity, the seal life
    cycle and the status log of every container. */
module Loading {
  import opened Common
  import opened LineTable
  import opened Delivery

  // -------------------------------------------------------------- definitions

  /** The status log rows of one container, oldest first. */
  function LogOf(log: seq<StatusEntry>, c: Id): seq<StatusEntry> {
    if log == [] then []
    else
      var n := |log| - 1;
      LogOf(log[..n], c) + if log[n].container == c then [log[n]] else []
  }

  /** The life cycle of a container. OPEN to SEALED is not an edge, although
      Seal admits OPEN containers: an OPEN container never has a line. */
  predicate Edge(from: Status, to: Status) {
    match from
    case Open => to == Loading || to == Cancelled
    case Loading => to == Sealed || to == Cancelled
    case Sealed => to == Loading || to == Shipped
    case Shipped => false
    case Cancelled => false
  }

  /** Replaying the entries from the given status is a connected walk along
      edges of the life cycle, ending at the given status. */
  predicate Path(entries: seq<StatusEntry>, from: Status, to: Status) {
    if entries == [] then from == to
    else
      var last := entries[|entries| - 1];
      last.to == to && Edge(last.from, to) && Path(entries[..|entries| - 1], from, last.from)
  }

  function LoadIn(db: Db, c: Id): Load { LoadOf(db.lines, Just(c)) }

  function RowsIn(db: Db, c: Id): map<Id, Line> { Pick(db.lines, Just(c)) }

  ghost predicate Dominates(o: Overload, c: Id, load: Load) {
    o.container == c && load.cbm <= o.cbm && load.kg <= o.kg
  }

  /** At most the maximum, widened by so many percent if that is more. */
  predicate Within(pct: real, max: real, total: real) {
    total <= max * if pct > 0.0 then 1.0 + pct / 100.0 else 1.0
  }

  /** CBM and weight are both within the widened maximum, or a single overload-log
      row of the container dominates both. */
  ghost predicate CapacityOK(db: Db, c: Id) {
    c in db.containers &&
    var row, load := db.containers[c], LoadIn(db, c);
    || (Within(db.overheadPct, row.maxCbm, load.cbm) && Within(db.overheadPct, row.maxKg, load.kg))
    || exists i :: 0 <= i < |db.overloads| && Dominates(db.overloads[i], c, load)
  }

  lemma FitsIffWithin(pct: real, c: Container, cbm: real, kg: real)
    ensures Fits(pct, c, cbm, kg) <==> Within(pct, c.maxCbm, cbm) && Within(pct, c.maxKg, kg)
  {
  }

  predicate IsSealed(s: Status) { s == Sealed || s == Shipped }

  ghost predicate LifeCycleOK(db: Db, c: Id) {
    c in db.containers &&
    var row := db.containers[c];
    && (row.sealedAt.Some? <==> IsSealed(row.status))
    && (row.sealedBy.Some? <==> IsSealed(row.status))
    && (row.status == Open ==> RowsIn(db, c) == map[])
    && (IsSealed(row.status) ==> RowsIn(db, c) != map[])
    && Path(LogOf(db.statusLog, c), Open, row.status)
  }

  ghost predicate ContainerOK(db: Db, c: Id) {
    && c in db.containers
    && db.containers[c].maxCbm > 0.0 && db.containers[c].maxKg > 0.0
    && CapacityOK(db, c)
    && LifeCycleOK(db, c)
  }

  ghost predicate LinesOK(db: Db) {
    forall id :: id in db.lines ==> LineOK(db.lines[id]) && db.lines[id].container in db.containers
  }

  ghost predicate Inv(db: Db) {
    && LinesOK(db)
    && (forall c :: c in db.containers ==> ContainerOK(db, c))
    && (forall i :: 0 <= i < |db.statusLog| ==> db.statusLog[i].container in db.containers)
  }

  /** A database with no containers yet. */
  ghost predicate Start(db: Db) {
    db.containers == map[] && db.lines == map[] && db.statusLog == [] && db.overloads == []
    && db.transfers == [] && db.history == [] && db.plans == map[]
  }

  // ------------------------------------------------------ untouched containers

  /** The containers a call may change. */
  function Involved(req: Request): set<Id> {
    if req.TransferLine? then {req.container, req.target} else {req.container}
  }

  /** A step left a container alone: same row, same lines, same log. */
  ghost predicate Untouched(db: Db, db': Db, c: Id) {
    && Lookup(db'.containers, c) == Lookup(db.containers, c)
    && RowsIn(db', c) == RowsIn(db, c)
    && LogOf(db'.statusLog, c) == LogOf(db.statusLog, c)
    && db'.overheadPct == db.overheadPct
    && db.overloads <= db'.overloads
  }

  lemma UntouchedStaysOK(db: Db, db': Db, c: Id)
    requires c in db.containers && ContainerOK(db, c) && Untouched(db, db', c)
    ensures c in db'.containers && ContainerOK(db', c)
  {
    assert db'.containers[c] == db.containers[c];
    if i :| 0 <= i < |db.overloads| && Dominates(db.overloads[i], c, LoadIn(db, c)) {
      assert db'.overloads[i] == db.overloads[i];
    }
  }

  lemma LogAppend(log: seq<StatusEntry>, e: StatusEntry, c: Id)
    ensures LogOf(log + [e], c) == LogOf(log, c) + if e.container == c then [e] else []
  {
    assert (log + [e])[..|log|] == log;
  }

  lemma SetStatusTouches(db: Db, id: Id, from: Status, to: Status, actor: Id, now: int, c: Id)
    ensures var db' := SetStatus(db, id, from, to, actor, now);
            && (c != id ==> Untouched(db, db', c))
            && db'.lines == db.lines && db'.containers.Keys == db.containers.Keys
            && db'.overheadPct == db.overheadPct && db'.overloads == db.overloads
            && db'.transfers == db.transfers && db'.history == db.history
            && db'.plans == db.plans && db'.soLines == db.soLines
  {
    hide LogOf, Pick;
    LogAppend(db.statusLog, StatusEntry(id, from, to, actor, now), c);
  }

  /** A status change along an edge keeps the life cycle, provided the lines
      agree with the new status. */
  lemma SetStatusKeepsCycle(db: Db, id: Id, to: Status, actor: Id, now: int)
    requires id in db.containers
    requires Path(LogOf(db.statusLog, id), Open, db.containers[id].status)
    requires (db.containers[id].sealedAt.Some? <==> IsSealed(db.containers[id].status))
    requires (db.containers[id].sealedBy.Some? <==> IsSealed(db.containers[id].status))
    requires Edge(db.containers[id].status, to)
    requires IsSealed(to) ==> RowsIn(db, id) != map[]
    ensures LifeCycleOK(SetStatus(db, id, db.containers[id].status, to, actor, now), id)
  {
    var e := StatusEntry(id, db.containers[id].status, to, actor, now);
    var log := LogOf(db.statusLog, id);
    LogAppend(db.statusLog, e, id);
    assert (log + [e])[..|log|] == log;
  }

  // ------------------------------------------------------------ lines and loads

  lemma JustPart(l: Line, c: Id)
    ensures Part(l, Just(c)) == if l.container == c then LoadOfLine(l) else Zero
  {
  }

  lemma RowsOfOther(lines: map<Id, Line>, id: Id, l: Line, c: Id)
    requires l.container != c && (id in lines ==> lines[id].container != c)
    ensures Pick(lines[id := l], Just(c)) == Pick(lines, Just(c))
    ensures Pick(lines - {id}, Just(c)) == Pick(lines, Just(c))
  {
  }

  lemma LoadsNonNegative(db: Db, c: Id)
    requires LinesOK(db)
    ensures LoadIn(db, c).cbm >= 0.0 && LoadIn(db, c).kg >= 0.0
  {
    TotalNonNegative(RowsIn(db, c));
  }

  /** Capacity survives when a container's totals do not grow. */
  lemma ShrinkKeepsCapacity(db: Db, db': Db, c: Id)
    requires c in db.containers && c in db'.containers && CapacityOK(db, c)
    requires db'.containers[c].maxCbm == db.containers[c].maxCbm && db'.containers[c].maxKg == db.containers[c].maxKg
    requires db'.overheadPct == db.overheadPct && db.overloads <= db'.overloads
    requires LoadIn(db', c).cbm <= LoadIn(db, c).cbm && LoadIn(db', c).kg <= LoadIn(db, c).kg
    ensures CapacityOK(db', c)
  {
    if i :| 0 <= i < |db.overloads| && Dominates(db.overloads[i], c, LoadIn(db, c)) {
      assert Dominates(db'.overloads[i], c, LoadIn(db', c));
    }
  }

  // ------------------------------------------------------------- calls, one by one

  lemma SameRowsUntouched(db: Db, db1: Db, db2: Db, c: Id)
    requires Untouched(db1, db2, c)
    requires Lookup(db1.containers, c) == Lookup(db.containers, c) && RowsIn(db1, c) == RowsIn(db, c)
    requires db1.statusLog == db.statusLog && db1.overheadPct == db.overheadPct && db.overloads <= db1.overloads
    ensures Untouched(db, db2, c)
  {
  }

  lemma AddUntouched(db: Db, req: Request, v: View, c: Id)
    requires req.AddLine? && ExecAdd(db, req, v).Ok? && c != req.container
    ensures Untouched(db, ExecAdd(db, req, v).value, c)
  {
    hide Untouched, Pick, LoadOf, Fits;
    var row := Line(req.container, req.sku, req.soLine, req.qty, req.cbm, req.kg);
    var db' := ExecAdd(db, req, v).value;
    var db1 := db.(lines := db.lines[req.newLine := row], overloads := db'.overloads);
    assert db.overloads <= db'.overloads;
    assert db' == FlipIfOpen(db1, req.container, v.main.value.status, req.actor, req.now);
    RowsOfOther(db.lines, req.newLine, row, c);
    FlipTouches(db1, req.container, v.main.value.status, req.actor, req.now, c);
    SameRowsUntouched(db, db1, db', c);
  }

  lemma FlipTouches(db: Db, id: Id, seen: Status, actor: Id, now: int, c: Id)
    ensures var db' := FlipIfOpen(db, id, seen, actor, now);
            && (c != id ==> Untouched(db, db', c))
            && db'.lines == db.lines && db'.overloads == db.overloads && db'.transfers == db.transfers
  {
    hide Untouched, SetStatus;
    SetStatusTouches(db, id, Open, Loading, actor, now, c);
    UntouchedRefl(db, c);
  }

  lemma UntouchedRefl(db: Db, c: Id)
    ensures Untouched(db, db, c)
  {
  }

  lemma AddedLoad(db: Db, req: Request, v: View, sel: Sel)
    requires req.AddLine? && ExecAdd(db, req, v).Ok?
    ensures var row := Line(req.container, req.sku, req.soLine, req.qty, req.cbm, req.kg);
            && ExecAdd(db, req, v).value.lines == db.lines[req.newLine := row]
            && LoadOf(ExecAdd(db, req, v).value.lines, sel) == LoadOf(db.lines, sel).Plus(Part(row, sel))
  {
    hide LoadOf;
    LoadInsert(db.lines, req.newLine, Line(req.container, req.sku, req.soLine, req.qty, req.cbm, req.kg), sel);
  }

  lemma AddKeepsCapacity(db: Db, req: Request)
    requires Inv(db) && req.AddLine? && ExecAdd(db, req, ViewOf(db, req)).Ok?
    ensures req.container in db.containers
    ensures CapacityOK(ExecAdd(db, req, ViewOf(db, req)).value, req.container)
  {
    hide LoadOf, Pick, ContainerOK;
    var c := req.container;
    var v := ViewOf(db, req);
    var db' := ExecAdd(db, req, v).value;
    AddedLoad(db, req, v, Just(c));
    JustPart(Line(c, req.sku, req.soLine, req.qty, req.cbm, req.kg), c);
    assert LoadIn(db', c).cbm == v.load.cbm + req.cbm && LoadIn(db', c).kg == v.load.kg + req.kg;
    FitsIffWithin(db.overheadPct, db.containers[c], v.load.cbm + req.cbm, v.load.kg + req.kg);
    if !Fits(db.overheadPct, db.containers[c], v.load.cbm + req.cbm, v.load.kg + req.kg) {
      assert Dominates(db'.overloads[|db.overloads|], c, LoadIn(db', c));
    }
  }

  lemma AddKeepsCycle(db: Db, req: Request)
    requires Inv(db) && req.AddLine? && ExecAdd(db, req, ViewOf(db, req)).Ok?
    ensures LifeCycleOK(ExecAdd(db, req, ViewOf(db, req)).value, req.container)
  {
    hide LoadOf, CapacityOK;
    var c := req.container;
    var db' := ExecAdd(db, req, ViewOf(db, req)).value;
    assert ContainerOK(db, c);
    assert req.newLine in RowsIn(db', c);
    if db.containers[c].status == Open {
      SetStatusKeepsCycle(db.(lines := db'.lines, overloads := db'.overloads), c, Loading, req.actor, req.now);
    }
  }

  lemma AddKeepsContainer(db: Db, req: Request)
    requires Inv(db) && req.AddLine? && ExecAdd(db, req, ViewOf(db, req)).Ok?
    ensures req.container in db.containers
    ensures ContainerOK(ExecAdd(db, req, ViewOf(db, req)).value, req.container)
  {
    hide CapacityOK, LifeCycleOK, ViewOf;
    assert ViewOf(db, req).main == Lookup(db.containers, req.container) by { ViewLine(db, req); }
    AddKeepsCapacity(db, req);
    AddKeepsCycle(db, req);
    assert ContainerOK(db, req.container);
  }

  lemma DeleteUntouched(db: Db, req: Request, v: View, c: Id)
    requires req.DeleteLine? && ExecDelete(db, req, v).Ok? && c != req.container
    requires v.line == Lookup(db.lines, req.line)
    ensures Untouched(db, ExecDelete(db, req, v).value, c)
  {
    RowsOfOther(db.lines, req.line, db.lines[req.line], c);
  }

  lemma DeleteKeepsContainer(db: Db, req: Request)
    requires Inv(db) && req.DeleteLine? && ExecDelete(db, req, ViewOf(db, req)).Ok?
    ensures req.container in db.containers
    ensures ContainerOK(ExecDelete(db, req, ViewOf(db, req)).value, req.container)
  {
    var c := req.container;
    var db' := ExecDelete(db, req, ViewOf(db, req)).value;
    assert ContainerOK(db, c);
    LoadDelete(db.lines, req.line, Just(c));
    JustPart(db.lines[req.line], c);
    assert LineOK(db.lines[req.line]);
    ShrinkKeepsCapacity(db, db', c);
    assert req.line in RowsIn(db, c);
  }

  function LeftBehind(req: Request, line: Line): Line
    requires req.TransferLine?
  {
    var moved := Moved(req, line);
    line.(qty := line.qty - moved.qty, cbm := line.cbm - moved.cbm, kg := line.kg - moved.kg)
  }

  function LinesAfterTransfer(lines: map<Id, Line>, req: Request): map<Id, Line>
    requires req.TransferLine? && req.line in lines
  {
    var line := lines[req.line];
    (if IsFull(req, line) then lines - {req.line} else lines[req.line := LeftBehind(req, line)])
      [req.newLine := Moved(req, line)]
  }

  lemma TransferWrites(db: Db, req: Request, v: View)
    requires req.TransferLine? && CheckTransfer(db, req, v).None? && v.line == Lookup(db.lines, req.line)
    ensures req.line in db.lines && req.newLine !in db.lines
    ensures db.lines[req.line].container == req.container
    ensures ExecTransfer(db, req, v).Ok? && v.target.Some?
    ensures var db1 := db.(lines := LinesAfterTransfer(db.lines, req));
            ExecTransfer(db, req, v).value == FlipIfOpen(db1, req.target, v.target.value.status, req.actor, req.now)
              .(transfers := ExecTransfer(db, req, v).value.transfers)
    ensures ExecTransfer(db, req, v).value.lines == LinesAfterTransfer(db.lines, req)
  {
    hide LoadOf, Pick, Fits;
  }

  /** The part of a line the request asks for, where it is: all of it when the
      quantity is 0 or the line's own. */
  function Asked(req: Request, line: Line): Line
    requires req.TransferLine?
  {
    if req.qty == 0 || req.qty == line.qty then line
    else Line(line.container, line.sku, line.soLine, req.qty, req.cbm, req.kg)
  }

  /** What a selection gains or loses by a transfer: the moved part counts where
      it now is instead of where it was. */
  lemma TransferLoads(lines: map<Id, Line>, req: Request, sel: Sel)
    requires req.TransferLine? && req.line in lines && req.newLine !in lines
    requires lines[req.line].container == req.container
    ensures var part := Asked(req, lines[req.line]);
            LoadOf(LinesAfterTransfer(lines, req), sel).Plus(Part(part, sel))
            == LoadOf(lines, sel).Plus(Part(part.(container := req.target), sel))
  {
    hide LoadOf;
    var line := lines[req.line];
    var moved := Moved(req, line);
    if IsFull(req, line) {
      LoadDelete(lines, req.line, sel);
      LoadInsert(lines - {req.line}, req.newLine, moved, sel);
    } else {
      LoadUpdate(lines, req.line, LeftBehind(req, line), sel);
      LoadInsert(lines[req.line := LeftBehind(req, line)], req.newLine, moved, sel);
    }
  }

  lemma TransferUntouched(db: Db, req: Request, v: View, c: Id)
    requires req.TransferLine? && ExecTransfer(db, req, v).Ok? && c !in Involved(req)
    requires v.line == Lookup(db.lines, req.line)
    ensures Untouched(db, ExecTransfer(db, req, v).value, c)
  {
    hide ExecTransfer, Pick, FlipIfOpen, Fits;
    assert CheckTransfer(db, req, v).None? by { TransferOk(db, req, v); }
    hide CheckTransfer;
    TransferWrites(db, req, v);
    var line := db.lines[req.line];
    var rest := if IsFull(req, line) then db.lines - {req.line} else db.lines[req.line := LeftBehind(req, line)];
    RowsOfOther(db.lines, req.line, LeftBehind(req, line), c);
    RowsOfOther(rest, req.newLine, Moved(req, line), c);
    var db1 := db.(lines := rest[req.newLine := Moved(req, line)]);
    FlipTouches(db1, req.target, v.target.value.status, req.actor, req.now, c);
  }

  lemma TransferOk(db: Db, req: Request, v: View)
    requires req.TransferLine? && ExecTransfer(db, req, v).Ok?
    ensures CheckTransfer(db, req, v).None?
  {
  }

  lemma TransferRow(db: Db, req: Request)
    requires LinesOK(db) && req.TransferLine? && CheckRequest(req).None?
    requires CheckTransfer(db, req, ViewOf(db, req)).None?
    ensures req.line in db.lines
    ensures LineOK(Moved(req, db.lines[req.line]))
    ensures !IsFull(req, db.lines[req.line]) ==> LineOK(LeftBehind(req, db.lines[req.line]))
  {
    hide LoadOf, Pick;
    assert LineOK(db.lines[req.line]);
  }

  lemma TransferKeepsCapacity(db: Db, req: Request)
    requires Inv(db) && req.TransferLine? && CheckRequest(req).None?
    requires CheckTransfer(db, req, ViewOf(db, req)).None?
    ensures req.container in db.containers && req.target in db.containers
    ensures CapacityOK(ExecTransfer(db, req, ViewOf(db, req)).value, req.container)
    ensures CapacityOK(ExecTransfer(db, req, ViewOf(db, req)).value, req.target)
  {
    hide LoadOf, Pick, LifeCycleOK, LinesAfterTransfer;
    var c, t := req.container, req.target;
    TransferWrites(db, req, ViewOf(db, req));
    TransferRow(db, req);
    var moved := Moved(req, db.lines[req.line]);
    var db' := ExecTransfer(db, req, ViewOf(db, req)).value;
    TransferLoads(db.lines, req, Just(c));
    TransferLoads(db.lines, req, Just(t));
    JustPart(moved, c);
    JustPart(moved.(container := c), c);
    JustPart(moved, t);
    JustPart(moved.(container := c), t);
    assert ContainerOK(db, c);
    ShrinkKeepsCapacity(db, db', c);
    assert LoadIn(db', t).cbm == ViewOf(db, req).load.cbm + moved.cbm;
    assert LoadIn(db', t).kg == ViewOf(db, req).load.kg + moved.kg;
    FitsIffWithin(db.overheadPct, db.containers[t], LoadIn(db', t).cbm, LoadIn(db', t).kg);
  }

  lemma TransferKeepsCycles(db: Db, req: Request)
    requires Inv(db) && req.TransferLine? && CheckRequest(req).None?
    requires CheckTransfer(db, req, ViewOf(db, req)).None?
    ensures LifeCycleOK(ExecTransfer(db, req, ViewOf(db, req)).value, req.container)
    ensures LifeCycleOK(ExecTransfer(db, req, ViewOf(db, req)).value, req.target)
  {
    hide LoadOf, CapacityOK;
    var c, t := req.container, req.target;
    var db' := ExecTransfer(db, req, ViewOf(db, req)).value;
    assert ContainerOK(db, c) && ContainerOK(db, t);
    assert req.line in RowsIn(db, c);
    var db1 := db.(lines := db'.lines);
    var flipped := FlipIfOpen(db1, t, db.containers[t].status, req.actor, req.now);
    assert db' == flipped.(transfers := db'.transfers);
    SetStatusTouches(db1, t, Open, Loading, req.actor, req.now, c);
    assert LifeCycleOK(db1, c);
    if db.containers[t].status == Open {
      SetStatusKeepsCycle(db1, t, Loading, req.actor, req.now);
    }
  }

  lemma TransferKeepsContainers(db: Db, req: Request)
    requires Inv(db) && req.TransferLine? && CheckRequest(req).None?
    requires CheckTransfer(db, req, ViewOf(db, req)).None?
    ensures req.container in db.containers && req.target in db.containers
    ensures ContainerOK(ExecTransfer(db, req, ViewOf(db, req)).value, req.container)
    ensures ContainerOK(ExecTransfer(db, req, ViewOf(db, req)).value, req.target)
  {
    hide CapacityOK, LifeCycleOK, LoadOf, Pick, LinesAfterTransfer, ViewOf, LinesOK;
    ViewLine(db, req);
    TransferKeepsCapacity(db, req);
    TransferKeepsCycles(db, req);
    TransferWrites(db, req, ViewOf(db, req));
    assert ContainerOK(db, req.container) && ContainerOK(db, req.target);
  }

  /** A sealed container is never empty, and an OPEN one never gets past the
      empty-container check. */
  lemma SealKeepsContainer(db: Db, req: Request)
    requires Inv(db) && req.Seal? && ExecSeal(db, req, ViewOf(db, req)).Ok?
    ensures req.container in db.containers
    ensures ContainerOK(ExecSeal(db, req, ViewOf(db, req)).value, req.container)
  {
    var c := req.container;
    var db' := ExecSeal(db, req, ViewOf(db, req)).value;
    assert ContainerOK(db, c);
    assert RowsIn(db, c) != map[];
    SetStatusKeepsCycle(db, c, Sealed, req.actor, req.now);
    assert LoadIn(db', c) == LoadIn(db, c);
    ShrinkKeepsCapacity(db, db', c);
  }

  lemma MoveKeepsContainer(db: Db, c: Id, to: Status, actor: Id, now: int)
    requires Inv(db) && c in db.containers && Edge(db.containers[c].status, to)
    requires IsSealed(to) ==> IsSealed(db.containers[c].status)
    ensures ContainerOK(SetStatus(db, c, db.containers[c].status, to, actor, now), c)
  {
    var db' := SetStatus(db, c, db.containers[c].status, to, actor, now);
    assert ContainerOK(db, c);
    SetStatusKeepsCycle(db, c, to, actor, now);
    assert LoadIn(db', c) == LoadIn(db, c);
    ShrinkKeepsCapacity(db, db', c);
  }

  // ---------------------------------------------------------- every call at once

  /** A call leaves every container it did not lock alone. The line it read
      under lock is still the current one. */
  lemma ExecUntouched(db: Db, req: Request, v: View, c: Id)
    requires Exec(db, req, v).Ok? && c !in Involved(req)
    requires req.DeleteLine? || req.TransferLine? ==> v.line == Lookup(db.lines, req.line)
    ensures Untouched(db, Exec(db, req, v).value, c)
  {
    match req
    case AddLine(_, _, _, _, _, _, _, _, _, _, _, _) => AddUntouched(db, req, v, c);
    case DeleteLine(_, _) => DeleteUntouched(db, req, v, c);
    case TransferLine(_, _, _, _, _, _, _, _, _, _, _) => TransferUntouched(db, req, v, c);
    case Seal(_, actor, _, _, now) =>
      var bumped := RecordShipment(db.soLines, v.items).value;
      SetStatusTouches(db.(soLines := bumped), req.container, v.main.value.status, Sealed, actor, now, c);
    case Reopen(_, _, actor, now) =>
      SetStatusTouches(db, req.container, v.main.value.status, Loading, actor, now, c);
    case Ship(_, actor, now) =>
      SetStatusTouches(db, req.container, v.main.value.status, Shipped, actor, now, c);
    case Cancel(_, actor, now) =>
      SetStatusTouches(db, req.container, v.main.value.status, Cancelled, actor, now, c);
  }

  lemma ExecKeepsInvolved(db: Db, req: Request, c: Id)
    requires Inv(db) && CheckRequest(req).None? && Exec(db, req, ViewOf(db, req)).Ok? && c in Involved(req)
    ensures c in db.containers && ContainerOK(Exec(db, req, ViewOf(db, req)).value, c)
  {
    hide ContainerOK, LoadOf, Pick;
    match req
    case AddLine(_, _, _, _, _, _, _, _, _, _, _, _) => AddKeepsContainer(db, req);
    case DeleteLine(_, _) => DeleteKeepsContainer(db, req);
    case TransferLine(_, _, _, _, _, _, _, _, _, _, _) =>
      TransferKeepsContainers(db, req);
    case Seal(_, _, _, _, _) => SealKeepsContainer(db, req);
    case Reopen(_, _, actor, now) => MoveKeepsContainer(db, c, Loading, actor, now);
    case Ship(_, actor, now) => MoveKeepsContainer(db, c, Shipped, actor, now);
    case Cancel(_, actor, now) => MoveKeepsContainer(db, c, Cancelled, actor, now);
  }

  lemma ExecKeepsLines(db: Db, req: Request)
    requires LinesOK(db) && CheckRequest(req).None? && Exec(db, req, ViewOf(db, req)).Ok?
    ensures LinesOK(Exec(db, req, ViewOf(db, req)).value)
  {
    hide LoadOf, Pick;
    if req.TransferLine? {
      TransferWrites(db, req, ViewOf(db, req));
      TransferRow(db, req);
    }
  }

  lemma ExecKeepsKeys(db: Db, req: Request, v: View)
    requires Exec(db, req, v).Ok?
    ensures var db' := Exec(db, req, v).value;
            && db'.containers.Keys == db.containers.Keys
            && db'.overheadPct == db.overheadPct
            && db.statusLog <= db'.statusLog
            && (forall i :: |db.statusLog| <= i < |db'.statusLog| ==>
              db'.statusLog[i].container in db'.containers)
  {
    hide LoadOf, Pick;
  }

  lemma ExecKeepsPlans(db: Db, req: Request, v: View)
    requires Exec(db, req, v).Ok?
    ensures Exec(db, req, v).value.plans == db.plans
  {
    hide LoadOf, Pick, Fits;
  }

  lemma CallKeepsInv(db: Db, req: Request, seen: map<Id, SOLine>)
    requires Inv(db) && Call(db, req, seen).Ok?
    ensures Inv(Call(db, req, seen).value)
  {
    hide ContainerOK, Exec, ViewOf, Untouched;
    var db' := Call(db, req, seen).value;
    ExecKeepsLines(db, req);
    ExecKeepsKeys(db, req, ViewOf(db, req));
    forall c | c in db'.containers
      ensures ContainerOK(db', c)
    {
      if c in Involved(req) {
        ExecKeepsInvolved(db, req, c);
      } else {
        ViewLine(db, req);
        ExecUntouched(db, req, ViewOf(db, req), c);
        UntouchedStaysOK(db, db', c);
      }
    }
  }

  lemma ViewLine(db: Db, req: Request)
    ensures req.DeleteLine? || req.TransferLine? ==> ViewOf(db, req).line == Lookup(db.lines, req.line)
    ensures ViewOf(db, req).main == Lookup(db.containers, req.container)
  {
  }

  // -------------------------------------------------- creation, upload, approval

  lemma {:induction false} NoLog(log: seq<StatusEntry>, c: Id)
    requires forall i :: 0 <= i < |log| ==> log[i].container != c
    ensures LogOf(log, c) == []
  {
    if log != [] { NoLog(log[..|log| - 1], c); }
  }

  lemma CreateKeepsInv(db: Db, id: Id, t: ContainerType, cbm: real, kg: real, cutoff: Option<int>, creator: Id)
    requires Inv(db) && CreateContainer(db, id, t, cbm, kg, cutoff, creator).Ok?
    ensures Inv(CreateContainer(db, id, t, cbm, kg, cutoff, creator).value)
  {
    hide ContainerOK;
    var db' := CreateContainer(db, id, t, cbm, kg, cutoff, creator).value;
    forall c | c in db'.containers
      ensures ContainerOK(db', c)
    {
      if c == id {
        NewContainerOK(db, db', id);
      } else {
        UntouchedStaysOK(db, db', c);
      }
    }
  }

  lemma NewContainerOK(db: Db, db': Db, id: Id)
    requires Inv(db) && id !in db.containers && id in db'.containers
    requires db' == db.(containers := db.containers[id := db'.containers[id]])
    requires var c := db'.containers[id];
             c.maxCbm > 0.0 && c.maxKg > 0.0 && c.status == Open && c.sealedAt == None && c.sealedBy == None
    ensures ContainerOK(db', id)
  {
    hide ContainerOK, LifeCycleOK, Within;
    var c := db'.containers[id];
    WideEnough(c.maxCbm, db.overheadPct);
    WideEnough(c.maxKg, db.overheadPct);
    assert RowsIn(db', id) == map[];
    NewCycleOK(db, db', id);
    NewContainerParts(db', id);
  }

  lemma NewContainerParts(db: Db, c: Id)
    requires c in db.containers && db.containers[c].maxCbm > 0.0 && db.containers[c].maxKg > 0.0
    requires LifeCycleOK(db, c) && LoadIn(db, c) == Zero
    requires Within(db.overheadPct, db.containers[c].maxCbm, 0.0)
    requires Within(db.overheadPct, db.containers[c].maxKg, 0.0)
    ensures ContainerOK(db, c)
  {
    hide LoadOf, Within;
  }

  lemma NewCycleOK(db: Db, db': Db, id: Id)
    requires Inv(db) && id !in db.containers && id in db'.containers
    requires db'.statusLog == db.statusLog && RowsIn(db', id) == map[]
    requires var c := db'.containers[id]; c.status == Open && c.sealedAt == None && c.sealedBy == None
    ensures LifeCycleOK(db', id)
  {
    hide ContainerOK;
    NoLog(db.statusLog, id);
  }

  lemma WideEnough(max: real, pct: real)
    requires max > 0.0
    ensures Within(pct, max, 0.0)
  {
  }

  lemma WipeUntouched(db: Db, container: Id, plan: Id, c: Id)
    requires c != container
    ensures RowsIn(Wipe(db, container, plan), c) == RowsIn(db, c)
  {
  }

  lemma ApproveUntouched(db: Db, plan: Id, actor: Id, confirm: bool, c: Id)
    requires ApprovePlan(db, plan, actor, confirm).Ok? && c != db.plans[plan].container
    ensures Untouched(db, ApprovePlan(db, plan, actor, confirm).value, c)
  {
    WipeUntouched(db, db.plans[plan].container, plan, c);
  }

  lemma ApproveKeepsContainer(db: Db, plan: Id, actor: Id, confirm: bool)
    requires Inv(db) && ApprovePlan(db, plan, actor, confirm).Ok?
    ensures plan in db.plans && db.plans[plan].container in db.containers
    ensures ContainerOK(ApprovePlan(db, plan, actor, confirm).value, db.plans[plan].container)
  {
    hide LoadOf, Within, Promote, Snapshot;
    var c := db.plans[plan].container;
    var db' := ApprovePlan(db, plan, actor, confirm).value;
    assert ContainerOK(db, c);
    LoadsNonNegative(db, c);
    if db'.lines != db.lines {
      assert RowsIn(db', c) == map[];
      EmptyLoad(db', c);
    }
    ShrinkKeepsCapacity(db, db', c);
  }

  lemma EmptyLoad(db: Db, c: Id)
    requires RowsIn(db, c) == map[]
    ensures LoadIn(db, c) == Zero
  {
  }

  lemma ApproveKeepsInv(db: Db, plan: Id, actor: Id, confirm: bool)
    requires Inv(db) && ApprovePlan(db, plan, actor, confirm).Ok?
    ensures Inv(ApprovePlan(db, plan, actor, confirm).value)
  {
    hide ContainerOK, Untouched;
    var db' := ApprovePlan(db, plan, actor, confirm).value;
    forall c | c in db'.containers
      ensures ContainerOK(db', c)
    {
      if c == db.plans[plan].container {
        ApproveKeepsContainer(db, plan, actor, confirm);
      } else {
        ApproveUntouched(db, plan, actor, confirm, c);
        UntouchedStaysOK(db, db', c);
      }
    }
  }

  lemma UploadKeepsInv(db: Db, plan: Id, container: Id, hash: int, version: int)
    requires Inv(db) && UploadPlan(db, plan, container, hash, version).Ok?
    ensures Inv(UploadPlan(db, plan, container, hash, version).value)
  {
    hide ContainerOK;
    var db' := UploadPlan(db, plan, container, hash, version).value;
    forall c | c in db'.containers
      ensures ContainerOK(db', c)
    {
      UntouchedStaysOK(db, db', c);
    }
  }

  // --------------------------------------------------------------------- runs

  lemma {:induction false} RunAppend(db: Db, steps: seq<Step>, step: Step)
    ensures Run(db, steps + [step]) == Next(Run(db, steps), step)
    decreases |steps|
  {
    hide Next;
    if steps == [] {
      assert ([] + [step])[1..] == [];
      assert Run(Next(db, step), []) == Next(db, step);
    } else {
      assert (steps + [step])[1..] == steps[1..] + [step];
      RunAppend(Next(db, steps[0]), steps[1..], step);
    }
  }

  lemma NextKeepsInv(db: Db, step: Step)
    requires Inv(db)
    ensures Inv(Next(db, step))
  {
    hide Inv, Call, CreateContainer, UploadPlan, ApprovePlan;
    if Try(db, step).Ok? {
      match step
      case StepCall(req, seen) => CallKeepsInv(db, req, seen);
      case StepCreate(id, kind, cbm, kg, cutoff, creator) => CreateKeepsInv(db, id, kind, cbm, kg, cutoff, creator);
      case StepUpload(plan, container, hash, version) => UploadKeepsInv(db, plan, container, hash, version);
      case StepApprove(plan, actor, confirm) => ApproveKeepsInv(db, plan, actor, confirm);
    }
  }

  lemma {:induction false} RunKeepsInv(db: Db, steps: seq<Step>)
    requires Inv(db)
    ensures Inv(Run(db, steps))
    decreases |steps|
  {
    if steps != [] {
      NextKeepsInv(db, steps[0]);
      RunKeepsInv(Next(db, steps[0]), steps[1..]);
    }
  }

  lemma StartInv(db: Db)
    requires Start(db)
    ensures Inv(db)
  {
  }

  /** Capacity in every run of service calls: each container's totals fit its
      widened maximum, or one overload-log row of it dominates them both. */
  lemma CapacityDominated(db: Db, steps: seq<Step>, c: Id)
    requires Start(db) && c in Run(db, steps).containers
    ensures CapacityOK(Run(db, steps), c)
  {
    hide CapacityOK, LifeCycleOK;
    StartInv(db);
    RunKeepsInv(db, steps);
    assert ContainerOK(Run(db, steps), c);
  }

  /** The status log replays: from OPEN, along edges of the life cycle, to the
      current status; the seal stamp is set exactly in SEALED and SHIPPED. */
  lemma StatusLogReplays(db: Db, steps: seq<Step>, c: Id)
    requires Start(db) && c in Run(db, steps).containers
    ensures var db' := Run(db, steps);
            && Path(LogOf(db'.statusLog, c), Open, db'.containers[c].status)
            && (db'.containers[c].sealedAt.Some? <==> db'.containers[c].status in {Sealed, Shipped})
            && (db'.containers[c].status in {Sealed, Shipped} ==> RowsIn(db', c) != map[])
            && (db'.containers[c].status == Open ==> RowsIn(db', c) == map[])
  {
    hide CapacityOK;
    StartInv(db);
    RunKeepsInv(db, steps);
    assert ContainerOK(Run(db, steps), c);
  }

  // ------------------------------------------------------------ frozen contents

  /** The statuses in which a container's lines cannot change. */
  predicate IsFrozen(s: Status) { s != Open && s != Loading }

  predicate Reopens(step: Step, c: Id) {
    step.StepCall? && step.req.Reopen? && step.req.container == c
  }

  lemma FrozenStep(db: Db, step: Step, c: Id)
    requires c in db.containers && IsFrozen(db.containers[c].status)
    ensures c in Next(db, step).containers
    ensures !Reopens(step, c) ==>
      var a, b := db.containers[c], Next(db, step).containers[c];
      && RowsIn(Next(db, step), c) == RowsIn(db, c)
      && (b == a || (a.status == Sealed && b == a.(status := Shipped)))
  {
    hide Pick, LoadOf;
    if Try(db, step).Ok? {
      match step
      case StepCall(req, seen) =>
        ViewLine(db, req);
        if c !in Involved(req) { ExecUntouched(db, req, ViewOf(db, req), c); }
      case StepCreate(_, _, _, _, _, _) =>
      case StepUpload(_, _, _, _) =>
      case StepApprove(plan, actor, confirm) => ApproveUntouched(db, plan, actor, confirm, c);
    }
  }

  /** From Seal until Reopen nothing changes in a container: its lines stay the
      same and non-empty, its status is SEALED or SHIPPED, its seal stamp stays. */
  lemma {:induction false} SealFreezesContent(db: Db, steps: seq<Step>, c: Id)
    requires Inv(db) && c in db.containers && IsSealed(db.containers[c].status)
    requires forall i :: 0 <= i < |steps| ==> !Reopens(steps[i], c)
    ensures c in Run(db, steps).containers
    ensures RowsIn(Run(db, steps), c) == RowsIn(db, c) != map[]
    ensures IsSealed(Run(db, steps).containers[c].status)
    ensures Run(db, steps).containers[c].sealedAt == db.containers[c].sealedAt
    decreases |steps|
  {
    hide Pick, CapacityOK, Next;
    assert ContainerOK(db, c);
    if steps != [] {
      FrozenStep(db, steps[0], c);
      NextKeepsInv(db, steps[0]);
      SealFreezesContent(Next(db, steps[0]), steps[1..], c);
    }
  }

  /** SHIPPED and CANCELLED are terminal: not even Reopen changes the row or the
      lines of such a container again. */
  lemma {:induction false} TerminalForever(db: Db, steps: seq<Step>, c: Id)
    requires c in db.containers && db.containers[c].status in {Shipped, Cancelled}
    ensures c in Run(db, steps).containers
    ensures Run(db, steps).containers[c] == db.containers[c]
    ensures RowsIn(Run(db, steps), c) == RowsIn(db, c)
    decreases |steps|
  {
    hide Pick, Next;
    if steps != [] {
      FrozenStep(db, steps[0], c);
      if Reopens(steps[0], c) { TerminalStep(db, steps[0], c); }
      TerminalForever(Next(db, steps[0]), steps[1..], c);
    }
  }

  lemma TerminalStep(db: Db, step: Step, c: Id)
    requires c in db.containers && db.containers[c].status in {Shipped, Cancelled} && Reopens(step, c)
    ensures Next(db, step) == db
  {
    hide Pick;
  }
}
