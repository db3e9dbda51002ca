/** What each delivery call accepts, what it refuses with which error, and what
    it leaves behind, in terms of the request and the rows alone. */
module LoadingRules {
  import opened Common
  import opened LineTable
  import opened Delivery
  import opened Loading
  import opened LoadingLedger

  // ------------------------------------------------------------------ vocabulary

  predicate Working(db: Db, c: Id) {
    c in db.containers && (db.containers[c].status == Open || db.containers[c].status == Loading)
  }

  /** What the container would carry with so much more is within its maximum. */
  predicate HasRoom(db: Db, c: Id, cbm: real, kg: real) {
    c in db.containers
    && Within(db.overheadPct, db.containers[c].maxCbm, LoadIn(db, c).cbm + cbm)
    && Within(db.overheadPct, db.containers[c].maxKg, LoadIn(db, c).kg + kg)
  }

  predicate NamedByOverload(db: Db, line: Id) { exists o | o in db.overloads :: o.line == line }

  lemma NamedIsLogged(db: Db, line: Id)
    ensures NamedByOverload(db, line) <==> Logged(db, line)
  {
    if Logged(db, line) {
      var i :| 0 <= i < |db.overloads| && db.overloads[i].line == line;
      assert db.overloads[i] in db.overloads;
    }
  }

  predicate NotBlank(s: string) { exists c | c in s :: c != ' ' && c != '\t' && c != '\n' && c != '\r' }

  lemma NotBlankIff(s: string)
    ensures NotBlank(s) <==> !ReasonBlank(s)
  {
    if !ReasonBlank(s) {
      var i :| 0 <= i < |s| && s[i] !in {' ', '\t', '\n', '\r'};
      assert s[i] in s;
    }
  }

  /** An OPEN container becomes LOADING, with a log row; others stay. */
  function Started(db: Db, c: Id, actor: Id, now: int): Db {
    if c in db.containers && db.containers[c].status == Open then
      db.(containers := db.containers[c := db.containers[c].(status := Loading, sealedAt := None, sealedBy := None)],
          statusLog := db.statusLog + [StatusEntry(c, Open, Loading, actor, now)])
    else db
  }

  // --------------------------------------------------------------------- AddLine

  predicate AddAsked(req: Request)
    requires req.AddLine?
  {
    req.qty > 0 && req.sku != NIL && req.soLine != NIL && req.cbm >= 0.0 && req.kg >= 0.0 && req.actor != NIL
  }

  /** The order line, as it was seen, is for this SKU and has pieces left. */
  predicate AddOrdered(req: Request, seen: map<Id, SOLine>)
    requires req.AddLine?
  {
    && req.skuKnown && req.soLine in seen
    && seen[req.soLine].sku == req.sku && seen[req.soLine].shippable
    && seen[req.soLine].shipped + req.qty <= seen[req.soLine].planned
  }

  predicate AddRoom(db: Db, req: Request)
    requires req.AddLine?
  {
    HasRoom(db, req.container, req.cbm, req.kg)
  }

  lemma AddFits(db: Db, req: Request)
    requires req.AddLine? && req.container in db.containers
    ensures var load := LoadIn(db, req.container);
            Fits(db.overheadPct, db.containers[req.container], load.cbm + req.cbm, load.kg + req.kg)
            <==> AddRoom(db, req)
  {
    hide LoadOf, Fits, Within;
    var load := LoadIn(db, req.container);
    FitsIffWithin(db.overheadPct, db.containers[req.container], load.cbm + req.cbm, load.kg + req.kg);
  }

  /** AddLine succeeds exactly when the request is well formed, an override comes
      from an admin, the order allows it, the container is being filled and has
      room, or the override waives that; and the id is fresh. */
  lemma AddAcceptedIff(db: Db, req: Request, seen: map<Id, SOLine>)
    requires req.AddLine?
    ensures Call(db, req, seen).Ok? <==>
      && AddAsked(req) && (req.allowOverload ==> req.admin) && AddOrdered(req, seen)
      && Working(db, req.container) && (req.allowOverload || AddRoom(db, req)) && req.newLine !in db.lines
  {
    hide LoadOf, Fits, AddRoom;
    if req.container in db.containers { AddFits(db, req); }
  }

  /** The refusals, each with its error. In particular a line is refused for want
      of capacity exactly when CBM or weight would exceed the widened maximum and
      nothing before that is wrong. */
  lemma AddRefusals(db: Db, req: Request, seen: map<Id, SOLine>)
    requires req.AddLine?
    ensures var r := Call(db, req, seen);
            var asked := AddAsked(req) && (req.allowOverload ==> req.admin);
            var known := req.skuKnown && req.soLine in seen;
            && (r == Err(PreconditionFailed) <==> AddAsked(req) && req.allowOverload && !req.admin)
            && (r == Err(InsufficientStock) <==>
              asked && AddOrdered(req, seen) && Working(db, req.container)
              && !req.allowOverload && !AddRoom(db, req))
            && (r == Err(NotFound) <==>
              asked && (!known || (AddOrdered(req, seen) && req.container !in db.containers)))
            && (r == Err(InvalidInput) <==>
              || !AddAsked(req)
              || (asked && known && seen[req.soLine].sku != req.sku)
              || (asked && known && seen[req.soLine].sku == req.sku && seen[req.soLine].shippable
                  && seen[req.soLine].shipped + req.qty > seen[req.soLine].planned))
            && (r == Err(InvalidTransition) <==>
              || (asked && known && seen[req.soLine].sku == req.sku && !seen[req.soLine].shippable)
              || (asked && AddOrdered(req, seen) && req.container in db.containers && !Working(db, req.container)))
            && (r == Err(DbError) <==>
              asked && AddOrdered(req, seen) && Working(db, req.container)
              && (req.allowOverload || AddRoom(db, req)) && req.newLine in db.lines)
  {
    hide LoadOf, Fits, AddRoom;
    if req.container in db.containers { AddFits(db, req); }
  }

  /** What a successful AddLine leaves behind: one line as asked, an overload row
      with both projected totals if and only if there was no room, and an OPEN
      container LOADING; nothing else. */
  lemma AddEffect(db: Db, req: Request, seen: map<Id, SOLine>)
    requires req.AddLine? && Call(db, req, seen).Ok?
    ensures req.container in db.containers
    ensures var row := db.containers[req.container];
            var load := LoadIn(db, req.container);
            var forced := if AddRoom(db, req) then [] else
              [Overload(req.container, req.newLine, load.cbm + req.cbm, row.maxCbm, load.kg + req.kg, row.maxKg)];
            Call(db, req, seen).value == Started(db, req.container, req.actor, req.now).(
              lines := db.lines[req.newLine := Line(req.container, req.sku, req.soLine, req.qty, req.cbm, req.kg)],
              overloads := db.overloads + forced)
  {
    hide LoadOf, Fits, AddRoom;
    assert req.container in db.containers;
    AddFits(db, req);
  }

  // ------------------------------------------------------------------ DeleteLine

  lemma DeleteOutcome(db: Db, req: Request, seen: map<Id, SOLine>)
    requires req.DeleteLine?
    ensures var r := Call(db, req, seen);
            var found := Working(db, req.container) && req.line in db.lines;
            var own := found && db.lines[req.line].container == req.container;
            && (r.Ok? <==> own && !NamedByOverload(db, req.line))
            && (r.Ok? ==> r.value == db.(lines := db.lines - {req.line}))
            && (r == Err(NotFound) <==>
              req.container !in db.containers || (Working(db, req.container) && req.line !in db.lines))
            && (r == Err(InvalidTransition) <==> req.container in db.containers && !Working(db, req.container))
            && (r == Err(InvalidInput) <==> found && !own)
            && (r == Err(DbError) <==> own && NamedByOverload(db, req.line))
  {
    NamedIsLogged(db, req.line);
    hide NamedByOverload, Logged;
  }

  // ---------------------------------------------------------------- TransferLine

  predicate TransferAsked(req: Request)
    requires req.TransferLine?
  {
    && req.line != NIL && req.target != NIL && req.container != req.target && req.qty >= 0 && NotBlank(req.reason)
  }

  predicate BothThere(db: Db, req: Request)
    requires req.TransferLine?
  {
    req.container in db.containers && req.target in db.containers
  }

  predicate BothWorking(db: Db, req: Request)
    requires req.TransferLine?
  {
    Working(db, req.container) && Working(db, req.target)
  }

  /** Out of a container with an approved plan only a planner may move lines. */
  predicate MayMove(db: Db, req: Request)
    requires req.TransferLine?
  {
    req.planner || forall p | p in db.plans :: db.plans[p].container == req.container ==> db.plans[p].status != Approved
  }

  predicate Whole(req: Request, line: Line)
    requires req.TransferLine?
  {
    req.qty == 0 || req.qty == line.qty
  }

  /** A part is smaller than the line in pieces, and not larger in CBM and weight. */
  predicate AmountsOK(req: Request, line: Line)
    requires req.TransferLine?
  {
    Whole(req, line)
    || (req.qty < line.qty && 0.0 < req.cbm <= line.cbm && 0.0 < req.kg <= line.kg)
  }

  predicate OwnLine(db: Db, req: Request)
    requires req.TransferLine?
  {
    req.line in db.lines && db.lines[req.line].container == req.container
  }

  predicate TargetRoom(db: Db, req: Request)
    requires req.TransferLine? && req.line in db.lines
  {
    var line := db.lines[req.line];
    if Whole(req, line) then HasRoom(db, req.target, line.cbm, line.kg)
    else HasRoom(db, req.target, req.cbm, req.kg)
  }

  predicate IdsFree(db: Db, req: Request)
    requires req.TransferLine? && req.line in db.lines
  {
    req.newLine !in db.lines && (Whole(req, db.lines[req.line]) ==> !NamedByOverload(db, req.line))
  }

  lemma TransferFits(db: Db, req: Request)
    requires req.TransferLine? && req.line in db.lines && req.target in db.containers
    ensures var moved, load := Moved(req, db.lines[req.line]), LoadIn(db, req.target);
            Fits(db.overheadPct, db.containers[req.target], load.cbm + moved.cbm, load.kg + moved.kg)
            <==> TargetRoom(db, req)
  {
    hide LoadOf, Fits, Within;
    var moved, load := Moved(req, db.lines[req.line]), LoadIn(db, req.target);
    FitsIffWithin(db.overheadPct, db.containers[req.target], load.cbm + moved.cbm, load.kg + moved.kg);
  }

  lemma MayMoveIff(db: Db, req: Request)
    requires req.TransferLine?
    ensures MayMove(db, req) <==> req.planner || !HasApproved(db.plans, req.container)
  {
  }

  lemma TransferFacts(db: Db, req: Request)
    requires req.TransferLine?
    ensures NotBlank(req.reason) <==> !ReasonBlank(req.reason)
    ensures MayMove(db, req) <==> req.planner || !HasApproved(db.plans, req.container)
    ensures NamedByOverload(db, req.line) <==> Logged(db, req.line)
    ensures req.line in db.lines && req.target in db.containers ==>
      var moved, load := Moved(req, db.lines[req.line]), LoadIn(db, req.target);
      Fits(db.overheadPct, db.containers[req.target], load.cbm + moved.cbm, load.kg + moved.kg)
      <==> TargetRoom(db, req)
  {
    hide LoadOf, Fits, Moved, TargetRoom, MayMove, HasApproved, NotBlank, ReasonBlank, NamedByOverload, Logged;
    NotBlankIff(req.reason);
    MayMoveIff(db, req);
    NamedIsLogged(db, req.line);
    if req.line in db.lines && req.target in db.containers { TransferFits(db, req); }
  }

  /** TransferLine succeeds exactly when all of this holds, and otherwise the
      first thing that does not hold decides the error. */
  lemma TransferOutcome(db: Db, req: Request, seen: map<Id, SOLine>)
    requires req.TransferLine?
    ensures var r := Call(db, req, seen);
            if !TransferAsked(req) then r == Err(InvalidInput)
            else if !BothThere(db, req) then r == Err(NotFound)
            else if !BothWorking(db, req) then r == Err(InvalidTransition)
            else if !MayMove(db, req) then r == Err(PreconditionFailed)
            else if req.line !in db.lines then r == Err(NotFound)
            else if !OwnLine(db, req) || !AmountsOK(req, db.lines[req.line]) then r == Err(InvalidInput)
            else if !TargetRoom(db, req) then r == Err(InsufficientStock)
            else if !IdsFree(db, req) then r == Err(DbError)
            else r.Ok?
  {
    hide LoadOf, Fits, Moved, TargetRoom, MayMove, HasApproved, NotBlank, ReasonBlank, NamedByOverload, Logged,
         FlipIfOpen;
    TransferFacts(db, req);
  }

  /** What a successful transfer leaves behind. A part: the new line carries what
      was asked for, the old one keeps the rest. All of it: the line is at the
      target under its new id and the old id is gone. The audit row says how many
      pieces moved. An OPEN target becomes LOADING; nothing else changes. */
  lemma TransferEffect(db: Db, req: Request, seen: map<Id, SOLine>)
    requires req.TransferLine? && Call(db, req, seen).Ok?
    ensures req.line in db.lines
    ensures var db', was := Call(db, req, seen).value, db.lines[req.line];
            var whole := req.qty == 0 || req.qty == was.qty;
            var planned := exists p | p in db.plans ::
              db.plans[p].container == req.container && db.plans[p].status == Approved;
            && (!whole ==>
              db'.lines == db.lines
                [req.line := Line(req.container, was.sku, was.soLine,
                                  was.qty - req.qty, was.cbm - req.cbm, was.kg - req.kg)]
                [req.newLine := Line(req.target, was.sku, was.soLine, req.qty, req.cbm, req.kg)])
            && (whole ==>
              db'.lines == (db.lines - {req.line})
                [req.newLine := Line(req.target, was.sku, was.soLine, was.qty, was.cbm, was.kg)])
            && db'.transfers == db.transfers + [Transfer(req.container, req.target, req.line, was.sku,
                                                         if whole then was.qty else req.qty, planned)]
            && db' == Started(db, req.target, req.actor, req.now).(lines := db'.lines, transfers := db'.transfers)
  {
    hide LoadOf, Fits, ReasonBlank, Logged;
  }

  // ------------------------------------------------------------------------ Seal

  /** Pieces of an order line in a container. */
  function PiecesIn(db: Db, c: Id, so: Id): int { LoadOf(db.lines, Sel({c}, None, Some(so))).qty }

  predicate HasLines(db: Db, c: Id) { exists id | id in db.lines :: db.lines[id].container == c }

  /** For each order line in the container, what has been shipped of it and what
      is about to be is planned. */
  predicate Shippable(db: Db, c: Id) {
    forall id | id in db.lines && db.lines[id].container == c :: RoomToShip(db, c, db.lines[id].soLine)
  }

  predicate RoomToShip(db: Db, c: Id, so: Id) {
    so in db.soLines && db.soLines[so].shipped + PiecesIn(db, c, so) <= db.soLines[so].planned
  }

  predicate BeforeCutoff(db: Db, c: Id, now: int) {
    c in db.containers && (db.containers[c].cutoff.Some? ==> now <= db.containers[c].cutoff.value)
  }

  lemma ItemsOf(db: Db, c: Id, so: Id)
    ensures var items := ShipmentItems(Pick(db.lines, Just(c)));
            && ItemQty(items, so) == PiecesIn(db, c, so)
            && (so in items <==>
              exists id :: id in db.lines && db.lines[id].container == c && db.lines[id].soLine == so)
  {
    hide LoadOf, ShipmentItems;
    var rows := Pick(db.lines, Just(c));
    var sel := Sel({c}, None, Some(so));
    ItemsAreGroupedQuantities(rows, {c}, so);
    assert Pick(rows, sel) == Pick(db.lines, sel);
    SamePick(rows, db.lines, sel);
    ItemsCoverLines(rows, so);
    if id :| id in db.lines && db.lines[id].container == c && db.lines[id].soLine == so {
      assert id in rows && rows[id].soLine == so;
    }
  }

  function AllShipped(db: Db, c: Id): map<Id, SOLine> {
    map so | so in db.soLines :: db.soLines[so].(shipped := db.soLines[so].shipped + PiecesIn(db, c, so))
  }

  lemma ShipmentIff(db: Db, c: Id)
    ensures var items := ShipmentItems(Pick(db.lines, Just(c)));
            && (items != map[] <==> HasLines(db, c))
            && (RecordShipment(db.soLines, items).Some? <==> Shippable(db, c))
            && (Shippable(db, c) ==> RecordShipment(db.soLines, items).value == AllShipped(db, c))
  {
    hide ShipmentItems, PiecesIn, Pick;
    var items := ShipmentItems(Pick(db.lines, Just(c)));
    forall so: Id
      ensures ItemQty(items, so) == PiecesIn(db, c, so)
      ensures so in items <==> exists id :: id in db.lines && db.lines[id].container == c && db.lines[id].soLine == so
    {
      ItemsOf(db, c, so);
    }
    if HasLines(db, c) {
      var id :| id in db.lines && db.lines[id].container == c;
      assert db.lines[id].soLine in items;
    }
    if items != map[] {
      var so :| so in items;
      assert HasLines(db, c);
    }
    if Shippable(db, c) {
      forall so | so in items
        ensures so in db.soLines && db.soLines[so].shipped + items[so] <= db.soLines[so].planned
      {
        var id :| id in db.lines && db.lines[id].container == c && db.lines[id].soLine == so;
        assert RoomToShip(db, c, db.lines[id].soLine);
        assert ItemQty(items, so) == PiecesIn(db, c, so);
      }
    } else {
      var id :| id in db.lines && db.lines[id].container == c && !RoomToShip(db, c, db.lines[id].soLine);
      assert db.lines[id].soLine in items;
      assert ItemQty(items, db.lines[id].soLine) == PiecesIn(db, c, db.lines[id].soLine);
    }
  }

  /** Seal succeeds exactly when no exception is pending and no component missing,
      the container is being filled, its cutoff has not passed, it has a line and
      everything in it may be shipped; the first thing wrong decides the error. */
  lemma SealOutcome(db: Db, req: Request, seen: map<Id, SOLine>)
    requires req.Seal?
    ensures var r, c := Call(db, req, seen), req.container;
            if req.pendingExceptions > 0 || !req.componentsComplete then r == Err(PreconditionFailed)
            else if c !in db.containers then r == Err(NotFound)
            else if !Working(db, c) then r == Err(InvalidTransition)
            else if !BeforeCutoff(db, c, req.now) then r == Err(PreconditionFailed)
            else if !HasLines(db, c) || !Shippable(db, c) then r == Err(InvalidInput)
            else r.Ok?
  {
    ShipmentIff(db, req.container);
    hide ShipmentItems, RecordShipment, Pick, HasLines, Shippable;
  }

  /** What Seal leaves behind: every order line's shipped count raised by its
      pieces in the container, the container SEALED and stamped, a log row. */
  lemma SealEffect(db: Db, req: Request, seen: map<Id, SOLine>)
    requires req.Seal? && Call(db, req, seen).Ok?
    ensures req.container in db.containers
    ensures var c := db.containers[req.container];
            Call(db, req, seen).value == db.(
              soLines := AllShipped(db, req.container),
              containers := db.containers[req.container :=
                c.(status := Sealed, sealedAt := Some(req.now), sealedBy := Some(req.actor))],
              statusLog := db.statusLog + [StatusEntry(req.container, c.status, Sealed, req.actor, req.now)])
  {
    ShipmentIff(db, req.container);
    hide ShipmentItems, RecordShipment, Pick, HasLines, Shippable;
  }

  // ------------------------------------------------------- Reopen, Ship, Cancel

  /** The one status change a call makes, if the container is in a status it
      starts from. */
  function Shifted(db: Db, c: Id, to: Status, actor: Id, now: int): Db
    requires c in db.containers
  {
    var row := db.containers[c];
    var row' := if to == Loading then row.(status := to, sealedAt := None, sealedBy := None) else row.(status := to);
    db.(containers := db.containers[c := row'],
        statusLog := db.statusLog + [StatusEntry(c, row.status, to, actor, now)])
  }

  lemma ReopenOutcome(db: Db, req: Request, seen: map<Id, SOLine>)
    requires req.Reopen?
    ensures var r, c := Call(db, req, seen), req.container;
            if !NotBlank(req.reason) then r == Err(InvalidInput)
            else if c !in db.containers then r == Err(NotFound)
            else if db.containers[c].status != Sealed then r == Err(InvalidTransition)
            else r == Ok(Shifted(db, c, Loading, req.actor, req.now))
  {
    NotBlankIff(req.reason);
    hide NotBlank, ReasonBlank;
  }

  lemma ShipOutcome(db: Db, req: Request, seen: map<Id, SOLine>)
    requires req.Ship?
    ensures var r, c := Call(db, req, seen), req.container;
            if c !in db.containers then r == Err(NotFound)
            else if db.containers[c].status != Sealed then r == Err(InvalidTransition)
            else r == Ok(Shifted(db, c, Shipped, req.actor, req.now))
  {
  }

  lemma CancelOutcome(db: Db, req: Request, seen: map<Id, SOLine>)
    requires req.Cancel?
    ensures var r, c := Call(db, req, seen), req.container;
            if c !in db.containers then r == Err(NotFound)
            else if !Working(db, c) then r == Err(InvalidTransition)
            else r == Ok(Shifted(db, c, Cancelled, req.actor, req.now))
  {
  }

  // ---------------------------------------------------------- plans and approval

  /** A file is refused for a container that has it in an active plan already. */
  lemma UploadOutcome(db: Db, plan: Id, container: Id, hash: int, version: int)
    ensures var r := UploadPlan(db, plan, container, hash, version);
            if container == NIL then r == Err(InvalidInput)
            else if container !in db.containers then r == Err(NotFound)
            else if !Working(db, container) then r == Err(InvalidTransition)
            else if exists p :: p in db.plans && db.plans[p].container == container && db.plans[p].hash == hash
                      && db.plans[p].status in {Parsed, Validated, Approved}
            then r == Err(InvalidInput)
            else if plan in db.plans then r == Err(DbError)
            else r == Ok(db.(plans := db.plans[plan := Plan(container, hash, version, Parsed, None, None)]))
  {
    forall p | p in db.plans
      ensures Active(db.plans[p], container) && db.plans[p].hash == hash <==>
        db.plans[p].container == container && db.plans[p].hash == hash
        && db.plans[p].status in {Parsed, Validated, Approved}
    {
    }
  }

  /** A line of the container is named by the overload log. */
  predicate HasForced(db: Db, c: Id) {
    exists id | id in db.lines :: db.lines[id].container == c && NamedByOverload(db, id)
  }

  lemma LinesIff(db: Db, c: Id)
    ensures Pick(db.lines, Just(c)) != map[] <==> HasLines(db, c)
    ensures AnyLogged(db, c) <==> HasForced(db, c)
  {
    if HasLines(db, c) {
      var id :| id in db.lines && db.lines[id].container == c;
      assert id in Pick(db.lines, Just(c));
    }
    if id :| id in Pick(db.lines, Just(c)) && Logged(db, id) {
      NamedIsLogged(db, id);
      assert HasForced(db, c);
    }
    if id :| id in db.lines && db.lines[id].container == c && NamedByOverload(db, id) {
      NamedIsLogged(db, id);
      assert id in Pick(db.lines, Just(c));
    }
  }

  /** Lines are wiped only with consent: a container with lines gets no new plan
      unless the caller confirms. The first thing wrong decides the error. */
  lemma ApproveOutcome(db: Db, plan: Id, actor: Id, confirm: bool)
    ensures var r := ApprovePlan(db, plan, actor, confirm);
            if plan == NIL || actor == NIL then r == Err(InvalidInput)
            else if plan !in db.plans || db.plans[plan].container !in db.containers then r == Err(NotFound)
            else
              var p := db.plans[plan];
              if !Working(db, p.container) then r == Err(InvalidTransition)
              else if p.status == Approved then r == Ok(db)
              else if HasLines(db, p.container) && !confirm then r == Err(PreconditionFailed)
              else if p.status == Superseded then r == Err(InvalidTransition)
              else if HasForced(db, p.container) then r == Err(DbError)
              else r.Ok?
  {
    if plan in db.plans {
      LinesIff(db, db.plans[plan].container);
      if HasForced(db, db.plans[plan].container) { ForcedHasLines(db, db.plans[plan].container); }
    }
    hide Pick, AnyLogged, HasForced, HasLines, Promote, Wipe;
  }

  lemma ForcedHasLines(db: Db, c: Id)
    requires HasForced(db, c)
    ensures HasLines(db, c)
  {
  }

  /** What an approval leaves behind: the plan APPROVED by the caller, every other
      plan of the container that was not SUPERSEDED so by this one, no line of
      the container, and a history row for each that there was. */
  lemma ApproveEffect(db: Db, plan: Id, actor: Id, confirm: bool)
    requires ApprovePlan(db, plan, actor, confirm).Ok? && plan in db.plans && db.plans[plan].status != Approved
    ensures var db', c := ApprovePlan(db, plan, actor, confirm).value, db.plans[plan].container;
            && db'.plans == (map p | p in db.plans ::
              if p == plan then db.plans[p].(status := Approved, approvedBy := Some(actor))
              else if db.plans[p].container == c && db.plans[p].status != Superseded
              then db.plans[p].(status := Superseded, supersededBy := Some(plan))
              else db.plans[p])
            && db'.lines == (map id | id in db.lines && db.lines[id].container != c :: db.lines[id])
            && db' == db.(plans := db'.plans, lines := db'.lines, history := db'.history)
    ensures var db', c := ApprovePlan(db, plan, actor, confirm).value, db.plans[plan].container;
            Frozen(db.lines, c, plan, db.history, db'.history)
  {
    hide Snapshot;
    var c := db.plans[plan].container;
    var rows := Pick(db.lines, Just(c));
    SnapshotHolds(rows, plan);
    FrozenBy(db.lines, c, plan, db.history);
    LinesIff(db, c);
    if rows == map[] {
      assert db.history + Snapshot(rows, plan) == db.history by { EmptySnapshot(plan); }
      assert forall id :: id in db.lines ==> db.lines[id].container != c;
    }
  }

  /** The history grew by one row for each line of the container. */
  ghost predicate Frozen(lines: map<Id, Line>, c: Id, plan: Id, before: seq<HistoryRow>, after: seq<HistoryRow>) {
    && before <= after
    && (forall h :: h in after[|before|..] <==>
      h.line in lines && lines[h.line].container == c && h == HistoryRow(h.line, lines[h.line], plan))
    && (forall i, j :: |before| <= i < j < |after| ==> after[i].line != after[j].line)
  }

  lemma {:induction false} SnapshotHolds(rows: map<Id, Line>, plan: Id)
    ensures var s := Snapshot(rows, plan);
            && (forall h :: h in s <==> h.line in rows && h == HistoryRow(h.line, rows[h.line], plan))
            && (forall i, j :: 0 <= i < j < |s| ==> s[i].line != s[j].line)
    decreases |rows|
  {
    if rows != map[] {
      var k := Least(rows.Keys);
      SmallerMap(rows, k);
      SnapshotHolds(rows - {k}, plan);
    }
  }

  lemma EmptySnapshot(plan: Id)
    ensures Snapshot(map[], plan) == []
  {
  }

  lemma FrozenBy(lines: map<Id, Line>, c: Id, plan: Id, before: seq<HistoryRow>)
    ensures Frozen(lines, c, plan, before, before + Snapshot(Pick(lines, Just(c)), plan))
  {
    hide Snapshot;
    var rows := Pick(lines, Just(c));
    var s := Snapshot(rows, plan);
    SnapshotHolds(rows, plan);
    assert (before + s)[|before|..] == s;
  }

  /** A container is created with the capacities given, or those of its type. */
  lemma CreateOutcome(db: Db, id: Id, kind: ContainerType, cbm: real, kg: real, cutoff: Option<int>, creator: Id)
    ensures var r := CreateContainer(db, id, kind, cbm, kg, cutoff, creator);
            if kind == UnknownType || creator == NIL then r == Err(InvalidInput)
            else if id in db.containers then r == Err(DbError)
            else
              var usualCbm := if kind == GP20 then 33.2 else if kind == GP40 then 67.7 else 76.4;
              var usualKg := if kind == GP20 then 28000.0 else 26500.0;
              r == Ok(db.(containers := db.containers[id :=
                Container(if cbm > 0.0 then cbm else usualCbm, if kg > 0.0 then kg else usualKg,
                          Open, None, None, cutoff)]))
  {
  }
}
