/** What closing an exception takes and leaves behind, resolution by resolution,
    and what the carry-over lines of a run are for. */
module ExceptionRules {
  import opened Common
  import opened LoadingException

  // ----------------------------------------------------------------- the calls

  predicate StillOpen(db: Db, id: Id) { id in db.rows && db.rows[id].closedBy == None }

  /** Pieces that are missing: none when the row does not say. */
  function Missing(row: Row): int {
    match row.qty
    case Some(n) => n
    case None => 0
  }

  /** What an approval needs beyond an open exception: a backorder a parent line,
      pieces and the sales module's line; a substitution a SKU that exists. */
  function Lacks(db: Db, req: Request): Option<Error>
    requires req.Approve? && req.id in db.rows
  {
    if req.resolution == Backorder then
      if req.parent == None then Some(InvalidInput)
      else if req.makeCarryOver == None then Some(PreconditionFailed)
      else if Missing(db.rows[req.id]) <= 0 then Some(InvalidInput)
      else match req.makeCarryOver.value case Err(e) => Some(e) case Ok(_) => None
    else if req.resolution == SubstituteAccepted then
      if req.substitute == None then Some(InvalidInput) else req.skuError
    else None
  }

  lemma ApproveError(db: Db, req: Request)
    requires req.Approve?
    ensures var r := ApproveCall(db, req).error;
            if req.resolution == UnknownResolution || req.actor == NIL then r == Some(InvalidInput)
            else if req.id !in db.rows then r == Some(NotFound)
            else if !StillOpen(db, req.id) then r == Some(InvalidTransition)
            else if Lacks(db, req).Some? then r == Lacks(db, req)
            else if !req.commits then r == Some(DbError)
            else r == None
  {
  }

  /** What a successful approval leaves behind: the row closed by the caller with
      the resolution and notes, a backorder with its order line, a substitution
      with its SKU; and for a backorder one carry-over of the missing pieces. */
  lemma ApproveEffect(db: Db, req: Request)
    requires req.Approve? && ApproveCall(db, req).error == None
    ensures req.id in db.rows
    ensures var db', row := ApproveCall(db, req).db, db.rows[req.id];
            && db'.rows == db.rows[req.id := Row(
                 row.container, row.qty, row.createdAt, Some(req.actor), Some(req.resolution), req.notes,
                 if req.resolution == Backorder && req.makeCarryOver.Some? && req.makeCarryOver.value.Ok?
                 then Some(req.makeCarryOver.value.value) else None,
                 if req.resolution == SubstituteAccepted then req.substitute else None)]
            && (req.resolution == Backorder ==>
              && req.makeCarryOver.Some? && req.makeCarryOver.value.Ok? && Missing(row) > 0
              && db'.carryOvers
                 == db.carryOvers + [CarryOver(req.id, Missing(row), req.makeCarryOver.value.value)])
            && (req.resolution != Backorder ==> db'.carryOvers == db.carryOvers)
  {
  }

  /** A failed approval changes no row; it leaves a carry-over exactly when it
      was lost after the order line had been made. */
  lemma FailedApproval(db: Db, req: Request)
    requires req.Approve? && ApproveCall(db, req).error != None
    ensures ApproveCall(db, req).db.rows == db.rows
    ensures ApproveCall(db, req).db.carryOvers != db.carryOvers <==>
      && req.resolution == Backorder && req.actor != NIL && StillOpen(db, req.id)
      && Lacks(db, req) == None && !req.commits
  {
  }

  lemma RejectOutcome(db: Db, req: Request)
    requires req.Reject?
    ensures var r := RejectCall(db, req);
            if req.reason == "" || req.actor == NIL then r == Reply(db, Some(InvalidInput))
            else if req.id !in db.rows then r == Reply(db, Some(NotFound))
            else if !StillOpen(db, req.id) then r == Reply(db, Some(InvalidTransition))
            else if !req.commits then r == Reply(db, Some(DbError))
            else r == Reply(db.(rows := db.rows[req.id := db.rows[req.id].(
              closedBy := Some(req.actor), resolution := None, notes := req.reason)]), None)
  {
  }

  lemma CreateOutcome(db: Db, req: Request)
    requires req.Create?
    ensures var r := CreateCall(db, req);
            if !req.validType || req.container == NIL || req.reason == "" || req.actor == NIL
            then r == Reply(db, Some(InvalidInput))
            else if req.skuError != None then r == Reply(db, req.skuError)
            else if req.id in db.rows || (req.qty.Some? && req.qty.value < 0) then r == Reply(db, Some(DbError))
            else r == Reply(db.(rows := db.rows[req.id :=
              Row(req.container, req.qty, req.now, None, None, "", None, None)]), None)
  {
  }

  // -------------------------------------------------------- carry-overs over a run

  /** The carry-over is for the missing pieces of an exception there is. */
  predicate ForMissing(db: Db, c: CarryOver) {
    c.exc in db.rows && db.rows[c.exc].qty == Some(c.qty) && c.qty > 0
  }

  /** A backordered exception names a line that was made for it. */
  ghost predicate NamesItsLine(db: Db, id: Id) {
    id in db.rows && db.rows[id].resolution == Some(Backorder) ==>
      exists c :: c in db.carryOvers && c.exc == id && db.rows[id].carryOver == Some(c.soLine)
  }

  ghost predicate CarryOversOK(db: Db) {
    && (forall c :: c in db.carryOvers ==> ForMissing(db, c))
    && (forall id :: NamesItsLine(db, id))
  }

  lemma ApproveKeepsCarryOvers(db: Db, req: Request)
    requires CarryOversOK(db) && req.Approve?
    ensures CarryOversOK(ApproveCall(db, req).db)
  {
    var db' := ApproveCall(db, req).db;
    if ApproveCall(db, req).error == None {
      ApproveEffect(db, req);
      hide ApproveCall;
      forall c | c in db'.carryOvers
        ensures ForMissing(db', c)
      {
        if c in db.carryOvers { assert ForMissing(db, c); }
      }
      forall id: Id
        ensures NamesItsLine(db', id)
      {
        LineStaysNamed(db, db', id);
        if id == req.id && req.resolution == Backorder {
          var made := CarryOver(req.id, Missing(db.rows[req.id]), req.makeCarryOver.value.value);
          assert made in db'.carryOvers;
        }
      }
    } else {
      LostKeepsCarryOvers(db, req);
    }
  }

  lemma LineStaysNamed(db: Db, db': Db, id: Id)
    requires NamesItsLine(db, id) && db.carryOvers <= db'.carryOvers
    ensures id in db.rows && id in db'.rows && db'.rows[id] == db.rows[id] ==> NamesItsLine(db', id)
  {
    if id in db.rows && db.rows[id].resolution == Some(Backorder) {
      var c :| c in db.carryOvers && c.exc == id && db.rows[id].carryOver == Some(c.soLine);
      assert c in db'.carryOvers;
    }
  }

  lemma LostKeepsCarryOvers(db: Db, req: Request)
    requires CarryOversOK(db) && req.Approve? && ApproveCall(db, req).error != None
    ensures CarryOversOK(ApproveCall(db, req).db)
  {
    var db' := ApproveCall(db, req).db;
    assert db'.rows == db.rows && db.carryOvers <= db'.carryOvers;
    forall c | c in db'.carryOvers
      ensures ForMissing(db', c)
    {
      if c in db.carryOvers { assert ForMissing(db, c); }
    }
    forall id: Id
      ensures NamesItsLine(db', id)
    {
      LineStaysNamed(db, db', id);
    }
  }

  lemma OthersKeepCarryOvers(db: Db, req: Request)
    requires CarryOversOK(db) && !req.Approve?
    ensures CarryOversOK(Call(db, req).db)
  {
    var db' := Call(db, req).db;
    if req.Reject? { RejectOutcome(db, req); } else { CreateOutcome(db, req); }
    forall c | c in db'.carryOvers
      ensures ForMissing(db', c)
    {
      assert ForMissing(db, c);
    }
    forall id: Id
      ensures NamesItsLine(db', id)
    {
      LineStaysNamed(db, db', id);
    }
  }

  lemma {:induction false} RunKeepsCarryOvers(db: Db, reqs: seq<Request>)
    requires CarryOversOK(db)
    ensures CarryOversOK(Run(db, reqs))
  {
    if reqs != [] {
      hide CarryOversOK;
      var n := |reqs| - 1;
      RunKeepsCarryOvers(db, reqs[..n]);
      if reqs[n].Approve? { ApproveKeepsCarryOvers(Run(db, reqs[..n]), reqs[n]); }
      else { OthersKeepCarryOvers(Run(db, reqs[..n]), reqs[n]); }
    }
  }

  /** In every run each order line made for an exception is for as many pieces as
      the exception says are missing, and an exception closed as a backorder names
      one that was made for it. */
  lemma CarryOversAreForMissing(reqs: seq<Request>)
    ensures CarryOversOK(Run(Empty, reqs))
  {
    hide Run;
    RunKeepsCarryOvers(Empty, reqs);
  }
}
