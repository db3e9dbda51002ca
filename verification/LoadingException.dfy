/** Loading exceptions: raised while a container is loaded, closed once by an
    approval or a rejection, one by one or in bulk. */
module LoadingException {
  import opened Common

  datatype Resolution = Backorder | CancelFromOrder | SubstituteAccepted | WriteOff | DeferToNext | UnknownResolution

  datatype Row = Row(container: Id, qty: Option<int>, createdAt: int, closedBy: Option<Id>,
                     resolution: Option<Resolution>, notes: string,
                     carryOver: Option<Id>, substitute: Option<Id>)

  datatype CarryOver = CarryOver(exc: Id, qty: int, soLine: Id)

  /** carryOvers are the order lines the sales module has made for backorders, in
      a transaction of its own. */
  datatype Db = Db(rows: map<Id, Row>, carryOvers: seq<CarryOver>)

  /** A call's effect on the tables and the error it reports, if any. */
  datatype Reply = Reply(db: Db, error: Option<Error>)

  // ------------------------------------------------------------------- requests

  /** skuError is how looking the SKU up failed, if it did; makeCarryOver is the
      sales module's answer, None when it is not wired in; commits is false when
      the connection is lost before COMMIT. */
  datatype Request =
    | Create(id: Id, container: Id, validType: bool, skuError: Option<Error>, qty: Option<int>, reason: string,
             actor: Id, now: int)
    | Approve(id: Id, resolution: Resolution, notes: string, actor: Id, parent: Option<Id>, substitute: Option<Id>,
              skuError: Option<Error>, makeCarryOver: Option<Result<Id>>, commits: bool)
    | Reject(id: Id, reason: string, actor: Id, commits: bool)

  predicate Pending(db: Db, id: Id) { id in db.rows && db.rows[id].closedBy.None? }

  /** lockForUpdate and the check on approved_by. */
  function CheckOpen(db: Db, id: Id): Option<Error> {
    if id !in db.rows then Some(NotFound)
    else if db.rows[id].closedBy.Some? then Some(InvalidTransition)
    else None
  }

  function Closed(row: Row, actor: Id, resolution: Option<Resolution>, notes: string,
                  carryOver: Option<Id>, substitute: Option<Id>): Row {
    row.(closedBy := Some(actor), resolution := resolution, notes := notes,
         carryOver := carryOver, substitute := substitute)
  }

  function Write(db: Db, id: Id, row: Row, commits: bool): Reply {
    if commits then Reply(db.(rows := db.rows[id := row]), None) else Reply(db, Some(DbError))
  }

  function BackorderQty(row: Row): int { if row.qty.Some? then row.qty.value else 0 }

  function ApproveBackorder(db: Db, req: Request, row: Row): Reply
    requires req.Approve?
  {
    if req.parent.None? then Reply(db, Some(InvalidInput))
    else if req.makeCarryOver.None? then Reply(db, Some(PreconditionFailed))
    else if BackorderQty(row) <= 0 then Reply(db, Some(InvalidInput))
    else
      match req.makeCarryOver.value
      case Err(e) => Reply(db, Some(e))
      case Ok(soLine) =>
        var made := db.(carryOvers := db.carryOvers + [CarryOver(req.id, BackorderQty(row), soLine)]);
        Write(made, req.id, Closed(row, req.actor, Some(Backorder), req.notes, Some(soLine), None), req.commits)
  }

  function ApproveCall(db: Db, req: Request): Reply
    requires req.Approve?
  {
    if req.resolution == UnknownResolution || req.actor == NIL then Reply(db, Some(InvalidInput))
    else if CheckOpen(db, req.id).Some? then Reply(db, CheckOpen(db, req.id))
    else
      var row := db.rows[req.id];
      match req.resolution
      case Backorder => ApproveBackorder(db, req, row)
      case SubstituteAccepted =>
        if req.substitute.None? then Reply(db, Some(InvalidInput))
        else if req.skuError.Some? then Reply(db, req.skuError)
        else
          var closed := Closed(row, req.actor, Some(req.resolution), req.notes, None, req.substitute);
          Write(db, req.id, closed, req.commits)
      case _ =>
        Write(db, req.id, Closed(row, req.actor, Some(req.resolution), req.notes, None, None), req.commits)
  }

  function RejectCall(db: Db, req: Request): Reply
    requires req.Reject?
  {
    if req.reason == "" || req.actor == NIL then Reply(db, Some(InvalidInput))
    else if CheckOpen(db, req.id).Some? then Reply(db, CheckOpen(db, req.id))
    else
      var row := db.rows[req.id];
      Write(db, req.id, Closed(row, req.actor, None, req.reason, row.carryOver, row.substitute), req.commits)
  }

  /** The SKU is looked up after all other checks, and its error passed on. */
  function CreateCall(db: Db, req: Request): Reply
    requires req.Create?
  {
    if !req.validType || req.container == NIL || req.reason == "" || req.actor == NIL
    then Reply(db, Some(InvalidInput))
    else if req.skuError.Some? then Reply(db, req.skuError)
    else if req.id in db.rows || (req.qty.Some? && req.qty.value < 0) then Reply(db, Some(DbError))
    else Reply(db.(rows := db.rows[req.id := Row(req.container, req.qty, req.now, None, None, "", None, None)]), None)
  }

  function Call(db: Db, req: Request): Reply {
    match req
    case Create(_, _, _, _, _, _, _, _) => CreateCall(db, req)
    case Approve(_, _, _, _, _, _, _, _, _) => ApproveCall(db, req)
    case Reject(_, _, _, _) => RejectCall(db, req)
  }

  function Run(db: Db, reqs: seq<Request>): Db {
    if reqs == [] then db else Call(Run(db, reqs[..|reqs| - 1]), reqs[|reqs| - 1]).db
  }

  const Empty := Db(map[], [])

  // ------------------------------------------------------------- closed just once

  predicate Closes(db: Db, req: Request, id: Id) { Pending(db, id) && !Pending(Call(db, req).db, id) }

  /** How often a run closes an exception. */
  function Closings(db: Db, reqs: seq<Request>, id: Id): nat {
    if reqs == [] then 0
    else
      var n := |reqs| - 1;
      Closings(db, reqs[..n], id) + if Closes(Run(db, reqs[..n]), reqs[n], id) then 1 else 0
  }

  lemma CallFreezes(db: Db, req: Request, id: Id)
    requires id in db.rows
    ensures id in Call(db, req).db.rows
    ensures Call(db, req).db.rows[id] != db.rows[id] ==>
      && Pending(db, id) && !Pending(Call(db, req).db, id)
      && !req.Create? && req.id == id && Call(db, req).error.None?
  {
  }

  /** A closed exception never changes again, whoever calls what. */
  lemma {:induction false} ClosedForever(db: Db, reqs: seq<Request>, id: Id)
    requires id in db.rows && db.rows[id].closedBy.Some?
    ensures id in Run(db, reqs).rows && Run(db, reqs).rows[id] == db.rows[id]
  {
    if reqs != [] {
      var n := |reqs| - 1;
      ClosedForever(db, reqs[..n], id);
      CallFreezes(Run(db, reqs[..n]), reqs[n], id);
    }
  }

  /** No exception is closed twice in any run; one that exists at the start is
      closed in it exactly when it was pending before and is not afterwards. */
  lemma {:induction false} ClosedAtMostOnce(db: Db, reqs: seq<Request>, id: Id)
    ensures Closings(db, reqs, id) <= 1
    ensures Closings(db, reqs, id) == 1 ==> id in Run(db, reqs).rows && !Pending(Run(db, reqs), id)
    ensures id in db.rows ==>
      (Closings(db, reqs, id) == 1 <==> Pending(db, id) && !Pending(Run(db, reqs), id)) && id in Run(db, reqs).rows
  {
    if reqs != [] {
      hide Call;
      var n := |reqs| - 1;
      var mid := Run(db, reqs[..n]);
      ClosedAtMostOnce(db, reqs[..n], id);
      if id in db.rows && db.rows[id].closedBy.Some? { ClosedForever(db, reqs[..n], id); }
      if id in mid.rows { CallFreezes(mid, reqs[n], id); }
    }
  }

  // --------------------------------------------------------------- row constraints

  /** The CHECK constraints of the table: a backorder names its order line, a
      substitution its SKU, nothing else does, and pending rows have neither. */
  predicate RowOK(row: Row) {
    && (row.resolution == Some(Backorder) <==> row.carryOver.Some?)
    && (row.resolution == Some(SubstituteAccepted) <==> row.substitute.Some?)
    && (row.closedBy.None? ==> row.resolution.None?)
    && row.resolution != Some(UnknownResolution)
    && (row.resolution == Some(Backorder) ==> row.qty.Some? && row.qty.value > 0)
  }

  ghost predicate RowsOK(db: Db) { forall id :: id in db.rows ==> RowOK(db.rows[id]) }

  lemma {:induction false} ConstraintsNeverFire(db: Db, reqs: seq<Request>)
    requires RowsOK(db)
    ensures RowsOK(Run(db, reqs))
  {
    if reqs != [] {
      ConstraintsNeverFire(db, reqs[..|reqs| - 1]);
      CallKeepsRows(Run(db, reqs[..|reqs| - 1]), reqs[|reqs| - 1]);
    }
  }

  lemma CallKeepsRows(db: Db, req: Request)
    requires RowsOK(db)
    ensures RowsOK(Call(db, req).db)
  {
  }

  // -------------------------------------------------------------------- carry-overs

  function CarryOversOf(made: seq<CarryOver>, id: Id): nat {
    if made == [] then 0
    else CarryOversOf(made[..|made| - 1], id) + if made[|made| - 1].exc == id then 1 else 0
  }

  /** A backorder approval that lost its connection after the sales module had
      already made the order line. */
  predicate Orphans(db: Db, req: Request, id: Id) {
    req.Approve? && req.id == id && !req.commits && Call(db, req).db.carryOvers != db.carryOvers
  }

  function OrphansIn(db: Db, reqs: seq<Request>, id: Id): nat {
    if reqs == [] then 0
    else
      var n := |reqs| - 1;
      OrphansIn(db, reqs[..n], id) + if Orphans(Run(db, reqs[..n]), reqs[n], id) then 1 else 0
  }

  function Backordered(db: Db, id: Id): nat {
    if id in db.rows && db.rows[id].resolution == Some(Backorder) then 1 else 0
  }

  lemma CarryOverStep(db: Db, req: Request, id: Id)
    requires RowsOK(db)
    ensures var db' := Call(db, req).db;
            CarryOversOf(db'.carryOvers, id) - Backordered(db', id)
            == CarryOversOf(db.carryOvers, id) - Backordered(db, id) + if Orphans(db, req, id) then 1 else 0
  {
    var db' := Call(db, req).db;
    if db'.carryOvers != db.carryOvers {
      assert db'.carryOvers[..|db'.carryOvers| - 1] == db.carryOvers;
    }
  }

  /** The sales module is called inside the approval but commits by itself, so
      the two are not atomic. Over any run the order lines made for an exception
      are the one it was closed with, if it was closed as a backorder, and one
      more for each approval that was lost before its commit. */
  lemma {:induction false} CarryOverLedger(reqs: seq<Request>, id: Id)
    ensures var db := Run(Empty, reqs);
            CarryOversOf(db.carryOvers, id) == Backordered(db, id) + OrphansIn(Empty, reqs, id)
  {
    if reqs != [] {
      hide Call, Orphans, Backordered;
      var n := |reqs| - 1;
      CarryOverLedger(reqs[..n], id);
      ConstraintsNeverFire(Empty, reqs[..n]);
      CarryOverStep(Run(Empty, reqs[..n]), reqs[n], id);
    } else {
      assert Run(Empty, reqs) == Empty;
    }
  }

  lemma RunOnce(db: Db, reqs: seq<Request>, req: Request, id: Id)
    ensures Run(db, reqs + [req]) == Call(Run(db, reqs), req).db
    ensures OrphansIn(db, reqs + [req], id)
            == OrphansIn(db, reqs, id) + if Orphans(Run(db, reqs), req, id) then 1 else 0
  {
    assert (reqs + [req])[..|reqs|] == reqs;
  }

  function Retry(commits: bool, soLine: Id): Request {
    Approve(1, Backorder, "", 9, Some(5), None, None, Some(Ok(soLine)), commits)
  }

  /** An approval is lost before its commit and made again: the exception is
      closed once, but two order lines were made for it. */
  lemma BackorderedTwice()
    ensures var reqs := [Create(1, 2, true, None, Some(3), "short", 9, 0), Retry(false, 11), Retry(true, 12)];
            var db := Run(Empty, reqs);
            && Backordered(db, 1) == 1 && OrphansIn(Empty, reqs, 1) == 1
            && CarryOversOf(db.carryOvers, 1) == 2
  {
    var create, lost, made := Create(1, 2, true, None, Some(3), "short", 9, 0), Retry(false, 11), Retry(true, 12);
    assert [create, lost, made] == [] + [create] + [lost] + [made];
    assert Run(Empty, []) == Empty && OrphansIn(Empty, [], 1) == 0;
    RunOnce(Empty, [], create, 1);
    RunOnce(Empty, [] + [create], lost, 1);
    RunOnce(Empty, [] + [create] + [lost], made, 1);
    CarryOverLedger([create, lost, made], 1);
  }

  // ------------------------------------------------------------------ bulk approval

  datatype Code = CodeNotFound | CodeInvalidTransition | CodeInvalidInput | CodePreconditionFailed | CodeInternal

  function Classify(e: Error): Code {
    match e
    case NotFound => CodeNotFound
    case InvalidTransition => CodeInvalidTransition
    case InvalidInput => CodeInvalidInput
    case PreconditionFailed => CodePreconditionFailed
    case _ => CodeInternal
  }

  datatype Failed = Failed(id: Id, code: Code)

  datatype Bulk = Bulk(db: Db, approved: seq<Id>, failed: seq<Failed>)

  /** What all the approvals of a bulk call share. */
  datatype Terms = Terms(resolution: Resolution, notes: string, actor: Id)

  predicate BulkTerms(t: Terms) {
    t.actor != NIL && t.resolution in {CancelFromOrder, WriteOff, DeferToNext}
  }

  function OneOf(t: Terms, id: Id, commits: bool): Request {
    Approve(id, t.resolution, t.notes, t.actor, None, None, None, None, commits)
  }

  /** The ids are approved one after the other, each in its own transaction;
      commits[i] says whether the i-th one gets through. */
  function BulkRun(db: Db, ids: seq<Id>, t: Terms, commits: seq<bool>): Bulk
    requires |commits| == |ids|
  {
    if ids == [] then Bulk(db, [], [])
    else
      var n := |ids| - 1;
      var b := BulkRun(db, ids[..n], t, commits[..n]);
      var reply := ApproveCall(b.db, OneOf(t, ids[n], commits[n]));
      match reply.error
      case None => Bulk(reply.db, b.approved + [ids[n]], b.failed)
      case Some(e) => Bulk(reply.db, b.approved, b.failed + [Failed(ids[n], Classify(e))])
  }

  /** The i-th id was pending at the start and this is its first approval that
      commits. */
  predicate Wins(db: Db, ids: seq<Id>, commits: seq<bool>, i: nat)
    requires |commits| == |ids| && i < |ids|
  {
    Pending(db, ids[i]) && commits[i] && forall j | 0 <= j < i :: ids[j] == ids[i] ==> !commits[j]
  }

  /** The winning ids in input order. */
  function Winners(db: Db, ids: seq<Id>, commits: seq<bool>, n: nat): seq<Id>
    requires |commits| == |ids| && n <= |ids|
  {
    if n == 0 then []
    else Winners(db, ids, commits, n - 1) + if Wins(db, ids, commits, n - 1) then [ids[n - 1]] else []
  }

  lemma {:induction false} WinnersAre(db: Db, ids: seq<Id>, commits: seq<bool>, n: nat, id: Id)
    requires |commits| == |ids| && n <= |ids|
    ensures id in Winners(db, ids, commits, n)
      <==> Pending(db, id) && exists i :: 0 <= i < n && ids[i] == id && commits[i]
  {
    if n > 0 {
      WinnersAre(db, ids, commits, n - 1, id);
      if i :| 0 <= i < n && ids[i] == id && commits[i] {
        if i == n - 1 && !(exists j :: 0 <= j < n - 1 && ids[j] == id && commits[j]) && Pending(db, id) {
          assert Wins(db, ids, commits, n - 1);
        }
      }
    }
  }

  lemma {:induction false} WinnersPrefix(db: Db, ids: seq<Id>, commits: seq<bool>, n: nat)
    requires |commits| == |ids| && 0 < |ids| && n < |ids|
    ensures Winners(db, ids[..|ids| - 1], commits[..|ids| - 1], n) == Winners(db, ids, commits, n)
  {
    if n > 0 { WinnersPrefix(db, ids, commits, n - 1); }
  }

  function CloseAll(db: Db, closed: seq<Id>, t: Terms): Db {
    db.(rows := map id | id in db.rows ::
      if id in closed then Closed(db.rows[id], t.actor, Some(t.resolution), t.notes, None, None) else db.rows[id])
  }

  /** The bulk law: for any ids, with duplicates, missing and closed ones, the
      approved list is the winners in input order, exactly their rows are closed,
      and every other position is on the failed list. */
  lemma {:induction false} BulkLaw(db: Db, ids: seq<Id>, t: Terms, commits: seq<bool>)
    requires |commits| == |ids| && BulkTerms(t)
    ensures var b := BulkRun(db, ids, t, commits);
            && b.approved == Winners(db, ids, commits, |ids|)
            && b.db == CloseAll(db, b.approved, t)
            && |b.approved| + |b.failed| == |ids|
  {
    if ids != [] {
      BulkLaw(db, ids[..|ids| - 1], t, commits[..|ids| - 1]);
      BulkStep(db, ids, t, commits);
    } else {
      assert CloseAll(db, [], t).rows == db.rows;
    }
  }

  lemma BulkStep(db: Db, ids: seq<Id>, t: Terms, commits: seq<bool>)
    requires |commits| == |ids| && BulkTerms(t) && ids != []
    requires var n := |ids| - 1;
             var b := BulkRun(db, ids[..n], t, commits[..n]);
             && b.approved == Winners(db, ids[..n], commits[..n], n)
             && b.db == CloseAll(db, b.approved, t) && |b.approved| + |b.failed| == n
    ensures var b := BulkRun(db, ids, t, commits);
            && b.approved == Winners(db, ids, commits, |ids|)
            && b.db == CloseAll(db, b.approved, t)
            && |b.approved| + |b.failed| == |ids|
  {
    hide BulkRun, Winners;
    var n := |ids| - 1;
    var b := BulkRun(db, ids[..n], t, commits[..n]);
    WinnersPrefix(db, ids, commits, n);
    WinnersAre(db, ids, commits, n, ids[n]);
    UnfoldBulk(db, ids, t, commits);
    var w := Winners(db, ids, commits, n);
    assert Pending(b.db, ids[n]) && commits[n] <==> Wins(db, ids, commits, n);
    if Wins(db, ids, commits, n) {
      assert CloseAll(db, w + [ids[n]], t).rows
        == b.db.rows[ids[n] := Closed(b.db.rows[ids[n]], t.actor, Some(t.resolution), t.notes, None, None)];
    }
  }

  lemma UnfoldBulk(db: Db, ids: seq<Id>, t: Terms, commits: seq<bool>)
    requires |commits| == |ids| && ids != []
    ensures var n := |ids| - 1;
            var b := BulkRun(db, ids[..n], t, commits[..n]);
            var reply := ApproveCall(b.db, OneOf(t, ids[n], commits[n]));
            BulkRun(db, ids, t, commits) == match reply.error
              case None => Bulk(reply.db, b.approved + [ids[n]], b.failed)
              case Some(e) => Bulk(reply.db, b.approved, b.failed + [Failed(ids[n], Classify(e))])
    ensures Winners(db, ids, commits, |ids|) == Winners(db, ids, commits, |ids| - 1)
      + if Wins(db, ids, commits, |ids| - 1) then [ids[|ids| - 1]] else []
  {
  }

  /** No id is approved twice in one bulk call. */
  lemma {:induction false} WinnersDistinct(db: Db, ids: seq<Id>, commits: seq<bool>, n: nat)
    requires |commits| == |ids| && n <= |ids|
    ensures var w := Winners(db, ids, commits, n); forall i, j :: 0 <= i < j < |w| ==> w[i] != w[j]
  {
    if n > 0 {
      WinnersDistinct(db, ids, commits, n - 1);
      WinnersAre(db, ids, commits, n - 1, ids[n - 1]);
    }
  }

  /** When every transaction commits, the approved ids are exactly the first
      occurrences of those pending at the start, in input order. */
  lemma {:induction false} WinnersAreFirstOccurrences(db: Db, ids: seq<Id>, commits: seq<bool>, i: nat)
    requires |commits| == |ids| && i < |ids| && (forall j :: 0 <= j < |ids| ==> commits[j])
    ensures Wins(db, ids, commits, i) <==> Pending(db, ids[i]) && ids[i] !in ids[..i]
  {
    forall j | 0 <= j < i && ids[j] == ids[i]
      ensures ids[i] in ids[..i]
    {
      assert ids[..i][j] == ids[i];
    }
  }

  /** Why an id is refused after the given ones were approved. */
  function Refusal(db: Db, approved: seq<Id>, id: Id, commits: bool): Option<Code> {
    if id !in db.rows then Some(CodeNotFound)
    else if !Pending(db, id) || id in approved then Some(CodeInvalidTransition)
    else if !commits then Some(CodeInternal)
    else None
  }

  lemma FailedStep(db: Db, ids: seq<Id>, t: Terms, commits: seq<bool>)
    requires |commits| == |ids| && BulkTerms(t) && ids != []
    ensures var n := |ids| - 1;
            var b := BulkRun(db, ids[..n], t, commits[..n]);
            var code := Refusal(db, b.approved, ids[n], commits[n]);
            BulkRun(db, ids, t, commits).failed
            == if code.Some? then b.failed + [Failed(ids[n], code.value)] else b.failed
  {
    hide BulkRun, Winners, CloseAll, ApproveCall, CheckOpen, Pending;
    var n := |ids| - 1;
    var b := BulkRun(db, ids[..n], t, commits[..n]);
    BulkLaw(db, ids[..n], t, commits[..n]);
    UnfoldBulk(db, ids, t, commits);
    RefusalIsCode(db, b.approved, t, ids[n], commits[n]);
  }

  /** Why the i-th id is refused: missing, closed before or by an earlier position
      of the same call, or lost before its commit. */
  function RefusalAt(db: Db, ids: seq<Id>, commits: seq<bool>, i: nat): Option<Code>
    requires |commits| == |ids| && i < |ids|
  {
    if ids[i] !in db.rows then Some(CodeNotFound)
    else if !Pending(db, ids[i]) || (exists j | 0 <= j < i :: ids[j] == ids[i] && commits[j])
    then Some(CodeInvalidTransition)
    else if !commits[i] then Some(CodeInternal)
    else None
  }

  /** The refused positions in input order, with their codes. */
  function Refusals(db: Db, ids: seq<Id>, commits: seq<bool>, n: nat): seq<Failed>
    requires |commits| == |ids| && n <= |ids|
  {
    if n == 0 then []
    else
      var code := RefusalAt(db, ids, commits, n - 1);
      Refusals(db, ids, commits, n - 1) + if code.Some? then [Failed(ids[n - 1], code.value)] else []
  }

  lemma {:induction false} RefusalsPrefix(db: Db, ids: seq<Id>, commits: seq<bool>, n: nat)
    requires |commits| == |ids| && 0 < |ids| && n < |ids|
    ensures Refusals(db, ids[..|ids| - 1], commits[..|ids| - 1], n) == Refusals(db, ids, commits, n)
  {
    if n > 0 { RefusalsPrefix(db, ids, commits, n - 1); }
  }

  lemma RefusedAfterWinners(db: Db, ids: seq<Id>, commits: seq<bool>, n: nat)
    requires |commits| == |ids| && n < |ids|
    ensures Refusal(db, Winners(db, ids, commits, n), ids[n], commits[n]) == RefusalAt(db, ids, commits, n)
  {
    hide Winners;
    WinnersAre(db, ids, commits, n, ids[n]);
  }

  /** The failed list is fixed by the ids, the start and the outcomes of the
      commits: exactly the positions that are refused, in input order, each with
      its code. A position is on one of the two lists and on one only. */
  lemma {:induction false} FailureCodes(db: Db, ids: seq<Id>, t: Terms, commits: seq<bool>)
    requires |commits| == |ids| && BulkTerms(t)
    ensures BulkRun(db, ids, t, commits).failed == Refusals(db, ids, commits, |ids|)
    ensures forall i :: 0 <= i < |ids| ==> (Wins(db, ids, commits, i) <==> RefusalAt(db, ids, commits, i).None?)
  {
    if ids != [] {
      hide BulkRun, Refusals, RefusalAt, Wins;
      FailureCodes(db, ids[..|ids| - 1], t, commits[..|ids| - 1]);
      FailureCodesStep(db, ids, t, commits);
    }
    forall i | 0 <= i < |ids|
      ensures Wins(db, ids, commits, i) <==> RefusalAt(db, ids, commits, i).None?
    {
      WinOrRefusal(db, ids, commits, i);
    }
  }

  lemma FailureCodesStep(db: Db, ids: seq<Id>, t: Terms, commits: seq<bool>)
    requires |commits| == |ids| && BulkTerms(t) && ids != []
    requires var n := |ids| - 1;
             BulkRun(db, ids[..n], t, commits[..n]).failed == Refusals(db, ids[..n], commits[..n], n)
    ensures BulkRun(db, ids, t, commits).failed == Refusals(db, ids, commits, |ids|)
  {
    hide BulkRun, Winners, Refusal, RefusalAt, Wins, CloseAll;
    var n := |ids| - 1;
    FailedStep(db, ids, t, commits);
    BulkLaw(db, ids[..n], t, commits[..n]);
    WinnersPrefix(db, ids, commits, n);
    RefusedAfterWinners(db, ids, commits, n);
    RefusalsPrefix(db, ids, commits, n);
  }

  lemma WinOrRefusal(db: Db, ids: seq<Id>, commits: seq<bool>, i: nat)
    requires |commits| == |ids| && i < |ids|
    ensures Wins(db, ids, commits, i) <==> RefusalAt(db, ids, commits, i).None?
  {
  }

  lemma RefusalIsCode(db: Db, closed: seq<Id>, t: Terms, id: Id, commits: bool)
    requires BulkTerms(t)
    ensures var error := ApproveCall(CloseAll(db, closed, t), OneOf(t, id, commits)).error;
            Refusal(db, closed, id, commits) == if error.Some? then Some(Classify(error.value)) else None
  {
    hide CloseAll, ApproveCall;
    OpenAfterClosing(db, closed, t, id);
    ApproveError(CloseAll(db, closed, t), t, id, commits);
  }

  lemma OpenAfterClosing(db: Db, closed: seq<Id>, t: Terms, id: Id)
    ensures CheckOpen(CloseAll(db, closed, t), id) ==
      if id !in db.rows then Some(NotFound)
      else if !Pending(db, id) || id in closed then Some(InvalidTransition) else None
  {
  }

  lemma ApproveError(db: Db, t: Terms, id: Id, commits: bool)
    requires BulkTerms(t)
    ensures ApproveCall(db, OneOf(t, id, commits)).error ==
      if CheckOpen(db, id).Some? then CheckOpen(db, id) else if commits then None else Some(DbError)
  {
  }

  // ------------------------------------------------------------- pending summaries

  function PendingIn(db: Db, c: Id): set<Id> {
    set id | id in db.rows && db.rows[id].container == c && db.rows[id].closedBy.None?
  }

  /** The approved ids that belong to a container. */
  function ApprovedIn(db: Db, approved: seq<Id>, c: Id): set<Id> {
    set id | id in approved && id in db.rows && db.rows[id].container == c
  }

  /** A bulk call takes exactly the approved ids off the pending list of each
      container, and its count drops by as many. */
  lemma PendingDropsByApproved(db: Db, ids: seq<Id>, t: Terms, commits: seq<bool>, c: Id)
    requires |commits| == |ids| && BulkTerms(t)
    ensures var b := BulkRun(db, ids, t, commits);
            && PendingIn(b.db, c) == PendingIn(db, c) - ApprovedIn(db, b.approved, c)
            && |PendingIn(b.db, c)| == |PendingIn(db, c)| - |ApprovedIn(db, b.approved, c)|
  {
    hide BulkRun, Winners;
    var b := BulkRun(db, ids, t, commits);
    BulkLaw(db, ids, t, commits);
    forall id | id in ApprovedIn(db, b.approved, c)
      ensures id in PendingIn(db, c)
    {
      WinnersAre(db, ids, commits, |ids|, id);
    }
    assert PendingIn(db, c) == PendingIn(b.db, c) + ApprovedIn(db, b.approved, c);
    assert PendingIn(b.db, c) !! ApprovedIn(db, b.approved, c);
  }
}
