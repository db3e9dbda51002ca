/** The loading exception service on its tables. */
module LoadingExceptionStore {
  import opened Common
  import opened LoadingException

  /** The order of the pending query: oldest first, ties by id. */
  predicate Older(db: Db, a: Id, b: Id) {
    a in db.rows && b in db.rows
    && (db.rows[a].createdAt < db.rows[b].createdAt || (db.rows[a].createdAt == db.rows[b].createdAt && a < b))
  }

  predicate Oldest(db: Db, ids: set<Id>, k: Id) {
    k in ids && forall x | x in ids :: x != k ==> Older(db, k, x)
  }

  lemma {:induction false} OldestExists(db: Db, ids: set<Id>)
    requires ids != {} && ids <= db.rows.Keys
    ensures exists k :: Oldest(db, ids, k)
    decreases ids
  {
    var a :| a in ids;
    var rest := ids - {a};
    if rest == {} {
      assert ids == {a};
      assert Oldest(db, ids, a);
    } else {
      OldestExists(db, rest);
      var b :| Oldest(db, rest, b);
      assert ids == rest + {a};
      assert Oldest(db, ids, a) || Oldest(db, ids, b);
    }
  }

  ghost predicate InOrder(db: Db, ids: seq<Id>) { forall i, j :: 0 <= i < j < |ids| ==> Older(db, ids[i], ids[j]) }

  class Store {
    var rows: map<Id, Row>
    var carryOvers: seq<CarryOver>

    function State(): Db
      reads this
    {
      Db(rows, carryOvers)
    }

    constructor ()
      ensures State() == Empty
    {
      rows, carryOvers := map[], [];
    }

    /** UPDATE ... WHERE approved_by IS NULL; no row hit is an error. */
    method GuardedUpdate(id: Id, row: Row) returns (err: Option<Error>)
      modifies this`rows
      ensures err == if Pending(old(State()), id) then None else Some(InvalidTransition)
      ensures rows == if err.None? then old(rows)[id := row] else old(rows)
    {
      if id !in rows || rows[id].closedBy.Some? { return Some(InvalidTransition); }
      rows := rows[id := row];
      return None;
    }

    method CreateOne(req: Request) returns (err: Option<Error>)
      requires req.Create?
      modifies this`rows
      ensures Reply(State(), err) == CreateCall(old(State()), req)
    {
      if !req.validType { return Some(InvalidInput); }
      if req.container == NIL { return Some(InvalidInput); }
      if req.reason == "" { return Some(InvalidInput); }
      if req.actor == NIL { return Some(InvalidInput); }
      if req.skuError.Some? { return req.skuError; }
      if req.id in rows { return Some(DbError); }
      if req.qty.Some? && req.qty.value < 0 { return Some(DbError); }
      rows := rows[req.id := Row(req.container, req.qty, req.now, None, None, "", None, None)];
      return None;
    }

    method ApproveOne(req: Request) returns (err: Option<Error>)
      requires req.Approve?
      modifies this
      ensures Reply(State(), err) == ApproveCall(old(State()), req)
    {
      if req.resolution == UnknownResolution { return Some(InvalidInput); }
      if req.actor == NIL { return Some(InvalidInput); }
      if req.id !in rows { return Some(NotFound); }
      var current := rows[req.id];
      if current.closedBy.Some? { return Some(InvalidTransition); }
      var carryOver, substitute: Option<Id> := None, None;
      match req.resolution {
        case Backorder =>
          if req.parent.None? { return Some(InvalidInput); }
          if req.makeCarryOver.None? { return Some(PreconditionFailed); }
          var qty := if current.qty.Some? then current.qty.value else 0;
          if qty <= 0 { return Some(InvalidInput); }
          if req.makeCarryOver.value.Err? { return Some(req.makeCarryOver.value.error); }
          carryOvers := carryOvers + [CarryOver(req.id, qty, req.makeCarryOver.value.value)];
          carryOver := Some(req.makeCarryOver.value.value);
        case SubstituteAccepted =>
          if req.substitute.None? { return Some(InvalidInput); }
          if req.skuError.Some? { return req.skuError; }
          substitute := req.substitute;
        case _ =>
      }
      var before := rows;
      err := GuardedUpdate(req.id, Closed(current, req.actor, Some(req.resolution), req.notes, carryOver, substitute));
      if !req.commits {
        rows := before;
        return Some(DbError);
      }
    }

    method RejectOne(req: Request) returns (err: Option<Error>)
      requires req.Reject?
      modifies this`rows
      ensures Reply(State(), err) == RejectCall(old(State()), req)
    {
      if req.reason == "" { return Some(InvalidInput); }
      if req.actor == NIL { return Some(InvalidInput); }
      if req.id !in rows { return Some(NotFound); }
      var current := rows[req.id];
      if current.closedBy.Some? { return Some(InvalidTransition); }
      var before := rows;
      err := GuardedUpdate(req.id,
        Closed(current, req.actor, None, req.reason, current.carryOver, current.substitute));
      if !req.commits {
        rows := before;
        return Some(DbError);
      }
    }

    /** At most fifty ids, and no resolution that needs more than the id. */
    method BulkApprove(ids: seq<Id>, t: Terms, commits: seq<bool>)
      returns (r: Result<(seq<Id>, seq<Failed>)>)
      requires |commits| == |ids|
      modifies this
      ensures r.Ok? <==>
        0 < |ids| <= 50 && t.actor != NIL && t.resolution in {CancelFromOrder, WriteOff, DeferToNext}
      ensures r.Err? ==> r.error == InvalidInput && State() == old(State())
      ensures r.Ok? ==>
        var b := BulkRun(old(State()), ids, t, commits);
        r.value == (b.approved, b.failed) && State() == b.db
    {
      if |ids| == 0 || |ids| > 50 { return Err(InvalidInput); }
      if t.actor == NIL || t.resolution == UnknownResolution { return Err(InvalidInput); }
      if t.resolution == Backorder || t.resolution == SubstituteAccepted { return Err(InvalidInput); }
      var approved: seq<Id>, failed: seq<Failed> := [], [];
      for i := 0 to |ids|
        invariant BulkRun(old(State()), ids[..i], t, commits[..i]) == Bulk(State(), approved, failed)
      {
        assert ids[..i + 1][..i] == ids[..i] && commits[..i + 1][..i] == commits[..i];
        var err := ApproveOne(OneOf(t, ids[i], commits[i]));
        if err.Some? {
          failed := failed + [Failed(ids[i], Classify(err.value))];
          continue;
        }
        approved := approved + [ids[i]];
      }
      assert ids[..|ids|] == ids && commits[..|ids|] == commits;
      return Ok((approved, failed));
    }

    /** Collects the pending ids of a container in query order. */
    method PendingForContainer(c: Id) returns (r: Result<(seq<Id>, nat)>)
      ensures r.Err? <==> c == NIL
      ensures r.Err? ==> r.error == InvalidInput
      ensures r.Ok? ==>
        var (ids, count) := r.value;
        && (forall id :: id in ids <==> id in PendingIn(State(), c))
        && (forall i, j :: 0 <= i < j < |ids| ==>
          && ids[i] in rows && ids[j] in rows
          && (rows[ids[i]].createdAt < rows[ids[j]].createdAt
              || (rows[ids[i]].createdAt == rows[ids[j]].createdAt && ids[i] < ids[j])))
        && count == |PendingIn(State(), c)|
    {
      if c == NIL { return Err(InvalidInput); }
      var left := PendingIn(State(), c);
      var ids: seq<Id> := [];
      while left != {}
        invariant left <= PendingIn(State(), c)
        invariant forall id :: id in ids <==> id in PendingIn(State(), c) - left
        invariant InOrder(State(), ids)
        invariant forall a, b :: a in ids && b in left ==> Older(State(), a, b)
        invariant |ids| + |left| == |PendingIn(State(), c)|
        decreases left
      {
        OldestExists(State(), left);
        var k :| k in left && Oldest(State(), left, k);
        ids := ids + [k];
        left := left - {k};
      }
      return Ok((ids, |ids|));
    }
  }
}
