/** What a line and a posting of a cycle count take, and what the audit says. */
module CycleCountRules {
  import opened Common
  import opened CycleCount

  /** A session that may still be counted in and posted. */
  function SessionError(db: Db, session: Id): Option<Error> {
    if session !in db.sessions then Some(NotFound)
    else if db.sessions[session] in {SessionPosted, SessionCancelled} then Some(InvalidTransition)
    else None
  }

  predicate CountableStatus(e: Entity, status: string) {
    if e.SheetRow? then status == "AVAILABLE" || status == "ISSUED"
    else status == "AVAILABLE" || status == "ALLOCATED" || status == "CONSUMED" || status == "WASTE"
  }

  lemma LineOutcome(db: Db, line: Line, knownKind: bool)
    ensures var e := CheckLine(db, line, knownKind);
            if SessionError(db, line.session) != None then e == SessionError(db, line.session)
            else if !knownKind || |line.reason| == 0 || |line.reason| >= 256
                    || !CountableStatus(line.entity, line.counted.status)
            then e == Some(InvalidInput)
            else if line.entity !in db.stock then e == Some(NotFound)
            else e == None
  {
  }

  /** An entity is counted once in a session. */
  lemma InsertOutcome(db: Db, line: Line)
    ensures var r := InsertLine(db, line);
            if exists l :: l in db.lines && l.session == line.session && l.entity == line.entity
            then r == Err(PreconditionFailed)
            else r == Ok(db.(lines := db.lines + [line]))
  {
    if l :| l in db.lines && l.session == line.session && l.entity == line.entity {
      var i :| 0 <= i < |db.lines| && db.lines[i] == l;
      assert Counted(db.lines, line.session, line.entity);
    }
    if Counted(db.lines, line.session, line.entity) {
      var i :| 0 <= i < |db.lines| && db.lines[i].session == line.session && db.lines[i].entity == line.entity;
      assert db.lines[i] in db.lines;
    }
  }

  /** A posting is refused for a session that is not open, or when a counted row
      is gone, and for nothing else. */
  lemma PostOutcome(db: Db, session: Id, actor: Id)
    ensures var r := Post(db, session, actor);
            if SessionError(db, session) != None then r.Err? && Some(r.error) == SessionError(db, session)
            else if exists l :: l in LinesOf(db.lines, session) && l.entity !in db.stock then r == Err(NotFound)
            else r.Ok?
  {
    hide LinesOf, Replay;
    AdjustmentsFail(db.stock, LinesOf(db.lines, session));
  }

  lemma {:induction false} AdjustmentsFail(stock: map<Entity, Placed>, lines: seq<Line>)
    ensures Adjustments(stock, lines).Ok? <==> forall l :: l in lines ==> l.entity in stock
    ensures Adjustments(stock, lines).Err? ==> Adjustments(stock, lines).error == NotFound
  {
    if lines != [] {
      var n := |lines| - 1;
      AdjustmentsFail(stock, lines[..n]);
      assert lines == lines[..n] + [lines[n]];
    }
  }

  /** The lines that disagree with the stock. */
  function Differing(stock: map<Entity, Placed>, lines: seq<Line>): nat {
    if lines == [] then 0
    else
      var l := lines[|lines| - 1];
      Differing(stock, lines[..|lines| - 1])
      + if l.entity in stock && (stock[l.entity].status, stock[l.entity].location)
                                != (l.counted.status, l.counted.location)
        then 1 else 0
  }

  lemma {:induction false} AdjustmentsCount(stock: map<Entity, Placed>, lines: seq<Line>)
    requires Adjustments(stock, lines).Ok?
    ensures |Adjustments(stock, lines).value| == Differing(stock, lines)
  {
    if lines != [] { AdjustmentsCount(stock, lines[..|lines| - 1]); }
  }

  /** A posting writes one audit row for each line that disagrees, and each names
      the session, the actor, and the place before and after of its row. */
  lemma AuditNames(db: Db, session: Id, actor: Id, i: nat)
    requires UniqueLines(db.lines) && Post(db, session, actor).Ok?
    requires |db.audit| <= i < |Post(db, session, actor).value.audit|
    ensures var db' := Post(db, session, actor).value;
            var row := db'.audit[i];
            && |db'.audit| == |db.audit| + Differing(db.stock, LinesOf(db.lines, session))
            && row.session == session && row.actor == actor
            && row.change.entity in db.stock && row.change.before == db.stock[row.change.entity]
            && row.change.entity in db'.stock && row.change.after == db'.stock[row.change.entity]
            && row.change.before != row.change.after
  {
    hide Adjustments, LinesOf, Replay, UniqueLines, Unambiguous;
    var changes := PreparePost(db, session, actor).value.adjustments;
    AdjustmentsCount(db.stock, LinesOf(db.lines, session));
    PostIsUnambiguous(db, session, actor);
    AdjustmentsAre(db.stock, LinesOf(db.lines, session));
    var a := changes[i - |db.audit|];
    assert a in changes;
    ReplayAt(db.stock, changes, a.entity);
  }

  /** A posting that begins and finishes with nobody in between is the atomic one. */
  lemma SoloPost(s: Sys, t: nat, session: Id, actor: Id)
    requires t !in s.pending
    ensures After(After(s, EvBeginPost(t, session, actor)), EvFinish(t)).db
            == if Post(s.db, session, actor).Ok? then Post(s.db, session, actor).value else s.db
  {
    hide Adjustments, LinesOf, Replay, AuditRows;
  }

  /** So are a line and a cancellation: one adds the line if it passes the checks
      and is new to the session, the other closes a session that is open. */
  lemma SoloLineAndCancel(s: Sys, t: nat, line: Line, knownKind: bool, session: Id)
    requires t !in s.pending
    ensures After(After(s, EvBeginLine(t, line, knownKind)), EvFinish(t)).db
            == if CheckLine(s.db, line, knownKind) == None && InsertLine(s.db, line).Ok?
               then s.db.(lines := s.db.lines + [line]) else s.db
    ensures After(After(s, EvBeginCancel(t, session)), EvFinish(t)).db
            == if session in s.db.sessions && SessionError(s.db, session) == None
               then s.db.(sessions := s.db.sessions[session := SessionCancelled]) else s.db
  {
    hide Counted, ValidStatus;
  }
}
