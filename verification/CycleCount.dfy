/** Cycle counts: a session collects what was found on the shelves, posting it
    sets status and location of every counted row and writes an audit row each. */
module CycleCount {
  import opened Common

  datatype Entity = RemnantRow(id: Id) | SheetRow(id: Id)

  /** Status and bin location of a stock row. */
  datatype Placed = Placed(status: string, location: Option<Id>)

  datatype SessionStatus = SessionOpen | SessionPosted | SessionCancelled

  datatype Line = Line(session: Id, entity: Entity, counted: Placed, reason: string)

  datatype Adjustment = Adjustment(entity: Entity, before: Placed, after: Placed)

  datatype AuditRow = AuditRow(session: Id, actor: Id, change: Adjustment)

  datatype Db = Db(stock: map<Entity, Placed>, sessions: map<Id, SessionStatus>, lines: seq<Line>, audit: seq<AuditRow>)

  // ---------------------------------------------------------------- adding lines

  predicate ValidStatus(e: Entity, status: string) {
    match e
    case RemnantRow(_) => status in {"AVAILABLE", "ALLOCATED", "CONSUMED", "WASTE"}
    case SheetRow(_) => status in {"AVAILABLE", "ISSUED"}
  }

  predicate Open(db: Db, session: Id) { session in db.sessions && db.sessions[session] == SessionOpen }

  function CheckSession(db: Db, session: Id): Option<Error> {
    if session !in db.sessions then Some(NotFound)
    else if db.sessions[session] != SessionOpen then Some(InvalidTransition)
    else None
  }

  /** AddCycleCountLine up to its INSERT; knownKind is false for an entity_type
      other than REMNANT and BOARD_SHEET. */
  function CheckLine(db: Db, line: Line, knownKind: bool): Option<Error> {
    if CheckSession(db, line.session).Some? then CheckSession(db, line.session)
    else if !knownKind || line.reason == "" || |line.reason| > 255 || !ValidStatus(line.entity, line.counted.status)
    then Some(InvalidInput)
    else if line.entity !in db.stock then Some(NotFound)
    else None
  }

  predicate Counted(lines: seq<Line>, session: Id, e: Entity) {
    exists i :: 0 <= i < |lines| && lines[i].session == session && lines[i].entity == e
  }

  function InsertLine(db: Db, line: Line): Result<Db> {
    if Counted(db.lines, line.session, line.entity) then Err(PreconditionFailed)
    else Ok(db.(lines := db.lines + [line]))
  }

  // -------------------------------------------------------------------- posting

  function LinesOf(lines: seq<Line>, session: Id): seq<Line> {
    if lines == [] then []
    else
      var n := |lines| - 1;
      LinesOf(lines[..n], session) + if lines[n].session == session then [lines[n]] else []
  }

  /** What PostCycleCount computes from its unlocked reads: a line that agrees
      with the row needs no adjustment; a row that is gone is an error. */
  function Adjustments(stock: map<Entity, Placed>, lines: seq<Line>): Result<seq<Adjustment>> {
    if lines == [] then Ok([])
    else
      var n := |lines| - 1;
      var l := lines[n];
      match Adjustments(stock, lines[..n])
      case Err(e) => Err(e)
      case Ok(done) =>
        if l.entity !in stock then Err(NotFound)
        else if stock[l.entity] == l.counted then Ok(done)
        else Ok(done + [Adjustment(l.entity, stock[l.entity], l.counted)])
  }

  datatype PostOp = PostOp(session: Id, actor: Id, adjustments: seq<Adjustment>)

  function PreparePost(db: Db, session: Id, actor: Id): Result<PostOp> {
    match CheckSession(db, session)
    case Some(e) => Err(e)
    case None =>
      match Adjustments(db.stock, LinesOf(db.lines, session))
      case Err(e) => Err(e)
      case Ok(adjustments) => Ok(PostOp(session, actor, adjustments))
  }

  /** UPDATE ... WHERE id: a missing row is not an error. */
  function Put(stock: map<Entity, Placed>, e: Entity, p: Placed): map<Entity, Placed> {
    if e in stock then stock[e := p] else stock
  }

  function Replay(stock: map<Entity, Placed>, changes: seq<Adjustment>): map<Entity, Placed> {
    if changes == [] then stock
    else
      var n := |changes| - 1;
      Put(Replay(stock, changes[..n]), changes[n].entity, changes[n].after)
  }

  function AuditRows(op: PostOp): seq<AuditRow> {
    seq(|op.adjustments|, i requires 0 <= i < |op.adjustments| => AuditRow(op.session, op.actor, op.adjustments[i]))
  }

  /** postCycleCountAtomically: the session is locked and checked again. */
  function CommitPost(db: Db, op: PostOp): Result<Db> {
    match CheckSession(db, op.session)
    case Some(e) => Err(e)
    case None => Ok(db.(stock := Replay(db.stock, op.adjustments), audit := db.audit + AuditRows(op),
                        sessions := db.sessions[op.session := SessionPosted]))
  }

  function Post(db: Db, session: Id, actor: Id): Result<Db> {
    match PreparePost(db, session, actor)
    case Err(e) => Err(e)
    case Ok(op) => CommitPost(db, op)
  }

  // ------------------------------------------------------------- what replay does

  /** No row is changed in two different ways. */
  predicate Unambiguous(changes: seq<Adjustment>) {
    forall a, b | a in changes && b in changes :: a.entity == b.entity ==> a == b
  }

  lemma {:induction false} ReplayAt(stock: map<Entity, Placed>, changes: seq<Adjustment>, e: Entity)
    requires Unambiguous(changes)
    ensures Replay(stock, changes).Keys == stock.Keys
    ensures forall a :: a in changes && a.entity == e && e in stock ==> Replay(stock, changes)[e] == a.after
    ensures e in stock && (forall a :: a in changes ==> a.entity != e) ==> Replay(stock, changes)[e] == stock[e]
  {
    if changes != [] {
      var n := |changes| - 1;
      assert changes == changes[..n] + [changes[n]];
      ReplayAt(stock, changes[..n], e);
    }
  }

  /** Order and repetition do not matter. */
  lemma ReplayAnyOrder(stock: map<Entity, Placed>, a: seq<Adjustment>, b: seq<Adjustment>)
    requires Unambiguous(a) && (forall x :: x in a <==> x in b)
    ensures Replay(stock, a) == Replay(stock, b)
  {
    hide Replay;
    forall e: Entity
      ensures Replay(stock, a).Keys == Replay(stock, b).Keys == stock.Keys
      ensures e in stock ==> Replay(stock, a)[e] == Replay(stock, b)[e]
    {
      ReplayAt(stock, a, e);
      ReplayAt(stock, b, e);
      if x :| x in a && x.entity == e { assert x in b; }
    }
  }

  function Undone(a: Adjustment): Adjustment { Adjustment(a.entity, a.after, a.before) }

  function UndoneAll(changes: seq<Adjustment>): seq<Adjustment> {
    seq(|changes|, i requires 0 <= i < |changes| => Undone(changes[i]))
  }

  // --------------------------------------------------------------- session lines

  ghost predicate UniqueLines(lines: seq<Line>) {
    forall i, j :: 0 <= i < j < |lines| ==> lines[i].session != lines[j].session || lines[i].entity != lines[j].entity
  }

  lemma {:induction false} LinesOfAre(lines: seq<Line>, session: Id)
    ensures forall l :: l in LinesOf(lines, session) <==> l in lines && l.session == session
  {
    if lines != [] {
      var n := |lines| - 1;
      LinesOfAre(lines[..n], session);
      assert lines == lines[..n] + [lines[n]];
    }
  }

  lemma OneLinePerEntity(lines: seq<Line>, session: Id, a: Line, b: Line)
    requires UniqueLines(lines) && a in LinesOf(lines, session) && b in LinesOf(lines, session) && a.entity == b.entity
    ensures a == b
  {
    LinesOfAre(lines, session);
    var i :| 0 <= i < |lines| && lines[i] == a;
    var j :| 0 <= j < |lines| && lines[j] == b;
  }

  /** The adjustments are exactly the lines that disagree with the stock. */
  lemma {:induction false} AdjustmentsAre(stock: map<Entity, Placed>, lines: seq<Line>)
    requires Adjustments(stock, lines).Ok?
    ensures forall l :: l in lines ==> l.entity in stock
    ensures forall l :: l in lines && stock[l.entity] != l.counted ==>
      Adjustment(l.entity, stock[l.entity], l.counted) in Adjustments(stock, lines).value
    ensures forall a :: a in Adjustments(stock, lines).value ==>
      a.entity in stock && a.before == stock[a.entity] && a.before != a.after
      && exists l :: l in lines && l.entity == a.entity && l.counted == a.after
  {
    if lines != [] {
      var n := |lines| - 1;
      AdjustmentsAre(stock, lines[..n]);
      assert lines == lines[..n] + [lines[n]];
    }
  }

  lemma PostIsUnambiguous(db: Db, session: Id, actor: Id)
    requires UniqueLines(db.lines) && PreparePost(db, session, actor).Ok?
    ensures Unambiguous(PreparePost(db, session, actor).value.adjustments)
  {
    hide UniqueLines, Adjustments, LinesOf;
    var lines := LinesOf(db.lines, session);
    var done := Adjustments(db.stock, lines).value;
    AdjustmentsAre(db.stock, lines);
    forall a, b | a in done && b in done && a.entity == b.entity
      ensures a == b
    {
      var l :| l in lines && l.entity == a.entity && l.counted == a.after;
      var m :| m in lines && m.entity == b.entity && m.counted == b.after;
      OneLinePerEntity(db.lines, session, l, m);
    }
  }

  // ------------------------------------------------------ posting, with nobody else

  /** After posting every counted row has its counted status and location, every
      other row is as before, and the session is posted. */
  lemma PostLaw(db: Db, session: Id, actor: Id, e: Entity)
    requires UniqueLines(db.lines) && Post(db, session, actor).Ok?
    ensures var db' := Post(db, session, actor).value;
            && db'.stock.Keys == db.stock.Keys
            && (forall l :: l in LinesOf(db.lines, session) && l.entity == e ==>
              e in db'.stock && db'.stock[e] == l.counted)
            && (e in db.stock && (forall l :: l in LinesOf(db.lines, session) ==> l.entity != e) ==>
              db'.stock[e] == db.stock[e])
            && db'.sessions == db.sessions[session := SessionPosted] && db'.lines == db.lines
  {
    hide UniqueLines, Adjustments, LinesOf, Replay, Unambiguous;
    var lines := LinesOf(db.lines, session);
    var done := PreparePost(db, session, actor).value.adjustments;
    PostIsUnambiguous(db, session, actor);
    AdjustmentsAre(db.stock, lines);
    ReplayAt(db.stock, done, e);
    forall l | l in lines && l.entity == e
      ensures Replay(db.stock, done)[e] == l.counted
    {
      if db.stock[e] == l.counted {
        forall a | a in done
          ensures a.entity != e
        {
          var m :| m in lines && m.entity == a.entity && m.counted == a.after;
          if m.entity == e { OneLinePerEntity(db.lines, session, l, m); }
        }
      }
    }
  }

  /** The audit rows a post wrote, replayed on the old stock in any order, give
      the new stock; undone on the new stock in any order, the old one. */
  lemma AuditReplays(db: Db, session: Id, actor: Id, changes: seq<Adjustment>)
    requires UniqueLines(db.lines) && Post(db, session, actor).Ok?
    requires forall x :: x in changes <==>
      exists i :: |db.audit| <= i < |Post(db, session, actor).value.audit|
        && Post(db, session, actor).value.audit[i].change == x
    ensures Replay(db.stock, changes) == Post(db, session, actor).value.stock
    ensures Replay(Post(db, session, actor).value.stock, UndoneAll(changes)) == db.stock
  {
    var db' := Post(db, session, actor).value;
    var op := PreparePost(db, session, actor).value;
    PostIsUnambiguous(db, session, actor);
    AuditHoldsChanges(db, op);
    hide UniqueLines, Adjustments, LinesOf, Replay, AuditRows, PreparePost, CommitPost;
    assert db'.stock == Replay(db.stock, op.adjustments) by { PostStock(db, session, actor); }
    ReplayAnyOrder(db.stock, op.adjustments, changes);
    AdjustmentsFromStock(db, session, actor);
    UndoRestores(db.stock, changes);
  }

  lemma PostStock(db: Db, session: Id, actor: Id)
    requires Post(db, session, actor).Ok?
    ensures PreparePost(db, session, actor).Ok?
    ensures Post(db, session, actor).value.stock
            == Replay(db.stock, PreparePost(db, session, actor).value.adjustments)
  {
  }

  lemma AdjustmentsFromStock(db: Db, session: Id, actor: Id)
    requires PreparePost(db, session, actor).Ok?
    ensures forall a :: a in PreparePost(db, session, actor).value.adjustments ==>
      a.entity in db.stock && a.before == db.stock[a.entity]
  {
    AdjustmentsAre(db.stock, LinesOf(db.lines, session));
  }

  lemma AuditHoldsChanges(db: Db, op: PostOp)
    requires CommitPost(db, op).Ok?
    ensures var audit := CommitPost(db, op).value.audit;
            forall x :: x in op.adjustments <==>
              exists i :: |db.audit| <= i < |audit| && audit[i].change == x
  {
    var audit := CommitPost(db, op).value.audit;
    forall x | x in op.adjustments
      ensures exists i :: |db.audit| <= i < |audit| && audit[i].change == x
    {
      var j :| 0 <= j < |op.adjustments| && op.adjustments[j] == x;
      assert audit[|db.audit| + j].change == x;
    }
  }

  lemma UndoRestores(stock: map<Entity, Placed>, changes: seq<Adjustment>)
    requires Unambiguous(changes)
    requires forall a :: a in changes ==> a.entity in stock && a.before == stock[a.entity]
    ensures Replay(Replay(stock, changes), UndoneAll(changes)) == stock
  {
    hide Replay;
    var undo := UndoneAll(changes);
    forall a, b | a in undo && b in undo && a.entity == b.entity
      ensures a == b
    {
      assert Undone(a) in changes && Undone(b) in changes;
    }
    var mid := Replay(stock, changes);
    forall e: Entity
      ensures Replay(mid, undo).Keys == stock.Keys
      ensures e in stock ==> Replay(mid, undo)[e] == stock[e]
    {
      ReplayAt(stock, changes, e);
      ReplayAt(mid, undo, e);
      if a :| a in changes && a.entity == e {
        var i :| 0 <= i < |changes| && changes[i] == a;
        assert undo[i] == Undone(a);
      } else {
        forall b | b in undo
          ensures b.entity != e
        {
          assert Undone(b) in changes;
        }
      }
    }
  }

  // --------------------------------------------------------------- interleaving

  /** A call between its unlocked reads and its write. */
  datatype Pending = PendingLine(line: Line) | PendingPost(op: PostOp) | PendingCancel(session: Id)

  datatype Sys = Sys(db: Db, pending: map<nat, Pending>)

  /** EvStock stands for every other service that moves stock. */
  datatype Event =
    | EvOpen(session: Id)
    | EvBeginLine(t: nat, line: Line, knownKind: bool)
    | EvBeginPost(t: nat, session: Id, actor: Id)
    | EvBeginCancel(t: nat, session: Id)
    | EvFinish(t: nat)
    | EvDrop(t: nat)
    | EvStock(entity: Entity, placed: Placed)

  function Write(db: Db, p: Pending): Result<Db> {
    match p
    case PendingLine(line) => InsertLine(db, line)
    case PendingPost(op) => CommitPost(db, op)
    case PendingCancel(session) =>
      if session !in db.sessions then Err(NotFound)
      else Ok(db.(sessions := db.sessions[session := SessionCancelled]))
  }

  function Enter(s: Sys, t: nat, check: Option<Error>, p: Pending): Sys {
    if t in s.pending || check.Some? then s else s.(pending := s.pending[t := p])
  }

  function After(s: Sys, e: Event): Sys {
    match e
    case EvOpen(session) =>
      if session in s.db.sessions then s else s.(db := s.db.(sessions := s.db.sessions[session := SessionOpen]))
    case EvBeginLine(t, line, knownKind) => Enter(s, t, CheckLine(s.db, line, knownKind), PendingLine(line))
    case EvBeginCancel(t, session) => Enter(s, t, CheckSession(s.db, session), PendingCancel(session))
    case EvBeginPost(t, session, actor) =>
      if PreparePost(s.db, session, actor).Err? then s
      else Enter(s, t, None, PendingPost(PreparePost(s.db, session, actor).value))
    case EvFinish(t) =>
      if t !in s.pending then s
      else if Write(s.db, s.pending[t]).Err? then s.(pending := s.pending - {t})
      else Sys(Write(s.db, s.pending[t]).value, s.pending - {t})
    case EvDrop(t) => s.(pending := s.pending - {t})
    case EvStock(entity, placed) => s.(db := s.db.(stock := s.db.stock[entity := placed]))
  }

  function Play(s: Sys, events: seq<Event>): Sys {
    if events == [] then s else After(Play(s, events[..|events| - 1]), events[|events| - 1])
  }

  const Empty := Sys(Db(map[], map[], [], []), map[])

  /** The event commits a posting of the session. */
  predicate Posts(s: Sys, e: Event, session: Id) {
    e.EvFinish? && e.t in s.pending && s.pending[e.t].PendingPost? && s.pending[e.t].op.session == session
    && Write(s.db, s.pending[e.t]).Ok?
  }

  function Postings(s: Sys, events: seq<Event>, session: Id): nat {
    if events == [] then 0
    else
      var n := |events| - 1;
      Postings(s, events[..n], session) + if Posts(Play(s, events[..n]), events[n], session) then 1 else 0
  }

  lemma SessionStep(s: Sys, e: Event, session: Id)
    ensures var s' := After(s, e);
            && (session in s.db.sessions ==> session in s'.db.sessions)
            && (session in s.db.sessions && !Open(s.db, session) ==> !Open(s'.db, session))
            && (Posts(s, e, session) ==> Open(s.db, session) && s'.db.sessions[session] == SessionPosted)
  {
    hide Adjustments, Replay, LinesOf;
  }

  /** A session is posted at most once in any interleaving, and after that is
      never open again. */
  lemma {:induction false} PostedAtMostOnce(s: Sys, events: seq<Event>, session: Id)
    ensures Postings(s, events, session) <= 1
    ensures Postings(s, events, session) == 1 ==>
      session in Play(s, events).db.sessions && !Open(Play(s, events).db, session)
  {
    if events != [] {
      hide After, Posts, Open;
      var n := |events| - 1;
      PostedAtMostOnce(s, events[..n], session);
      SessionStep(Play(s, events[..n]), events[n], session);
      OpenOrNot(Play(s, events).db, session);
    }
  }

  lemma OpenOrNot(db: Db, session: Id)
    ensures session in db.sessions && db.sessions[session] == SessionPosted ==> !Open(db, session)
  {
  }

  /** A pending posting sets each row it changes to what a line of its session counted. */
  ghost predicate OpOK(db: Db, op: PostOp) {
    && Unambiguous(op.adjustments)
    && forall a :: a in op.adjustments ==>
      && a.entity in db.stock
      && exists l :: l in db.lines && l.session == op.session && l.entity == a.entity && l.counted == a.after
  }

  ghost predicate SysInv(s: Sys) {
    && UniqueLines(s.db.lines)
    && (forall t :: t in s.pending && s.pending[t].PendingPost? ==> OpOK(s.db, s.pending[t].op))
  }

  ghost predicate Grows(db: Db, db': Db) {
    db.lines <= db'.lines && db.stock.Keys <= db'.stock.Keys
  }

  lemma GrowKeepsOp(db: Db, db': Db, op: PostOp)
    requires OpOK(db, op) && Grows(db, db')
    ensures OpOK(db', op)
  {
    forall a | a in op.adjustments
      ensures a.entity in db'.stock
        && exists l :: l in db'.lines && l.session == op.session && l.entity == a.entity && l.counted == a.after
    {
      var l :| l in db.lines && l.session == op.session && l.entity == a.entity && l.counted == a.after;
      assert l in db'.lines;
    }
  }

  lemma PreparedOpOK(db: Db, session: Id, actor: Id)
    requires UniqueLines(db.lines) && PreparePost(db, session, actor).Ok?
    ensures OpOK(db, PreparePost(db, session, actor).value)
  {
    hide UniqueLines, Adjustments, LinesOf, Unambiguous;
    PostIsUnambiguous(db, session, actor);
    AdjustmentsAre(db.stock, LinesOf(db.lines, session));
    LinesOfAre(db.lines, session);
    var op := PreparePost(db, session, actor).value;
    forall a | a in op.adjustments
      ensures a.entity in db.stock
        && exists l :: l in db.lines && l.session == op.session && l.entity == a.entity && l.counted == a.after
    {
      var l :| l in LinesOf(db.lines, session) && l.entity == a.entity && l.counted == a.after;
      assert l in db.lines && l.session == op.session;
    }
  }

  lemma {:induction false} ReplayKeys(stock: map<Entity, Placed>, changes: seq<Adjustment>)
    ensures Replay(stock, changes).Keys == stock.Keys
  {
    if changes != [] { ReplayKeys(stock, changes[..|changes| - 1]); }
  }

  lemma WriteGrows(db: Db, p: Pending)
    requires UniqueLines(db.lines) && Write(db, p).Ok? && (p.PendingPost? ==> OpOK(db, p.op))
    ensures Grows(db, Write(db, p).value) && UniqueLines(Write(db, p).value.lines)
  {
    hide Replay;
    if p.PendingPost? { ReplayKeys(db.stock, p.op.adjustments); }
    if p.PendingLine? {
      assert forall i :: 0 <= i < |db.lines| ==>
        db.lines[i].session != p.line.session || db.lines[i].entity != p.line.entity;
    }
  }

  lemma AfterKeeps(s: Sys, e: Event)
    requires SysInv(s)
    ensures SysInv(After(s, e))
  {
    hide UniqueLines, OpOK, PreparePost, Write, Unambiguous;
    var s' := After(s, e);
    if e.EvBeginPost? && PreparePost(s.db, e.session, e.actor).Ok? { PreparedOpOK(s.db, e.session, e.actor); }
    if e.EvFinish? && e.t in s.pending && Write(s.db, s.pending[e.t]).Ok? { WriteGrows(s.db, s.pending[e.t]); }
    assert Grows(s.db, s'.db);
    forall t | t in s'.pending && s'.pending[t].PendingPost?
      ensures OpOK(s'.db, s'.pending[t].op)
    {
      if t in s.pending { GrowKeepsOp(s.db, s'.db, s.pending[t].op); }
    }
  }

  lemma {:induction false} PlayKeeps(events: seq<Event>)
    ensures SysInv(Play(Empty, events))
  {
    hide SysInv, After;
    if events == [] {
      EmptyOK();
    } else {
      PlayKeeps(events[..|events| - 1]);
      AfterKeeps(Play(Empty, events[..|events| - 1]), events[|events| - 1]);
    }
  }

  lemma EmptyOK()
    ensures SysInv(Empty)
  {
  }

  /** A posting that commits late, with stock moved or lines added since it read
      them: rows it adjusts get their counted place, every other row keeps its
      own. So a counted row ends where it was counted exactly when the posting
      adjusts it or it is there already. */
  lemma LatePostIff(events: seq<Event>, op: PostOp, t: nat, l: Line)
    requires var s := Play(Empty, events);
             t in s.pending && s.pending[t] == PendingPost(op) && CommitPost(s.db, op).Ok?
             && l in s.db.lines && l.session == op.session && l.entity in s.db.stock
    ensures var s := Play(Empty, events);
            var db' := CommitPost(s.db, op).value;
            && (Lookup(db'.stock, l.entity) == Some(l.counted) <==>
              (exists a :: a in op.adjustments && a.entity == l.entity) || s.db.stock[l.entity] == l.counted)
            && (forall e :: e in s.db.stock && (forall a :: a in op.adjustments ==> a.entity != e) ==>
              Lookup(db'.stock, e) == Some(s.db.stock[e]))
  {
    PlayKeeps(events);
    var s := Play(Empty, events);
    hide Play;
    assert OpOK(s.db, op);
    hide Replay;
    forall e: Entity
      ensures Replay(s.db.stock, op.adjustments).Keys == s.db.stock.Keys
      ensures e in s.db.stock && (forall a :: a in op.adjustments ==> a.entity != e) ==>
        Replay(s.db.stock, op.adjustments)[e] == s.db.stock[e]
    {
      ReplayAt(s.db.stock, op.adjustments, e);
    }
    ReplayAt(s.db.stock, op.adjustments, l.entity);
    if a :| a in op.adjustments && a.entity == l.entity {
      var m :| m in s.db.lines && m.session == op.session && m.entity == a.entity && m.counted == a.after;
      LinesOfAre(s.db.lines, op.session);
      OneLinePerEntity(s.db.lines, op.session, l, m);
    }
  }

  ghost predicate Posted(db: Db, session: Id) {
    session in db.sessions && db.sessions[session] == SessionPosted
  }

  ghost predicate CancelPending(s: Sys, session: Id) {
    exists t :: t in s.pending && s.pending[t] == PendingCancel(session)
  }

  lemma PostedStep(s: Sys, e: Event, session: Id)
    requires Posted(s.db, session) && !CancelPending(s, session)
    ensures Posted(After(s, e).db, session) && !CancelPending(After(s, e), session)
  {
    hide Adjustments, Replay, LinesOf;
  }

  lemma {:induction false} PostedStays(s: Sys, events: seq<Event>, session: Id)
    requires Posted(s.db, session) && !CancelPending(s, session)
    ensures Posted(Play(s, events).db, session) && !CancelPending(Play(s, events), session)
  {
    if events != [] {
      hide After, Posted, CancelPending;
      var n := |events| - 1;
      PostedStays(s, events[..n], session);
      PostedStep(Play(s, events[..n]), events[n], session);
    }
  }

  /** CancelCycleCountSession checks for OPEN on an unlocked read and its UPDATE
      does not repeat the check. A session that has been posted stays posted,
      whatever happens later, exactly when no cancellation of it is under way:
      none can begin any more, and one that is under way may overwrite it. */
  lemma PostedForeverIff(s: Sys, session: Id)
    requires Posted(s.db, session)
    ensures (forall events :: Posted(Play(s, events).db, session)) <==> !CancelPending(s, session)
  {
    if CancelPending(s, session) {
      var t :| t in s.pending && s.pending[t] == PendingCancel(session);
      OneMore(s, [], EvFinish(t), session);
      assert Play(s, []) == s;
      assert !Posted(Play(s, [] + [EvFinish(t)]).db, session);
    } else {
      forall events
        ensures Posted(Play(s, events).db, session)
      {
        PostedStays(s, events, session);
      }
    }
  }

  lemma OneMore(s: Sys, events: seq<Event>, e: Event, session: Id)
    ensures Play(s, events + [e]) == After(Play(s, events), e)
    ensures Postings(s, events + [e], session)
            == Postings(s, events, session) + if Posts(Play(s, events), e, session) then 1 else 0
  {
    assert (events + [e])[..|events|] == events;
  }

  /** A run in which that happens: its stock is adjusted, its session CANCELLED. */
  lemma CancelOverwritesPosted(session: Id, actor: Id) returns (events: seq<Event>)
    ensures Postings(Empty, events, session) == 1
    ensures session in Play(Empty, events).db.sessions
    ensures Play(Empty, events).db.sessions[session] == SessionCancelled
  {
    hide Play, Postings;
    events := [];
    assert Play(Empty, []) == Empty && Postings(Empty, [], session) == 0 by { NothingPlayed(session); }
    var script := [EvOpen(session), EvBeginPost(1, session, actor), EvBeginCancel(2, session),
                   EvFinish(1), EvFinish(2)];
    OneMore(Empty, [], script[0], session);
    OneMore(Empty, [] + [script[0]], script[1], session);
    OneMore(Empty, [] + [script[0]] + [script[1]], script[2], session);
    OneMore(Empty, [] + [script[0]] + [script[1]] + [script[2]], script[3], session);
    OneMore(Empty, [] + [script[0]] + [script[1]] + [script[2]] + [script[3]], script[4], session);
    events := [] + [script[0]] + [script[1]] + [script[2]] + [script[3]] + [script[4]];
  }

  lemma NothingPlayed(session: Id)
    ensures Play(Empty, []) == Empty && Postings(Empty, [], session) == 0
  {
  }
}
