/** Delivery transactions under row locks, interleaved step by step: every
    interleaving is a run of atomic calls, and no schedule deadlocks. */
module Locking {
  import opened Common
  import opened LineTable
  import opened Delivery
  import opened Loading
  import opened LoadingLedger

  // ------------------------------------------------------------------- model

  datatype Res = C(id: Id) | L(id: Id)

  /** Every container before every line; rows of one table by UUID. */
  predicate Before(a: Res, b: Res) {
    match (a, b)
    case (C(x), C(y)) => x < y
    case (C(_), L(_)) => true
    case (L(_), C(_)) => false
    case (L(x), L(y)) => x < y
  }

  /** The rows a transaction locks, in the order it asks for them; canonical
      says whether TransferLine puts its containers in UUID order first. */
  function LockPlan(req: Request, canonical: bool): seq<Res> {
    match req
    case DeleteLine(c, line) => [C(c), L(line)]
    case TransferLine(c, t, line, _, _, _, _, _, _, _, _) =>
      if canonical && t < c then [C(t), C(c), L(line)] else [C(c), C(t), L(line)]
    case _ => [C(req.container)]
  }

  /** A transaction: how many locks it holds, what it has read, and the sales
      order lines as they were when the call came in. */
  datatype Tx = Tx(req: Request, seen: map<Id, SOLine>, held: nat, read: bool, view: View)

  datatype Sys = Sys(canonical: bool, db: Db, txs: map<nat, Tx>, committed: seq<Step>)

  function Locks(s: Sys, t: nat): seq<Res>
    requires t in s.txs
  {
    LockPlan(s.txs[t].req, s.canonical)
  }

  predicate Holds(s: Sys, t: nat, r: Res) {
    t in s.txs && s.txs[t].held <= |Locks(s, t)| && r in Locks(s, t)[..s.txs[t].held]
  }

  predicate WaitsFor(s: Sys, t: nat, u: nat) {
    t in s.txs && u in s.txs && t != u
    && s.txs[t].held < |Locks(s, t)| && Holds(s, u, Locks(s, t)[s.txs[t].held])
  }

  predicate Blocked(s: Sys, t: nat) { exists u | u in s.txs :: WaitsFor(s, t, u) }

  predicate Enabled(s: Sys, t: nat) { t in s.txs && !Blocked(s, t) }

  /** SELECT ... FOR UPDATE returns the row, if there is one. */
  function Capture(db: Db, req: Request, v: View, r: Res): Option<View> {
    match r
    case C(id) =>
      if id !in db.containers then None
      else
        var v1 := if id == req.container then v.(main := Some(db.containers[id])) else v;
        Some(if req.TransferLine? && id == req.target then v1.(target := Some(db.containers[id])) else v1)
    case L(id) =>
      if id !in db.lines then None else Some(v.(line := Some(db.lines[id])))
  }

  /** The status check that follows the last container lock. */
  predicate StatusAllows(req: Request, v: View) {
    v.main.Some? &&
    match req
    case Reopen(_, _, _, _) => v.main.value.status == Sealed
    case Ship(_, _, _) => v.main.value.status == Sealed
    case TransferLine(_, _, _, _, _, _, _, _, _, _, _) =>
      v.target.Some? && CanHoldLines(v.main.value.status) && CanHoldLines(v.target.value.status)
    case _ => CanHoldLines(v.main.value.status)
  }

  predicate LastContainer(plan: seq<Res>, held: nat) {
    0 < held <= |plan| && plan[held - 1].C? && (held == |plan| || plan[held].L?)
  }

  function End(s: Sys, t: nat): Sys { s.(txs := s.txs - {t}) }

  function AfterLock(s: Sys, t: nat): Sys
    requires t in s.txs && s.txs[t].held < |Locks(s, t)|
  {
    var tx := s.txs[t];
    match Capture(s.db, tx.req, tx.view, Locks(s, t)[tx.held])
    case None => End(s, t)
    case Some(v) =>
      if LastContainer(Locks(s, t), tx.held + 1) && !StatusAllows(tx.req, v) then End(s, t)
      else s.(txs := s.txs[t := tx.(held := tx.held + 1, view := v)])
  }

  function Commit(s: Sys, t: nat): Sys
    requires t in s.txs
  {
    var tx := s.txs[t];
    match Exec(s.db, tx.req, tx.view)
    case Err(_) => End(s, t)
    case Ok(db') =>
      Sys(s.canonical, db', s.txs - {t}, s.committed + [StepCall(tx.req, tx.seen)])
  }

  /** The next thing an unblocked transaction does: take a lock, read, commit. */
  function Advance(s: Sys, t: nat): Sys {
    if !Enabled(s, t) then s
    else
      var tx := s.txs[t];
      if tx.held < |Locks(s, t)| then AfterLock(s, t)
      else if !tx.read then s.(txs := s.txs[t := tx.(read := true, view := ReadAggregates(s.db, tx.req, tx.view))])
      else Commit(s, t)
  }

  /** A call comes in: its unlocked checks, then an open transaction. */
  function Begin(s: Sys, t: nat, req: Request): Sys {
    if t in s.txs || CheckRequest(req).Some? || CheckOrder(s.db.soLines, req).Some? then s
    else s.(txs := s.txs[t := Tx(req, s.db.soLines, 0, false, Blank)])
  }

  /** Abort stands for a cancelled request or a lost connection. */
  datatype Event = EvBegin(t: nat, req: Request) | EvAdvance(t: nat) | EvAbort(t: nat)

  function After(s: Sys, e: Event): Sys {
    match e
    case EvBegin(t, req) => Begin(s, t, req)
    case EvAdvance(t) => Advance(s, t)
    case EvAbort(t) => End(s, t)
  }

  function Play(s: Sys, events: seq<Event>): Sys
    decreases |events|
  {
    if events == [] then s else Play(After(s, events[0]), events[1..])
  }

  function Idle(canonical: bool, db: Db): Sys { Sys(canonical, db, map[], []) }

  // --------------------------------------------- what locking keeps for a reader

  /** The view a transaction would have if it read its locked rows now. */
  function FreshView(db: Db, req: Request, plan: seq<Res>, held: nat): View
    requires held <= |plan|
  {
    Blank.(main := if C(req.container) in plan[..held] then Lookup(db.containers, req.container) else None,
           target := if req.TransferLine? && C(req.target) in plan[..held]
                     then Lookup(db.containers, req.target) else None,
           line := if (req.TransferLine? || req.DeleteLine?) && L(req.line) in plan[..held]
                   then Lookup(db.lines, req.line) else None)
  }

  predicate Exists(db: Db, r: Res) {
    match r
    case C(id) => id in db.containers
    case L(id) => id in db.lines
  }

  /** Nothing a transaction has read has gone stale. */
  ghost predicate TxOK(db: Db, tx: Tx, plan: seq<Res>) {
    && tx.held <= |plan|
    && CheckRequest(tx.req).None? && CheckOrder(tx.seen, tx.req).None?
    && (forall i :: 0 <= i < tx.held ==> Exists(db, plan[i]))
    && (tx.read ==> tx.held == |plan|)
    && tx.view == if tx.read then ViewOf(db, tx.req) else FreshView(db, tx.req, plan, tx.held)
  }

  ghost predicate AllTxOK(s: Sys) { forall t :: t in s.txs ==> TxOK(s.db, s.txs[t], Locks(s, t)) }

  ghost predicate Exclusive(s: Sys) {
    forall t, u, r :: Holds(s, t, r) && Holds(s, u, r) ==> t == u
  }

  /** The database is what the committed calls make one after the other, in
      commit order. */
  ghost predicate Serial(start: Db, s: Sys) {
    && s.db == Run(start, s.committed)
    && (forall i :: 0 <= i < |s.committed| ==>
      s.committed[i].StepCall? && Try(Run(start, s.committed[..i]), s.committed[i]).Ok?)
  }

  ghost predicate SysInv(start: Db, s: Sys) { AllTxOK(s) && Exclusive(s) && Serial(start, s) }

  // ----------------------------------------------------------------- plan facts

  lemma PlanShape(req: Request, canonical: bool)
    requires CheckRequest(req).None?
    ensures var p := LockPlan(req, canonical);
            && 0 < |p| <= 3
            && (forall c :: C(c) in p <==> c in Involved(req))
            && (forall l :: L(l) in p <==> (req.DeleteLine? || req.TransferLine?) && l == req.line)
            && (canonical ==> forall i, j :: 0 <= i < j < |p| ==> Before(p[i], p[j]))
            && (forall i, j :: 0 <= i < j < |p| ==> p[i] != p[j])
  {
    if req.TransferLine? {
      var p := LockPlan(req, canonical);
      assert p[0] in p && p[1] in p && p[2] in p;
    } else if req.DeleteLine? {
      var p := LockPlan(req, canonical);
      assert p[0] in p && p[1] in p;
    } else {
      var p := LockPlan(req, canonical);
      assert p[0] in p;
    }
  }

  lemma AllHeld(db: Db, req: Request, canonical: bool)
    requires CheckRequest(req).None?
    ensures var p := LockPlan(req, canonical);
            ReadAggregates(db, req, FreshView(db, req, p, |p|)) == ViewOf(db, req)
  {
    PlanShape(req, canonical);
    var p := LockPlan(req, canonical);
    assert p[..|p|] == p;
    hide LoadOf, Pick, LockPlan;
  }

  // --------------------------------------------------------- nothing goes stale

  lemma CaptureIsFresh(db: Db, tx: Tx, canonical: bool, v: View)
    requires var plan := LockPlan(tx.req, canonical);
             TxOK(db, tx, plan) && tx.held < |plan| && Capture(db, tx.req, tx.view, plan[tx.held]) == Some(v)
    ensures TxOK(db, tx.(held := tx.held + 1, view := v), LockPlan(tx.req, canonical))
  {
    PlanShape(tx.req, canonical);
    var plan := LockPlan(tx.req, canonical);
    assert plan[..tx.held + 1] == plan[..tx.held] + [plan[tx.held]];
    assert plan[tx.held] in plan;
    hide LockPlan, LoadOf, Pick, ViewOf, CheckOrder;
  }

  /** The rows behind a lock, and whatever is summed over a locked container. */
  ghost predicate SameRow(db: Db, db': Db, r: Res) {
    Exists(db, r) && Exists(db', r) &&
    match r
    case C(c) => Untouched(db, db', c)
    case L(l) => Lookup(db'.lines, l) == Lookup(db.lines, l)
  }

  lemma ExecKeepsLine(db: Db, req: Request, v: View, l: Id)
    requires Exec(db, req, v).Ok? && l in db.lines
    requires req.DeleteLine? || req.TransferLine? ==> l != req.line
    ensures var db' := Exec(db, req, v).value; l in db'.lines && db'.lines[l] == db.lines[l]
  {
    hide LoadOf, Pick, Fits;
  }

  lemma ExecKeepsRow(db: Db, req: Request, v: View, canonical: bool, r: Res)
    requires Exec(db, req, v).Ok? && CheckRequest(req).None?
    requires req.DeleteLine? || req.TransferLine? ==> v.line == Lookup(db.lines, req.line)
    requires r !in LockPlan(req, canonical) && Exists(db, r)
    ensures SameRow(db, Exec(db, req, v).value, r)
  {
    hide Exec, LockPlan, Untouched;
    PlanShape(req, canonical);
    match r
    case C(c) =>
      ExecUntouched(db, req, v, c);
      ExecKeepsKeys(db, req, v);
    case L(l) => ExecKeepsLine(db, req, v, l);
  }

  lemma SameRowsSameView(db: Db, db': Db, req: Request, canonical: bool)
    requires CheckRequest(req).None? && db'.plans == db.plans
    requires forall r :: r in LockPlan(req, canonical) ==> SameRow(db, db', r)
    ensures ViewOf(db', req) == ViewOf(db, req)
  {
    PlanShape(req, canonical);
    hide LockPlan;
    assert SameRow(db, db', C(req.container));
    if req.TransferLine? {
      assert SameRow(db, db', C(req.target)) && SameRow(db, db', L(req.line));
    } else if req.DeleteLine? {
      assert SameRow(db, db', L(req.line));
    }
    hide Pick, Total;
  }

  lemma SameRowsSameTx(db: Db, db': Db, tx: Tx, canonical: bool)
    requires TxOK(db, tx, LockPlan(tx.req, canonical)) && db'.plans == db.plans
    requires forall i :: 0 <= i < tx.held ==> SameRow(db, db', LockPlan(tx.req, canonical)[i])
    ensures TxOK(db', tx, LockPlan(tx.req, canonical))
  {
    var plan := LockPlan(tx.req, canonical);
    if tx.read {
      SameRowsSameView(db, db', tx.req, canonical);
    } else {
      hide LockPlan, ViewOf, RowsIn, LogOf, CheckOrder, CheckRequest;
      forall r | r in plan[..tx.held]
        ensures SameRow(db, db', r)
      {
      }
    }
  }

  /** A commit leaves what every other open transaction has read as it is. */
  lemma CommitKeepsReaders(s: Sys, t: nat, u: nat)
    requires AllTxOK(s) && Exclusive(s) && t in s.txs && u in s.txs && t != u
    requires s.txs[t].held == |Locks(s, t)| && s.txs[t].read && Exec(s.db, s.txs[t].req, s.txs[t].view).Ok?
    ensures TxOK(Exec(s.db, s.txs[t].req, s.txs[t].view).value, s.txs[u], Locks(s, u))
  {
    hide Exec, LockPlan, Untouched;
    var tx, tu := s.txs[t], s.txs[u];
    var db' := Exec(s.db, tx.req, tx.view).value;
    assert TxOK(s.db, tx, Locks(s, t)) && TxOK(s.db, tu, Locks(s, u));
    ViewLine(s.db, tx.req);
    forall i | 0 <= i < tu.held
      ensures SameRow(s.db, db', Locks(s, u)[i])
    {
      var r := Locks(s, u)[i];
      assert Locks(s, u)[..tu.held][i] == r;
      assert Holds(s, u, r);
      assert Locks(s, t)[..tx.held] == Locks(s, t);
      assert !Holds(s, t, r);
      ExecKeepsRow(s.db, tx.req, tx.view, s.canonical, r);
    }
    ExecKeepsPlans(s.db, tx.req, tx.view);
    SameRowsSameTx(s.db, db', tu, s.canonical);
  }

  // --------------------------------------------------- every event keeps SysInv

  lemma EndKeeps(start: Db, s: Sys, t: nat)
    requires SysInv(start, s)
    ensures SysInv(start, End(s, t))
  {
    hide TxOK, LockPlan, Run, Try;
    var s' := End(s, t);
    forall u | u in s'.txs
      ensures TxOK(s'.db, s'.txs[u], Locks(s', u))
    {
      assert TxOK(s.db, s.txs[u], Locks(s, u));
    }
    forall a, b, r | Holds(s', a, r) && Holds(s', b, r)
      ensures a == b
    {
      assert Holds(s, a, r) && Holds(s, b, r);
    }
  }

  lemma NewTxOK(db: Db, req: Request, canonical: bool)
    requires CheckRequest(req).None? && CheckOrder(db.soLines, req).None?
    ensures TxOK(db, Tx(req, db.soLines, 0, false, Blank), LockPlan(req, canonical))
  {
    hide LockPlan, ViewOf, CheckRequest, CheckOrder;
  }

  lemma BeginKeeps(start: Db, s: Sys, t: nat, req: Request)
    requires SysInv(start, s)
    ensures SysInv(start, Begin(s, t, req))
  {
    hide Run, Try, CheckRequest, CheckOrder, TxOK, LockPlan;
    var s' := Begin(s, t, req);
    forall u | u in s'.txs
      ensures TxOK(s'.db, s'.txs[u], Locks(s', u))
    {
      if u in s.txs { assert TxOK(s.db, s.txs[u], Locks(s, u)); }
      else { NewTxOK(s.db, req, s.canonical); }
    }
    forall a, b, r | Holds(s', a, r) && Holds(s', b, r)
      ensures a == b
    {
      assert Holds(s, a, r) && Holds(s, b, r);
    }
  }

  lemma LockKeeps(start: Db, s: Sys, t: nat)
    requires SysInv(start, s) && Enabled(s, t) && s.txs[t].held < |Locks(s, t)|
    ensures SysInv(start, AfterLock(s, t))
  {
    hide Run, Try, TxOK, Capture, StatusAllows, LockPlan, LastContainer;
    EndKeeps(start, s, t);
    var s' := AfterLock(s, t);
    if s' != End(s, t) {
      var plan := Locks(s, t);
      var v := Capture(s.db, s.txs[t].req, s.txs[t].view, plan[s.txs[t].held]).value;
      forall u | u in s'.txs
        ensures TxOK(s'.db, s'.txs[u], Locks(s', u))
      {
        assert TxOK(s.db, s.txs[u], Locks(s, u));
        if u == t { CaptureIsFresh(s.db, s.txs[t], s.canonical, v); }
      }
      LockStaysExclusive(s, t, v);
    }
  }

  lemma LockStaysExclusive(s: Sys, t: nat, v: View)
    requires Exclusive(s) && Enabled(s, t) && s.txs[t].held < |Locks(s, t)|
    ensures Exclusive(s.(txs := s.txs[t := s.txs[t].(held := s.txs[t].held + 1, view := v)]))
  {
    hide LockPlan;
    var s' := s.(txs := s.txs[t := s.txs[t].(held := s.txs[t].held + 1, view := v)]);
    var plan := Locks(s, t);
    var h := s.txs[t].held;
    assert plan[..h + 1] == plan[..h] + [plan[h]];
    forall a, b, r | Holds(s', a, r) && Holds(s', b, r)
      ensures a == b
    {
      if r == plan[h] {
        assert !Blocked(s, t);
        assert a != t ==> !WaitsFor(s, t, a);
        assert b != t ==> !WaitsFor(s, t, b);
        assert a != t ==> !Holds(s, a, r);
        assert b != t ==> !Holds(s, b, r);
      } else {
        assert Holds(s, a, r) && Holds(s, b, r);
      }
    }
  }

  lemma ReadKeeps(start: Db, s: Sys, t: nat)
    requires SysInv(start, s) && Enabled(s, t) && s.txs[t].held == |Locks(s, t)| && !s.txs[t].read
    ensures SysInv(start, Advance(s, t))
  {
    hide Run, Try, ReadAggregates, LockPlan, CheckOrder, CheckRequest;
    var s' := Advance(s, t);
    forall u | u in s'.txs
      ensures TxOK(s'.db, s'.txs[u], Locks(s', u))
    {
      assert TxOK(s.db, s.txs[u], Locks(s, u));
      if u == t { AllHeld(s.db, s.txs[t].req, s.canonical); }
    }
    forall a, b, r | Holds(s', a, r) && Holds(s', b, r)
      ensures a == b
    {
      assert Holds(s, a, r) && Holds(s, b, r);
    }
  }

  /** A commit is one more atomic call after those already committed. */
  lemma CommitIsCall(start: Db, s: Sys, t: nat)
    requires SysInv(start, s) && t in s.txs && s.txs[t].read && Exec(s.db, s.txs[t].req, s.txs[t].view).Ok?
    ensures Serial(start, Commit(s, t))
  {
    hide Exec, LockPlan, ViewOf, Run, FreshView;
    var tx := s.txs[t];
    var s' := Commit(s, t);
    var step := StepCall(tx.req, tx.seen);
    assert TxOK(s.db, tx, Locks(s, t));
    assert Try(s.db, step) == Ok(s'.db);
    RunAppend(start, s.committed, step);
    forall i | 0 <= i < |s'.committed|
      ensures s'.committed[i].StepCall? && Try(Run(start, s'.committed[..i]), s'.committed[i]).Ok?
    {
      assert s'.committed[..i] == s.committed[..i];
      if i == |s.committed| { assert s.committed[..i] == s.committed; }
    }
  }

  lemma CommitKeeps(start: Db, s: Sys, t: nat)
    requires SysInv(start, s) && Enabled(s, t) && s.txs[t].held == |Locks(s, t)| && s.txs[t].read
    ensures SysInv(start, Commit(s, t))
  {
    hide Exec, LockPlan, TxOK, Serial;
    EndKeeps(start, s, t);
    if Exec(s.db, s.txs[t].req, s.txs[t].view).Ok? {
      var s' := Commit(s, t);
      CommitIsCall(start, s, t);
      forall u | u in s'.txs
        ensures TxOK(s'.db, s'.txs[u], Locks(s', u))
      {
        CommitKeepsReaders(s, t, u);
      }
      forall a, b, r | Holds(s', a, r) && Holds(s', b, r)
        ensures a == b
      {
        assert Holds(s, a, r) && Holds(s, b, r);
      }
    }
  }

  lemma AfterKeeps(start: Db, s: Sys, e: Event)
    requires SysInv(start, s)
    ensures SysInv(start, After(s, e))
  {
    hide SysInv, Begin, AfterLock, Commit, End, LockPlan, Enabled;
    match e
    case EvBegin(t, req) => BeginKeeps(start, s, t, req);
    case EvAbort(t) => EndKeeps(start, s, t);
    case EvAdvance(t) =>
      if Enabled(s, t) {
        HeldBound(start, s, t);
        if s.txs[t].held < |Locks(s, t)| { LockKeeps(start, s, t); }
        else if !s.txs[t].read { ReadKeeps(start, s, t); }
        else { CommitKeeps(start, s, t); }
      }
  }

  lemma HeldBound(start: Db, s: Sys, t: nat)
    requires SysInv(start, s) && Enabled(s, t)
    ensures t in s.txs && s.txs[t].held <= |Locks(s, t)|
  {
    assert TxOK(s.db, s.txs[t], Locks(s, t));
  }

  lemma {:induction false} PlayKeeps(start: Db, s: Sys, events: seq<Event>)
    requires SysInv(start, s)
    ensures SysInv(start, Play(s, events))
    decreases |events|
  {
    hide SysInv, After;
    if events != [] {
      AfterKeeps(start, s, events[0]);
      PlayKeeps(start, After(s, events[0]), events[1..]);
    }
  }

  // --------------------------------------------------------------- main results

  lemma IdleInv(canonical: bool, db: Db)
    ensures SysInv(db, Idle(canonical, db))
  {
  }

  /** Serialisability: however lock, read and commit steps of any number of calls
      interleave, the database is the one the committed calls produce atomically
      one after the other, and each of them succeeds there. */
  lemma EveryInterleavingIsSerial(canonical: bool, start: Db, events: seq<Event>)
    ensures var s := Play(Idle(canonical, start), events);
            && s.db == Run(start, s.committed)
            && (forall i :: 0 <= i < |s.committed| ==>
              s.committed[i].StepCall? && Try(Run(start, s.committed[..i]), s.committed[i]).Ok?)
  {
    hide Run, Try, Play;
    IdleInv(canonical, start);
    PlayKeeps(start, Idle(canonical, start), events);
  }

  /** What a transaction sees when it commits is what the tables hold then. */
  lemma CommitsOnFreshViews(canonical: bool, start: Db, events: seq<Event>, t: nat)
    requires var s := Play(Idle(canonical, start), events); t in s.txs && s.txs[t].read
    ensures var s := Play(Idle(canonical, start), events);
            s.txs[t].view == ViewOf(s.db, s.txs[t].req)
  {
    hide Play, ViewOf;
    IdleInv(canonical, start);
    PlayKeeps(start, Idle(canonical, start), events);
    var s := Play(Idle(canonical, start), events);
    assert TxOK(s.db, s.txs[t], Locks(s, t));
  }

  /** Capacity in every reachable interleaved state: two adds in flight cannot
      together slip past the check. */
  lemma CapacityUnderInterleaving(canonical: bool, start: Db, events: seq<Event>, c: Id)
    requires Inv(start) && c in Play(Idle(canonical, start), events).db.containers
    ensures CapacityOK(Play(Idle(canonical, start), events).db, c)
  {
    hide CapacityOK, LifeCycleOK, Play, Run;
    EveryInterleavingIsSerial(canonical, start, events);
    var s := Play(Idle(canonical, start), events);
    RunKeepsInv(start, s.committed);
    assert ContainerOK(s.db, c);
  }

  /** The quantity ledger and the shipment accounting hold of every interleaving:
      committed calls stand in for the steps of a run. */
  lemma LedgersUnderInterleaving(canonical: bool, start: Db, events: seq<Event>, sel: Sel, so: Id)
    ensures var s := Play(Idle(canonical, start), events);
            && Balanced(Accounted(start, sel), Accounted(s.db, sel), RunFlow(start, s.committed, sel))
            && Booked(s.db, so) == Booked(start, so) + SealedIn(start, s.committed, so)
  {
    hide Run, Play, Accounted, RunFlow, SealedIn, Booked;
    EveryInterleavingIsSerial(canonical, start, events);
    var s := Play(Idle(canonical, start), events);
    QuantityLedger(start, s.committed, sel);
    BookedIsSealed(start, s.committed, so);
  }

  // ---------------------------------------------------------- deadlock freedom

  /** Locks are asked for in one global order. */
  ghost predicate Ordered(s: Sys) {
    s.canonical && forall t :: t in s.txs ==> CheckRequest(s.txs[t].req).None?
  }

  function Awaited(s: Sys, t: nat): Res
    requires t in s.txs && s.txs[t].held < |Locks(s, t)|
  {
    Locks(s, t)[s.txs[t].held]
  }

  /** Along an edge of the wait-for graph the awaited row moves up in the order. */
  lemma WaitsClimb(s: Sys, t: nat, u: nat, w: nat)
    requires Ordered(s) && WaitsFor(s, t, u) && WaitsFor(s, u, w)
    ensures Before(Awaited(s, t), Awaited(s, u))
  {
    PlanShape(s.txs[u].req, s.canonical);
    hide LockPlan, CheckRequest;
    var held := Locks(s, u)[..s.txs[u].held];
    var i :| 0 <= i < |held| && held[i] == Awaited(s, t);
    assert Locks(s, u)[i] == Awaited(s, t);
  }

  ghost predicate WaitPath(s: Sys, path: seq<nat>) {
    forall i :: 0 <= i < |path| - 1 ==> WaitsFor(s, path[i], path[i + 1])
  }

  lemma {:induction false} PathClimbs(s: Sys, path: seq<nat>)
    requires Ordered(s) && WaitPath(s, path) && |path| >= 3
    ensures WaitsFor(s, path[0], path[1]) && WaitsFor(s, path[|path| - 2], path[|path| - 1])
    ensures Before(Awaited(s, path[0]), Awaited(s, path[|path| - 2]))
    decreases |path|
  {
    hide WaitsFor, Ordered, Awaited, LockPlan;
    var n := |path|;
    assert WaitsFor(s, path[0], path[1]) && WaitsFor(s, path[n - 3], path[n - 2]);
    assert WaitsFor(s, path[n - 2], path[n - 1]);
    WaitsClimb(s, path[n - 3], path[n - 2], path[n - 1]);
    if n > 3 {
      assert WaitPath(s, path[..n - 1]);
      PathClimbs(s, path[..n - 1]);
    }
  }

  /** The wait-for graph has no cycle. */
  lemma NoDeadlockCycle(start: Db, events: seq<Event>, cycle: seq<nat>)
    requires |cycle| >= 2 && cycle[0] == cycle[|cycle| - 1]
    ensures !WaitPath(Play(Idle(true, start), events), cycle)
  {
    var s := Play(Idle(true, start), events);
    ReachableOrdered(start, events);
    hide Play, Ordered, LockPlan, Holds;
    if WaitPath(s, cycle) {
      var n := |cycle|;
      assert WaitsFor(s, cycle[0], cycle[1]);
      var path := cycle + [cycle[1]];
      assert WaitPath(s, path);
      PathClimbs(s, path);
    }
  }

  lemma {:induction false} CanonicalStays(s: Sys, events: seq<Event>)
    ensures Play(s, events).canonical == s.canonical
    decreases |events|
  {
    if events != [] {
      CanonicalStep(s, events[0]);
      hide After;
      CanonicalStays(After(s, events[0]), events[1..]);
    }
  }

  lemma CanonicalStep(s: Sys, e: Event)
    ensures After(s, e).canonical == s.canonical
  {
    hide Exec, ReadAggregates, Capture, StatusAllows, Blocked, CheckRequest, CheckOrder, LastContainer;
  }

  lemma ReachableOrdered(start: Db, events: seq<Event>)
    ensures SysInv(start, Play(Idle(true, start), events))
    ensures Ordered(Play(Idle(true, start), events))
  {
    hide Play, Run, Try, ViewOf, FreshView;
    IdleInv(true, start);
    PlayKeeps(start, Idle(true, start), events);
    CanonicalStays(Idle(true, start), events);
    var s := Play(Idle(true, start), events);
    forall t | t in s.txs
      ensures CheckRequest(s.txs[t].req).None?
    {
      assert TxOK(s.db, s.txs[t], Locks(s, t));
    }
  }

  /** The blocked transactions whose awaited row is after the given one. */
  ghost function Higher(s: Sys, r: Res): set<nat> {
    set t | t in s.txs && s.txs[t].held < |Locks(s, t)| && Before(r, Awaited(s, t))
  }

  lemma BeforeIsStrict(a: Res, b: Res, c: Res)
    ensures !Before(a, a)
    ensures Before(a, b) && Before(b, c) ==> Before(a, c)
  {
  }

  lemma SubsetCard(a: set<nat>, b: set<nat>)
    requires a <= b
    ensures |a| <= |b|
  {
    assert b == a + (b - a);
  }

  lemma HigherShrinks(s: Sys, t: nat, u: nat)
    requires t in s.txs && u in s.txs && s.txs[t].held < |Locks(s, t)| && s.txs[u].held < |Locks(s, u)|
    requires Before(Awaited(s, t), Awaited(s, u))
    ensures |Higher(s, Awaited(s, u))| < |Higher(s, Awaited(s, t))|
  {
    hide LockPlan, Awaited, Before;
    var a, b := Higher(s, Awaited(s, u)), Higher(s, Awaited(s, t));
    forall w | w in a
      ensures w in b
    {
      BeforeIsStrict(Awaited(s, t), Awaited(s, u), Awaited(s, w));
    }
    assert u in b;
    BeforeIsStrict(Awaited(s, u), Awaited(s, u), Awaited(s, u));
    SubsetCard(a, b - {u});
  }

  /** Following who waits for whom ends at a transaction that can step. */
  lemma {:induction false} FollowWaits(s: Sys, t: nat)
    requires Ordered(s) && WaitsSomewhere(s, t)
    ensures exists e :: Enabled(s, e)
    decreases |Higher(s, Awaited(s, t))|
  {
    hide Ordered, Awaited, Higher, LockPlan, Holds;
    var u :| u in s.txs && WaitsFor(s, t, u);
    if Blocked(s, u) {
      var w :| w in s.txs && WaitsFor(s, u, w);
      WaitsClimb(s, t, u, w);
      HigherShrinks(s, t, u);
      FollowWaits(s, u);
    } else {
      assert Enabled(s, u);
    }
  }

  ghost predicate WaitsSomewhere(s: Sys, t: nat) {
    t in s.txs && s.txs[t].held < |Locks(s, t)| && Blocked(s, t)
  }

  /** As long as a transaction is open, some transaction can step. */
  lemma SomeoneCanStep(s: Sys)
    requires Ordered(s) && s.txs != map[]
    ensures exists e :: Enabled(s, e)
  {
    hide Ordered, Holds, LockPlan;
    var t :| t in s.txs;
    if Blocked(s, t) {
      var u :| u in s.txs && WaitsFor(s, t, u);
      FollowWaits(s, t);
    } else {
      assert Enabled(s, t);
    }
  }

  /** Steps a transaction has left: its locks, its read, its commit. */
  function Left(s: Sys, t: nat): nat {
    if t !in s.txs || s.txs[t].held > |Locks(s, t)| then 0
    else |Locks(s, t)| - s.txs[t].held + if s.txs[t].read then 1 else 2
  }

  lemma AdvanceSpends(start: Db, s: Sys, t: nat, u: nat)
    requires SysInv(start, s) && Enabled(s, t)
    ensures Left(Advance(s, t), u) <= if u == t then Left(s, t) - 1 else Left(s, u)
  {
    HeldBound(start, s, t);
    hide *;
    CanonicalStep(s, EvAdvance(t));
    AdvanceShape(s, t);
    LeftDrops(s, Advance(s, t), t, u);
  }

  /** An advance touches no other transaction, and either ends this one or brings
      it one step further. */
  ghost predicate OneFurther(s: Sys, s': Sys, t: nat) {
    t in s.txs && s'.canonical == s.canonical && s'.txs - {t} == s.txs - {t}
    && (t in s'.txs ==>
      var a, b := s.txs[t], s'.txs[t];
      b.req == a.req
      && ((b.held == a.held + 1 && a.held < |Locks(s, t)| && b.read == a.read)
          || (b.held == a.held && b.read && !a.read && a.held == |Locks(s, t)|)))
  }

  lemma AdvanceShape(s: Sys, t: nat)
    requires Enabled(s, t) && s.txs[t].held <= |Locks(s, t)|
    ensures OneFurther(s, Advance(s, t), t)
  {
    hide LockPlan, Exec, ReadAggregates, Capture, StatusAllows, LastContainer, Blocked;
  }

  lemma LeftDrops(s: Sys, s': Sys, t: nat, u: nat)
    requires OneFurther(s, s', t) && s.txs[t].held <= |Locks(s, t)|
    ensures Left(s', u) <= if u == t then Left(s, t) - 1 else Left(s, u)
  {
    hide LockPlan;
    if u != t {
      assert u in s'.txs <==> u in s'.txs - {t};
      assert u in s.txs <==> u in s.txs - {t};
      assert u in s.txs ==> (s'.txs - {t})[u] == (s.txs - {t})[u];
    }
  }

  /** A schedule that only ever picks a transaction that can step. */
  ghost predicate Drives(s: Sys, schedule: seq<nat>)
    decreases |schedule|
  {
    schedule == [] || (Enabled(s, schedule[0]) && Drives(Advance(s, schedule[0]), schedule[1..]))
  }

  function Driven(s: Sys, schedule: seq<nat>): Sys
    decreases |schedule|
  {
    if schedule == [] then s else Driven(Advance(s, schedule[0]), schedule[1..])
  }

  lemma {:induction false} StepsAreBounded(start: Db, s: Sys, schedule: seq<nat>, t: nat)
    requires SysInv(start, s) && Drives(s, schedule)
    ensures multiset(schedule)[t] + Left(Driven(s, schedule), t) <= Left(s, t)
    ensures SysInv(start, Driven(s, schedule))
    decreases |schedule|
  {
    hide SysInv, Advance, Left, Enabled;
    if schedule != [] {
      AfterKeeps(start, s, EvAdvance(schedule[0]));
      AdvanceSpends(start, s, schedule[0], t);
      StepsAreBounded(start, Advance(s, schedule[0]), schedule[1..], t);
      assert schedule == [schedule[0]] + schedule[1..];
    }
  }

  lemma {:induction false} DrivenIsPlayed(s: Sys, schedule: seq<nat>)
    ensures exists events :: Driven(s, schedule) == Play(s, events)
    decreases |schedule|
  {
    hide Advance;
    if schedule == [] {
      assert Driven(s, schedule) == Play(s, []);
    } else {
      var s1 := Advance(s, schedule[0]);
      DrivenIsPlayed(s1, schedule[1..]);
      var rest :| Driven(s1, schedule[1..]) == Play(s1, rest);
      var events := [EvAdvance(schedule[0])] + rest;
      assert events[1..] == rest;
      assert Play(s, events) == Play(After(s, events[0]), events[1..]);
    }
  }

  /** Every transaction finishes under every scheduler. From any reachable state,
      however the open transactions are scheduled, each takes at most five more
      steps, and the schedule can only stop when none is open. */
  lemma AllFinish(start: Db, events: seq<Event>, schedule: seq<nat>)
    requires Drives(Play(Idle(true, start), events), schedule)
    ensures forall t :: multiset(schedule)[t] <= 5
    ensures var end := Driven(Play(Idle(true, start), events), schedule);
            end.txs == map[] || exists t :: Enabled(end, t)
  {
    hide Play, Driven, Drives, SysInv, Ordered, Enabled;
    var s := Play(Idle(true, start), events);
    ReachableOrdered(start, events);
    forall t
      ensures multiset(schedule)[t] <= 5
    {
      StepsAreBounded(start, s, schedule, t);
      LeftAtMostFive(start, s, t);
    }
    DrivenKeepsOrder(start, s, schedule);
    if Driven(s, schedule).txs != map[] { SomeoneCanStep(Driven(s, schedule)); }
  }

  lemma LeftAtMostFive(start: Db, s: Sys, t: nat)
    requires SysInv(start, s)
    ensures Left(s, t) <= 5
  {
    if t in s.txs {
      assert TxOK(s.db, s.txs[t], Locks(s, t));
      PlanShape(s.txs[t].req, s.canonical);
    }
  }

  lemma DrivenKeepsOrder(start: Db, s: Sys, schedule: seq<nat>)
    requires SysInv(start, s) && Ordered(s) && Drives(s, schedule)
    ensures Ordered(Driven(s, schedule))
  {
    hide Driven, Drives, Play, Run, Try, ViewOf, FreshView;
    StepsAreBounded(start, s, schedule, 0);
    DrivenIsPlayed(s, schedule);
    var events :| Driven(s, schedule) == Play(s, events);
    CanonicalStays(s, events);
    var s' := Driven(s, schedule);
    forall t | t in s'.txs
      ensures CheckRequest(s'.txs[t].req).None?
    {
      assert TxOK(s'.db, s'.txs[t], Locks(s', t));
    }
  }

  // ------------------------------------------------ why the canonical order matters

  lemma TakesSource(s: Sys, t: nat)
    requires !s.canonical && t in s.txs && Enabled(s, t) && s.txs[t].req.TransferLine? && s.txs[t].held == 0
    requires CheckRequest(s.txs[t].req).None? && s.txs[t].req.container in s.db.containers
    ensures var tx := s.txs[t];
            Advance(s, t) == s.(txs := s.txs[t := tx.(held := 1,
              view := tx.view.(main := Some(s.db.containers[tx.req.container])))])
  {
    hide Exec, ReadAggregates, StatusAllows, Enabled, ReasonBlank;
    var req := s.txs[t].req;
    assert Locks(s, t) == [C(req.container), C(req.target), L(req.line)];
  }

  lemma SourceHeld(s: Sys, t: nat)
    requires !s.canonical && t in s.txs && s.txs[t].req.TransferLine? && s.txs[t].held == 1
    ensures forall r :: Holds(s, t, r) <==> r == C(s.txs[t].req.container)
    ensures Awaited(s, t) == C(s.txs[t].req.target)
  {
    assert Locks(s, t)[..1] == [C(s.txs[t].req.container)];
  }

  function Crossing(db: Db, x: Request, y: Request): Sys {
    Play(Idle(false, db), [EvBegin(1, x), EvBegin(2, y), EvAdvance(1), EvAdvance(2)])
  }

  lemma PlayFour(s: Sys, a: Event, b: Event, c: Event, d: Event)
    ensures Play(s, [a, b, c, d]) == After(After(After(After(s, a), b), c), d)
  {
    hide After;
    assert [a, b, c, d][1..] == [b, c, d] && [b, c, d][1..] == [c, d] && [c, d][1..] == [d];
    PlayOne(After(After(After(s, a), b), c), d);
    assert Play(After(After(s, a), b), [c, d]) == Play(After(After(After(s, a), b), c), [d]);
    assert Play(After(s, a), [b, c, d]) == Play(After(After(s, a), b), [c, d]);
  }

  lemma PlayOne(s: Sys, e: Event)
    ensures Play(s, [e]) == After(s, e)
  {
    assert [e][1..] == [];
  }

  lemma CrossingState(db: Db, x: Request, y: Request)
    requires x.TransferLine? && y.TransferLine? && CheckRequest(x).None? && CheckRequest(y).None?
    requires x.container == y.target && x.target == y.container
    requires x.container in db.containers && y.container in db.containers
    ensures var s := Crossing(db, x, y);
            && s.txs.Keys == {1, 2} && !s.canonical && s.txs[1].req == x && s.txs[2].req == y
            && s.txs[1].held == s.txs[2].held == 1
  {
    PlayFour(Idle(false, db), EvBegin(1, x), EvBegin(2, y), EvAdvance(1), EvAdvance(2));
    var s2 := Begin(Begin(Idle(false, db), 1, x), 2, y);
    assert x.container != y.container;
    hide Capture, StatusAllows, CheckRequest, Play, Exec, ReadAggregates, AfterLock, Commit;
    assert Enabled(s2, 1);
    TakesSource(s2, 1);
    var s3 := Advance(s2, 1);
    hide Advance;
    SourceHeld(s3, 1);
    assert Enabled(s3, 2);
    TakesSource(s3, 2);
  }

  /** Without it, two opposite transfers deadlock: once each holds its source
      container, no schedule moves either of them again. */
  lemma ArgumentOrderDeadlocks(db: Db, x: Request, y: Request)
    requires x.TransferLine? && y.TransferLine? && CheckRequest(x).None? && CheckRequest(y).None?
    requires x.container == y.target && x.target == y.container
    requires x.container in db.containers && y.container in db.containers
    ensures var s := Play(Idle(false, db), [EvBegin(1, x), EvBegin(2, y), EvAdvance(1), EvAdvance(2)]);
            && s.txs.Keys == {1, 2}
            && WaitPath(s, [1, 2, 1])
            && (forall t :: !Enabled(s, t))
  {
    CrossingState(db, x, y);
    var s := Crossing(db, x, y);
    hide Play, LockPlan, Holds, CheckRequest;
    assert s == Play(Idle(false, db), [EvBegin(1, x), EvBegin(2, y), EvAdvance(1), EvAdvance(2)]);
    hide Crossing;
    SourceHeld(s, 1);
    SourceHeld(s, 2);
    assert WaitsFor(s, 1, 2) && WaitsFor(s, 2, 1);
  }
}
