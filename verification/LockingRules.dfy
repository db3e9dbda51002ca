/** A transaction with nobody beside it: its begin, lock, read and commit steps
    add up to the atomic call, so it gives up early only on calls that fail. */
module LockingRules {
  import opened Common
  import opened LineTable
  import opened Delivery
  import opened Loading
  import opened Locking

  // ---------------------------------------------------------- giving up early

  /** A row the plan names is missing: the call fails. */
  lemma MissingRowFails(db: Db, req: Request, canonical: bool, r: Res)
    requires CheckRequest(req).None? && r in LockPlan(req, canonical) && !Exists(db, r)
    ensures Exec(db, req, ViewOf(db, req)).Err?
  {
    PlanShape(req, canonical);
    hide LoadOf, Pick, LockPlan, Fits;
  }

  /** The containers are not in a status the call starts from: the call fails. */
  lemma StatusFails(db: Db, req: Request, v: View)
    requires CheckRequest(req).None? && !StatusAllows(req, v)
    requires v.main == Lookup(db.containers, req.container)
    requires req.TransferLine? ==> v.target == Lookup(db.containers, req.target)
    ensures Exec(db, req, ViewOf(db, req)).Err?
  {
    hide LoadOf, Pick, Fits;
  }

  /** After the last container lock all containers of the call are locked. */
  lemma ContainersHeld(req: Request, canonical: bool, held: nat)
    requires CheckRequest(req).None? && LastContainer(LockPlan(req, canonical), held)
    ensures held <= |LockPlan(req, canonical)|
    ensures C(req.container) in LockPlan(req, canonical)[..held]
    ensures req.TransferLine? ==> C(req.target) in LockPlan(req, canonical)[..held]
  {
    var plan := LockPlan(req, canonical);
    if req.TransferLine? {
      assert held == 2;
      assert plan[..2] == [plan[0], plan[1]];
    } else {
      assert held == 1;
      assert plan[..1] == [plan[0]];
    }
  }

  lemma LockFails(db: Db, tx: Tx, canonical: bool)
    requires var plan := LockPlan(tx.req, canonical);
             && TxOK(db, tx, plan) && tx.held < |plan|
             && match Capture(db, tx.req, tx.view, plan[tx.held])
                case None => true
                case Some(v) => LastContainer(plan, tx.held + 1) && !StatusAllows(tx.req, v)
    ensures Exec(db, tx.req, ViewOf(db, tx.req)).Err?
  {
    hide Exec, ViewOf, StatusAllows, LockPlan, CheckOrder, LastContainer;
    var plan := LockPlan(tx.req, canonical);
    match Capture(db, tx.req, tx.view, plan[tx.held])
    case None => MissingRowFails(db, tx.req, canonical, plan[tx.held]);
    case Some(v) =>
      CaptureIsFresh(db, tx, canonical, v);
      ContainersHeld(tx.req, canonical, tx.held + 1);
      StatusFails(db, tx.req, v);
  }

  // ------------------------------------------------------------------- alone

  /** The transaction is the only one and nothing has been written. */
  ghost predicate Alone(start: Db, s: Sys, t: nat, req: Request) {
    s.txs.Keys == {t} && s.db == start && s.txs[t].req == req && s.txs[t].seen == start.soLines
  }

  /** It is over, and the database is what the atomic call makes of it. */
  ghost predicate Over(start: Db, s: Sys, req: Request) {
    s.txs == map[] && s.db == Next(start, StepCall(req, start.soLines))
  }

  lemma AloneStep(start: Db, s: Sys, t: nat, req: Request)
    requires SysInv(start, s) && Alone(start, s, t, req)
    ensures Enabled(s, t)
    ensures Alone(start, Advance(s, t), t, req) || Over(start, Advance(s, t), req)
  {
    hide Exec, ViewOf, LockPlan, CheckRequest, CheckOrder, Capture, StatusAllows, LastContainer, Serial, FreshView;
    var tx := s.txs[t];
    assert TxOK(s.db, tx, Locks(s, t));
    assert s.txs - {t} == map[];
    if tx.held < |Locks(s, t)| {
      if Advance(s, t) == End(s, t) && Advance(s, t).txs == map[] { LockFailsHere(s, t); }
    } else if tx.read {
      assert Try(s.db, StepCall(req, tx.seen)) == Exec(s.db, req, tx.view);
    }
  }

  lemma LockFailsHere(s: Sys, t: nat)
    requires t in s.txs && TxOK(s.db, s.txs[t], Locks(s, t)) && s.txs[t].held < |Locks(s, t)|
    requires t !in AfterLock(s, t).txs
    ensures Call(s.db, s.txs[t].req, s.txs[t].seen).Err?
  {
    hide Exec, ViewOf, LockPlan, Capture, StatusAllows, LastContainer, FreshView;
    LockFails(s.db, s.txs[t], s.canonical);
  }

  function Advances(t: nat, n: nat): seq<Event> { seq(n, _ => EvAdvance(t)) }

  lemma {:induction false} OverStays(start: Db, s: Sys, t: nat, req: Request, n: nat)
    requires Over(start, s, req)
    ensures Over(start, Play(s, Advances(t, n)), req)
    decreases n
  {
    if n > 0 {
      hide Next;
      assert Advance(s, t) == s;
      assert Advances(t, n)[1..] == Advances(t, n - 1);
      OverStays(start, s, t, req, n - 1);
    }
  }

  lemma {:induction false} AloneFinishes(start: Db, s: Sys, t: nat, req: Request, n: nat)
    requires SysInv(start, s) && Alone(start, s, t, req) && Left(s, t) <= n
    ensures Over(start, Play(s, Advances(t, n)), req)
    decreases n
  {
    hide SysInv, Advance, Left, Enabled, Over;
    AloneStep(start, s, t, req);
    AdvanceSpends(start, s, t, t);
    AfterKeeps(start, s, EvAdvance(t));
    LeftIsPositive(start, s, t);
    assert Advances(t, n)[0] == EvAdvance(t) && Advances(t, n)[1..] == Advances(t, n - 1);
    if Alone(start, Advance(s, t), t, req) {
      AloneFinishes(start, Advance(s, t), t, req, n - 1);
    } else {
      OverStays(start, Advance(s, t), t, req, n - 1);
    }
  }

  lemma LeftIsPositive(start: Db, s: Sys, t: nat)
    requires SysInv(start, s) && Enabled(s, t)
    ensures Left(s, t) > 0
  {
    HeldBound(start, s, t);
    hide LockPlan, SysInv;
  }

  lemma {:induction false} NothingToAdvance(s: Sys, t: nat, n: nat)
    requires t !in s.txs
    ensures Play(s, Advances(t, n)) == s
    decreases n
  {
    if n > 0 {
      assert Advances(t, n)[1..] == Advances(t, n - 1);
      NothingToAdvance(s, t, n - 1);
    }
  }

  /** A call that begins and advances with nobody beside it ends within five steps
      with exactly what the atomic call does, be it the commit or no change. */
  lemma SoloRunIsCall(canonical: bool, start: Db, t: nat, req: Request)
    ensures var s := Play(Idle(canonical, start), [EvBegin(t, req)] + Advances(t, 5));
            s.txs == map[] && s.db == Next(start, StepCall(req, start.soLines))
  {
    hide Advance, CheckRequest, CheckOrder, SysInv, Exec, ViewOf;
    var idle := Idle(canonical, start);
    var s := Begin(idle, t, req);
    assert ([EvBegin(t, req)] + Advances(t, 5))[1..] == Advances(t, 5);
    if s == idle {
      NothingToAdvance(idle, t, 5);
    } else {
      IdleInv(canonical, start);
      BeginKeeps(start, idle, t, req);
      assert s.txs.Keys == {t};
      LeftAtMostFive(start, s, t);
      AloneFinishes(start, s, t, req, 5);
    }
  }
}
