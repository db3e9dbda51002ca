/** Costing records: computing, finalising and adjusting them, with any number of
    calls between their read and their write. */
module Costing {
  import opened Common
  import opened Domain

  datatype Kind = Estimated | Actual

  datatype WorkOrderStatus = Planned | InProgress | Completed | PartialComplete | OtherStatus

  datatype Record = Record(id: Id, sku: Id, kind: Kind, material: int, auxiliary: int, labor: int, total: int,
                           finalizedBy: Option<Id>, createdAt: int)

  datatype Adjustment = Adjustment(record: Id, reason: string, material: int, auxiliary: int, labor: int, total: int)

  /** One record per work order, by the UNIQUE column. */
  datatype Db = Db(records: map<Id, Record>, adjustments: seq<Adjustment>)

  predicate Finalized(r: Record) { r.finalizedBy.Some? }

  // ------------------------------------------------------------------- requests

  /** A sheet's cost, the area used from it and its whole area. */
  datatype CutShare = CutShare(cost: int, used: int, area: int)

  /** What a call brings: its arguments, the answers of other modules, the clock
      and a fresh id. */
  datatype Request =
    | Compute(wo: Id, status: WorkOrderStatus, sku: Id, shares: seq<CutShare>, auxiliary: int, labor: int,
              newId: Id, now: int)
    | Finalize(wo: Id, actor: Id)
    | Adjust(wo: Id, reason: string, material: int, auxiliary: int, labor: int)

  /** The statement a call finally sends. */
  datatype Write =
    | UpdateRecord(wo: Id, row: Record)
    | InsertRecord(wo: Id, row: Record)
    | MarkFinalized(wo: Id, actor: Id)
    | InsertAdjustment(adjustment: Adjustment)

  /** The sheets' costs in proportion to the areas used, truncated sheet by sheet. */
  function MaterialCost(shares: seq<CutShare>): int {
    if shares == [] then 0
    else
      var last := shares[|shares| - 1];
      MaterialCost(shares[..|shares| - 1]) + if last.area <= 0 then 0 else Scale(last.cost, last.used, last.area)
  }

  function KindOf(status: WorkOrderStatus): Kind { if status == Planned then Estimated else Actual }

  predicate Costable(status: WorkOrderStatus) { status in {Planned, Completed, PartialComplete} }

  function Computed(req: Request, id: Id, createdAt: int): Record
    requires req.Compute?
  {
    var m := MaterialCost(req.shares);
    Record(id, req.sku, KindOf(req.status), m, req.auxiliary, req.labor, m + req.auxiliary + req.labor, None, createdAt)
  }

  function DeltaTotal(req: Request): int
    requires req.Adjust?
  {
    req.material + req.auxiliary + req.labor
  }

  /** The part of a call before its write: checks and reads. */
  function Prepare(db: Db, req: Request): Result<Write> {
    match req
    case Compute(wo, status, _, _, _, _, newId, now) =>
      if !Costable(status) then Err(PreconditionFailed)
      else if wo in db.records && Finalized(db.records[wo]) then Err(AlreadyFinalized)
      else if KindOf(status) == Actual && Computed(req, newId, now).total == 0 then Err(PreconditionFailed)
      else if wo in db.records
      then Ok(UpdateRecord(wo, Computed(req, db.records[wo].id, db.records[wo].createdAt)))
      else Ok(InsertRecord(wo, Computed(req, newId, now)))
    case Finalize(wo, actor) => Ok(MarkFinalized(wo, actor))
    case Adjust(wo, reason, material, auxiliary, labor) =>
      if reason == "" then Err(InvalidInput)
      else if wo !in db.records then Err(NotFound)
      else if !Finalized(db.records[wo]) then Err(PreconditionFailed)
      else if material == 0 && auxiliary == 0 && labor == 0 then Err(InvalidInput)
      else Ok(InsertAdjustment(Adjustment(db.records[wo].id, reason, material, auxiliary, labor, DeltaTotal(req))))
  }

  predicate IdTaken(db: Db, id: Id) { exists wo | wo in db.records :: db.records[wo].id == id }

  /** The guarded statement. */
  function Execute(db: Db, w: Write): Result<Db> {
    match w
    case UpdateRecord(wo, row) =>
      if wo !in db.records || Finalized(db.records[wo]) then Err(AlreadyFinalized)
      else
        var current := db.records[wo];
        var row' := row.(id := current.id, finalizedBy := None, createdAt := current.createdAt);
        Ok(db.(records := db.records[wo := row']))
    case InsertRecord(wo, row) =>
      if wo in db.records || IdTaken(db, row.id) then Err(DbError) else Ok(db.(records := db.records[wo := row]))
    case MarkFinalized(wo, actor) =>
      if wo !in db.records then Err(NotFound)
      else if Finalized(db.records[wo]) then Err(AlreadyFinalized)
      else Ok(db.(records := db.records[wo := db.records[wo].(finalizedBy := Some(actor))]))
    case InsertAdjustment(row) =>
      if !IdTaken(db, row.record) then Err(DbError) else Ok(db.(adjustments := db.adjustments + [row]))
  }

  /** A call with nobody in between. */
  function Call(db: Db, req: Request): Result<Db> {
    match Prepare(db, req)
    case Err(e) => Err(e)
    case Ok(w) => Execute(db, w)
  }

  function Next(db: Db, req: Request): Db { if Call(db, req).Ok? then Call(db, req).value else db }

  function Run(db: Db, reqs: seq<Request>): Db {
    if reqs == [] then db else Next(Run(db, reqs[..|reqs| - 1]), reqs[|reqs| - 1])
  }

  // --------------------------------------------------------------- interleaving

  /** A call between its read and its write. */
  datatype Pending = Pending(req: Request, write: Write)

  datatype Sys = Sys(db: Db, pending: map<nat, Pending>, committed: seq<Request>)

  datatype Event = Begin(t: nat, req: Request) | Finish(t: nat) | Abandon(t: nat)

  function After(s: Sys, e: Event): Sys {
    match e
    case Begin(t, req) =>
      if t in s.pending || Prepare(s.db, req).Err? then s
      else s.(pending := s.pending[t := Pending(req, Prepare(s.db, req).value)])
    case Finish(t) =>
      if t !in s.pending then s
      else if Execute(s.db, s.pending[t].write).Err? then s.(pending := s.pending - {t})
      else Sys(Execute(s.db, s.pending[t].write).value, s.pending - {t}, s.committed + [s.pending[t].req])
    case Abandon(t) => s.(pending := s.pending - {t})
  }

  function Play(s: Sys, events: seq<Event>): Sys
    decreases |events|
  {
    if events == [] then s else Play(After(s, events[0]), events[1..])
  }

  const Empty := Db(map[], [])

  /** A pending call still carries the write it would prepare now, or, if it
      found no record, an insert. */
  ghost predicate PendingOK(db: Db, p: Pending) {
    match p.req
    case Compute(wo, status, _, _, _, _, newId, now) =>
      && Costable(status)
      && (KindOf(status) == Actual ==> Computed(p.req, newId, now).total != 0)
      && (p.write == InsertRecord(wo, Computed(p.req, newId, now))
          || (wo in db.records
              && p.write == UpdateRecord(wo, Computed(p.req, db.records[wo].id, db.records[wo].createdAt))))
    case Finalize(wo, actor) => p.write == MarkFinalized(wo, actor)
    case Adjust(wo, _, _, _, _) =>
      wo in db.records && Finalized(db.records[wo]) && Prepare(db, p.req) == Ok(p.write)
  }

  lemma PreparedOK(db: Db, req: Request)
    requires Prepare(db, req).Ok?
    ensures PendingOK(db, Pending(req, Prepare(db, req).value))
  {
  }

  /** Rows keep their id and creation time, and finalised rows everything. */
  ghost predicate Keeps(db: Db, db': Db) {
    && (forall wo :: wo in db.records ==>
      && wo in db'.records
      && db'.records[wo].id == db.records[wo].id && db'.records[wo].createdAt == db.records[wo].createdAt
      && (Finalized(db.records[wo]) ==> db'.records[wo] == db.records[wo]))
    && db.adjustments <= db'.adjustments
  }

  lemma ExecuteKeeps(db: Db, w: Write)
    requires Execute(db, w).Ok?
    ensures Keeps(db, Execute(db, w).value)
  {
  }

  lemma KeepsPending(db: Db, db': Db, p: Pending)
    requires Keeps(db, db') && PendingOK(db, p)
    ensures PendingOK(db', p)
  {
  }

  /** A write that goes through late does what the whole call would do now. */
  lemma LateWriteIsCall(db: Db, p: Pending)
    requires PendingOK(db, p) && Execute(db, p.write).Ok?
    ensures Call(db, p.req) == Execute(db, p.write)
  {
  }

  lemma LateWriteRefused(db: Db, p: Pending)
    requires PendingOK(db, p) && Execute(db, p.write).Err?
    ensures Call(db, p.req).Ok? <==>
      p.write.InsertRecord? && p.write.wo in db.records && !Finalized(db.records[p.write.wo])
  {
  }

  ghost predicate SysInv(start: Db, s: Sys) {
    && (forall t :: t in s.pending ==> PendingOK(s.db, s.pending[t]))
    && s.db == Run(start, s.committed)
    && AllSucceed(start, s.committed)
  }

  ghost predicate AllSucceed(start: Db, reqs: seq<Request>) {
    forall i :: 0 <= i < |reqs| ==> Call(Run(start, reqs[..i]), reqs[i]).Ok?
  }

  lemma OneMoreSucceeds(start: Db, reqs: seq<Request>, req: Request)
    requires AllSucceed(start, reqs) && Call(Run(start, reqs), req).Ok?
    ensures AllSucceed(start, reqs + [req])
  {
    hide Run, Call;
    forall i | 0 <= i < |reqs + [req]|
      ensures Call(Run(start, (reqs + [req])[..i]), (reqs + [req])[i]).Ok?
    {
      assert (reqs + [req])[..i] == if i < |reqs| then reqs[..i] else reqs;
    }
  }

  lemma AfterKeeps(start: Db, s: Sys, e: Event)
    requires SysInv(start, s)
    ensures SysInv(start, After(s, e)) && Keeps(s.db, After(s, e).db)
  {
    hide PendingOK, Prepare, Execute, Keeps, AllSucceed;
    KeepsRefl(s.db);
    match e
    case Begin(t, req) => if Prepare(s.db, req).Ok? { PreparedOK(s.db, req); }
    case Abandon(t) =>
    case Finish(t) =>
      if t in s.pending && Execute(s.db, s.pending[t].write).Ok? {
        var s' := After(s, e);
        ExecuteKeeps(s.db, s.pending[t].write);
        LateWriteIsCall(s.db, s.pending[t]);
        OneMoreSucceeds(start, s.committed, s.pending[t].req);
        assert s'.committed[..|s'.committed| - 1] == s.committed;
        forall u | u in s'.pending
          ensures PendingOK(s'.db, s'.pending[u])
        {
          KeepsPending(s.db, s'.db, s.pending[u]);
        }
      }
  }

  lemma KeepsRefl(db: Db)
    ensures Keeps(db, db)
  {
  }

  lemma {:induction false} PlayKeeps(start: Db, s: Sys, events: seq<Event>)
    requires SysInv(start, s)
    ensures SysInv(start, Play(s, events)) && Keeps(s.db, Play(s, events).db)
    decreases |events|
  {
    hide SysInv, After, Keeps;
    if events == [] {
      KeepsRefl(s.db);
    } else {
      AfterKeeps(start, s, events[0]);
      PlayKeeps(start, After(s, events[0]), events[1..]);
      KeepsTrans(s.db, After(s, events[0]).db, Play(s, events).db);
    }
  }

  lemma KeepsTrans(a: Db, b: Db, c: Db)
    requires Keeps(a, b) && Keeps(b, c)
    ensures Keeps(a, c)
  {
  }

  // ----------------------------------------------------------------- main results

  /** Whatever calls are between read and write, the tables are those of the
      committed calls made one after the other, each of which succeeds. */
  lemma EveryInterleavingIsSerial(start: Db, events: seq<Event>)
    ensures var s := Play(Sys(start, map[], []), events);
            && s.db == Run(start, s.committed)
            && (forall i :: 0 <= i < |s.committed| ==> Call(Run(start, s.committed[..i]), s.committed[i]).Ok?)
  {
    hide Play, Run;
    assert Run(start, []) == start by { RunNothing(start); }
    PlayKeeps(start, Sys(start, map[], []), events);
  }

  lemma RunNothing(start: Db)
    ensures Run(start, []) == start
  {
  }

  /** Once finalised a record never changes: not by calls that start later, nor
      by those that read it before it was finalised and write afterwards. */
  lemma FinalizedIsFrozen(start: Db, before: seq<Event>, after: seq<Event>, wo: Id)
    requires var s := Play(Sys(start, map[], []), before); wo in s.db.records && Finalized(s.db.records[wo])
    ensures var s := Play(Sys(start, map[], []), before);
            var s' := Play(s, after);
            wo in s'.db.records && s'.db.records[wo] == s.db.records[wo]
  {
    hide Play, Run;
    RunNothing(start);
    PlayKeeps(start, Sys(start, map[], []), before);
    PlayKeeps(start, Play(Sys(start, map[], []), before), after);
  }

  /** In every interleaved run a late write is refused although the call would go
      through now exactly when it is a first computation and another one was
      written in between. */
  lemma RefusedByRaceIff(events: seq<Event>, t: nat)
    requires var s := Play(Sys(Empty, map[], []), events);
             t in s.pending && Execute(s.db, s.pending[t].write).Err?
    ensures var s := Play(Sys(Empty, map[], []), events);
            var p := s.pending[t];
            Call(s.db, p.req).Ok? <==>
              p.write.InsertRecord? && p.write.wo in s.db.records && !Finalized(s.db.records[p.write.wo])
  {
    hide Play, Run, Execute, Call, PendingOK;
    RunNothing(Empty);
    PlayKeeps(Empty, Sys(Empty, map[], []), events);
    var s := Play(Sys(Empty, map[], []), events);
    LateWriteRefused(s.db, s.pending[t]);
  }

  function Estimate(newId: Id): Request { Compute(1, Planned, 2, [], 10, 0, newId, 0) }

  /** It happens: two first computations of a work order begin, one is written,
      the other is then refused. */
  lemma RaceHappens()
    ensures var s := Play(Sys(Empty, map[], []), [Begin(1, Estimate(7)), Begin(2, Estimate(8)), Finish(1)]);
            && 2 in s.pending && Execute(s.db, s.pending[2].write).Err?
            && Call(s.db, s.pending[2].req).Ok?
  {
    var s0 := Sys(Empty, map[], []);
    var s1 := After(s0, Begin(1, Estimate(7)));
    var s2 := After(s1, Begin(2, Estimate(8)));
    assert s2.pending.Keys == {1, 2};
    var events := [Begin(1, Estimate(7)), Begin(2, Estimate(8)), Finish(1)];
    assert events[1..] == [Begin(2, Estimate(8)), Finish(1)] && events[1..][1..] == [Finish(1)];
    assert Play(s2, [Finish(1)]) == Play(After(s2, Finish(1)), []);
    assert Play(s1, events[1..]) == Play(s2, [Finish(1)]);
  }

  ghost predicate RecordOK(r: Record) {
    && r.total == r.material + r.auxiliary + r.labor
    && (r.kind == Actual ==> r.total != 0)
  }

  /** What holds of every row in every run from empty tables. */
  ghost predicate RowsOK(db: Db) {
    && (forall wo :: wo in db.records ==> RecordOK(db.records[wo]))
    && (forall wo, wo' :: wo in db.records && wo' in db.records ==>
      db.records[wo].id == db.records[wo'].id ==> wo == wo')
    && (forall i :: 0 <= i < |db.adjustments| ==> AdjustmentOK(db, db.adjustments[i]))
  }

  ghost predicate AdjustmentOK(db: Db, a: Adjustment) {
    && a.total == a.material + a.auxiliary + a.labor
    && (a.material != 0 || a.auxiliary != 0 || a.labor != 0)
    && exists wo :: wo in db.records && db.records[wo].id == a.record && Finalized(db.records[wo])
  }

  lemma AdjustmentStaysOK(db: Db, db': Db, a: Adjustment)
    requires AdjustmentOK(db, a) && Keeps(db, db')
    ensures AdjustmentOK(db', a)
  {
    var wo :| wo in db.records && db.records[wo].id == a.record && Finalized(db.records[wo]);
    assert wo in db'.records && db'.records[wo].id == a.record;
  }

  lemma CallKeepsRecords(db: Db, req: Request)
    requires Call(db, req).Ok? && (forall wo :: wo in db.records ==> RecordOK(db.records[wo]))
    ensures var db' := Call(db, req).value; forall wo :: wo in db'.records ==> RecordOK(db'.records[wo])
  {
    hide MaterialCost;
  }

  lemma CallKeepsIds(db: Db, req: Request)
    requires Call(db, req).Ok?
    requires forall wo, wo' :: wo in db.records && wo' in db.records ==>
      db.records[wo].id == db.records[wo'].id ==> wo == wo'
    ensures var db' := Call(db, req).value;
            forall wo, wo' :: wo in db'.records && wo' in db'.records ==>
              db'.records[wo].id == db'.records[wo'].id ==> wo == wo'
  {
    hide MaterialCost;
  }

  lemma CallKeepsAdjustments(db: Db, req: Request)
    requires Call(db, req).Ok? && (forall i :: 0 <= i < |db.adjustments| ==> AdjustmentOK(db, db.adjustments[i]))
    ensures var db' := Call(db, req).value;
            forall i :: 0 <= i < |db'.adjustments| ==> AdjustmentOK(db', db'.adjustments[i])
  {
    hide AdjustmentOK, MaterialCost;
    var db' := Call(db, req).value;
    ExecuteKeeps(db, Prepare(db, req).value);
    forall i | 0 <= i < |db'.adjustments|
      ensures AdjustmentOK(db', db'.adjustments[i])
    {
      if i < |db.adjustments| { AdjustmentStaysOK(db, db', db.adjustments[i]); }
      else { NewAdjustmentOK(db, req); }
    }
  }

  lemma CallKeepsRows(db: Db, req: Request)
    requires RowsOK(db)
    ensures RowsOK(Next(db, req))
  {
    hide AdjustmentOK, RecordOK, Call;
    if Call(db, req).Ok? {
      CallKeepsRecords(db, req);
      CallKeepsIds(db, req);
      CallKeepsAdjustments(db, req);
    }
  }

  lemma NewAdjustmentOK(db: Db, req: Request)
    requires req.Adjust? && Call(db, req).Ok?
    ensures var db' := Call(db, req).value;
            |db'.adjustments| == |db.adjustments| + 1 && AdjustmentOK(db', db'.adjustments[|db.adjustments|])
  {
  }

  lemma {:induction false} RunKeepsRows(db: Db, reqs: seq<Request>)
    requires RowsOK(db)
    ensures RowsOK(Run(db, reqs))
  {
    hide RowsOK, Next;
    if reqs != [] {
      RunKeepsRows(db, reqs[..|reqs| - 1]);
      CallKeepsRows(Run(db, reqs[..|reqs| - 1]), reqs[|reqs| - 1]);
    }
  }

  /** In every interleaved run: totals are the sums of their parts, an ACTUAL
      record is never zero, and adjustments exist only on finalised records. */
  lemma RowsAlwaysOK(events: seq<Event>)
    ensures RowsOK(Play(Sys(Empty, map[], []), events).db)
  {
    hide Play, Run, AdjustmentOK;
    EveryInterleavingIsSerial(Empty, events);
    RunKeepsRows(Empty, Play(Sys(Empty, map[], []), events).committed);
  }

  // ------------------------------------------------------------ effective totals

  datatype Effective = Effective(material: int, auxiliary: int, labor: int, total: int)

  /** The record's amounts plus those of its adjustments. */
  function EffectiveOf(r: Record, adjs: seq<Adjustment>): Effective {
    if adjs == [] then Effective(r.material, r.auxiliary, r.labor, r.total)
    else
      var e := EffectiveOf(r, adjs[..|adjs| - 1]);
      var a := adjs[|adjs| - 1];
      Effective(e.material + a.material, e.auxiliary + a.auxiliary, e.labor + a.labor, e.total + a.total)
  }

  function AdjustmentsOf(adjs: seq<Adjustment>, record: Id): seq<Adjustment> {
    if adjs == [] then []
    else
      var a := adjs[|adjs| - 1];
      AdjustmentsOf(adjs[..|adjs| - 1], record) + if a.record == record then [a] else []
  }

  lemma {:induction false} AdjustmentsAreRows(adjs: seq<Adjustment>, record: Id)
    ensures forall a :: a in AdjustmentsOf(adjs, record) ==> a in adjs && a.record == record
  {
    if adjs != [] { AdjustmentsAreRows(adjs[..|adjs| - 1], record); }
  }

  lemma {:induction false} EffectiveAddsUp(r: Record, adjs: seq<Adjustment>)
    requires r.total == r.material + r.auxiliary + r.labor
    requires forall i :: 0 <= i < |adjs| ==> adjs[i].total == adjs[i].material + adjs[i].auxiliary + adjs[i].labor
    ensures var e := EffectiveOf(r, adjs); e.total == e.material + e.auxiliary + e.labor
  {
    if adjs != [] { EffectiveAddsUp(r, adjs[..|adjs| - 1]); }
  }

  /** In every interleaved run a work order's effective total is the sum of its
      effective material, auxiliary and labor cost; and a record that is not
      finalised has no adjustments, so its effective amounts are its own. */
  lemma EffectiveTotals(events: seq<Event>, wo: Id)
    requires wo in Play(Sys(Empty, map[], []), events).db.records
    ensures var db := Play(Sys(Empty, map[], []), events).db;
            var r := db.records[wo];
            var e := EffectiveOf(r, AdjustmentsOf(db.adjustments, r.id));
            && e.total == e.material + e.auxiliary + e.labor
            && (!Finalized(r) ==> e == Effective(r.material, r.auxiliary, r.labor, r.total))
  {
    RowsAlwaysOK(events);
    hide Play;
    var db := Play(Sys(Empty, map[], []), events).db;
    var r := db.records[wo];
    var adjs := AdjustmentsOf(db.adjustments, r.id);
    AdjustmentsAreRows(db.adjustments, r.id);
    forall i | 0 <= i < |adjs|
      ensures adjs[i].total == adjs[i].material + adjs[i].auxiliary + adjs[i].labor && Finalized(r)
    {
      assert adjs[i] in adjs;
      var j :| 0 <= j < |db.adjustments| && db.adjustments[j] == adjs[i];
      assert AdjustmentOK(db, db.adjustments[j]);
    }
    EffectiveAddsUp(r, adjs);
  }
}
