/** Barcode scans: which checkpoint may follow which, what a barcode's history
    can look like, and which quality-control rows go with it. */
module ScanHistory {
  import opened Common

  datatype Checkpoint = CncComplete | QcPassed | QcFailed | FinishedGoods | Shipped

  datatype WorkOrderStatus = InCutting | InProcessing | Completed | OtherStatus

  datatype Event = Event(id: Id, barcode: Id, checkpoint: Checkpoint, at: int)

  datatype QcRow = QcRow(barcode: Id, scan: Id, result: Checkpoint)

  datatype Db = Db(barcodes: set<Id>, events: seq<Event>, qcRows: seq<QcRow>)

  // ---------------------------------------------------------------- the rules

  predicate Allowed(last: Option<Checkpoint>, next: Checkpoint) {
    match last
    case None => next == CncComplete
    case Some(CncComplete) => next == QcPassed || next == QcFailed
    case Some(QcFailed) => next == QcPassed || next == QcFailed
    case Some(QcPassed) => next == FinishedGoods
    case Some(FinishedGoods) => next == Shipped
    case Some(Shipped) => false
  }

  function ExpectedStatus(c: Checkpoint): WorkOrderStatus {
    match c
    case CncComplete => InCutting
    case QcPassed => InProcessing
    case QcFailed => InProcessing
    case FinishedGoods => InProcessing
    case Shipped => Completed
  }

  function NextCheckpoint(c: Checkpoint): Option<Checkpoint> {
    match c
    case CncComplete => Some(QcPassed)
    case QcFailed => Some(QcPassed)
    case QcPassed => Some(FinishedGoods)
    case FinishedGoods => Some(Shipped)
    case Shipped => None
  }

  predicate IsQc(c: Checkpoint) { c == QcPassed || c == QcFailed }

  // ------------------------------------------------------------------- scanning

  predicate Later(a: Event, b: Event) { a.at > b.at || (a.at == b.at && a.id > b.id) }

  /** ORDER BY scanned_at DESC, id DESC LIMIT 1. */
  function Latest(events: seq<Event>, barcode: Id): Option<Event> {
    if events == [] then None
    else
      var e := events[|events| - 1];
      var rest := Latest(events[..|events| - 1], barcode);
      if e.barcode == barcode && (rest.None? || Later(e, rest.value)) then Some(e) else rest
  }

  function CheckpointOf(e: Option<Event>): Option<Checkpoint> {
    if e.Some? then Some(e.value.checkpoint) else None
  }

  /** checkpoint is None for a string that names none; status is the work order
      module's answer, None when it is not wired in; the last three say how the
      calls that follow the insert fail, if they do. */
  datatype Request = Scan(id: Id, barcode: Id, checkpoint: Option<Checkpoint>, actor: Id, metaOk: bool, now: int,
                          status: Option<Result<WorkOrderStatus>>,
                          advance: Option<Error>, insertQc: Option<Error>, updateQc: Option<Error>)

  datatype ScanResult = ScanResult(checkpoint: Checkpoint, next: Option<Checkpoint>)

  /** Scans do not run in a transaction: what was inserted stays. */
  datatype Reply = Reply(db: Db, result: Result<ScanResult>)

  function CheckStatus(req: Request): Option<Error>
    requires req.checkpoint.Some?
  {
    match req.status
    case None => None
    case Some(Err(e)) => Some(e)
    case Some(Ok(s)) => if s != ExpectedStatus(req.checkpoint.value) then Some(PreconditionFailed) else None
  }

  predicate KnownId(events: seq<Event>, id: Id) { exists i | 0 <= i < |events| :: events[i].id == id }

  /** Everything before the insert. */
  function CheckScan(db: Db, req: Request): Option<Error> {
    if req.actor == NIL || req.checkpoint.None? || !req.metaOk then Some(InvalidInput)
    else if req.barcode !in db.barcodes then Some(NotFound)
    else if CheckStatus(req).Some? then CheckStatus(req)
    else if !Allowed(CheckpointOf(Latest(db.events, req.barcode)), req.checkpoint.value) then Some(InvalidTransition)
    else if KnownId(db.events, req.id) then Some(DbError)
    else None
  }

  /** The event, then what belongs to its checkpoint. */
  function InsertScan(db: Db, req: Request): Reply
    requires req.checkpoint.Some?
  {
    var c := req.checkpoint.value;
    var db1 := db.(events := db.events + [Event(req.id, req.barcode, c, req.now)]);
    var ok := Ok(ScanResult(c, NextCheckpoint(c)));
    if c == CncComplete then
      if req.status.None? then Reply(db1, Err(PreconditionFailed))
      else if req.advance.Some? then Reply(db1, Err(req.advance.value))
      else Reply(db1, ok)
    else if IsQc(c) then
      if req.insertQc.Some? then Reply(db1, Err(req.insertQc.value))
      else
        var db2 := db1.(qcRows := db1.qcRows + [QcRow(req.barcode, req.id, c)]);
        if req.status.Some? && req.updateQc.Some? then Reply(db2, Err(req.updateQc.value)) else Reply(db2, ok)
    else Reply(db1, ok)
  }

  function RecordScan(db: Db, req: Request): Reply {
    match CheckScan(db, req)
    case Some(e) => Reply(db, Err(e))
    case None => InsertScan(db, req)
  }

  function Run(db: Db, reqs: seq<Request>): Db {
    if reqs == [] then db else RecordScan(Run(db, reqs[..|reqs| - 1]), reqs[|reqs| - 1]).db
  }

  function Fresh(barcodes: set<Id>): Db { Db(barcodes, [], []) }

  // -------------------------------------------------------------- the language

  /** A barcode's checkpoints in the order they were recorded. */
  function History(events: seq<Event>, barcode: Id): seq<Checkpoint> {
    if events == [] then []
    else
      var e := events[|events| - 1];
      History(events[..|events| - 1], barcode) + if e.barcode == barcode then [e.checkpoint] else []
  }

  function LastOf(h: seq<Checkpoint>): Option<Checkpoint> {
    if h == [] then None else Some(h[|h| - 1])
  }

  /** Every entry is allowed after the one before it. */
  predicate Chain(h: seq<Checkpoint>) {
    h == [] || (Chain(h[..|h| - 1]) && Allowed(LastOf(h[..|h| - 1]), h[|h| - 1]))
  }

  function Failures(n: nat): seq<Checkpoint> { seq(n, _ => QcFailed) }

  /** CNC, n failed inspections, a passed one, finished goods, shipped. */
  function FullLife(n: nat): seq<Checkpoint> {
    [CncComplete] + Failures(n) + [QcPassed, FinishedGoods, Shipped]
  }

  ghost predicate InLanguage(h: seq<Checkpoint>) { exists n :: h <= FullLife(n) }

  /** How far a history has come: failed inspections so far, then its phase. */
  ghost predicate Shape(h: seq<Checkpoint>, n: nat) {
    || h == []
    || h == [CncComplete] + Failures(n)
    || h == [CncComplete] + Failures(n) + [QcPassed]
    || h == [CncComplete] + Failures(n) + [QcPassed, FinishedGoods]
    || h == FullLife(n)
  }

  lemma ShapeIsLanguage(h: seq<Checkpoint>, n: nat)
    requires Shape(h, n)
    ensures InLanguage(h)
  {
    assert h <= FullLife(n);
  }

  lemma {:induction false} ChainHasShape(h: seq<Checkpoint>) returns (n: nat)
    requires Chain(h)
    ensures Shape(h, n)
  {
    n := 0;
    if h != [] {
      var k := |h| - 1;
      n := ChainHasShape(h[..k]);
      assert h == h[..k] + [h[k]];
      if h[..k] == [] {
        n := 0;
      } else if h[k] == QcFailed {
        ExtendFailures(n);
        n := n + 1;
      } else {
        assert [CncComplete] + Failures(n) + [QcPassed, FinishedGoods]
          == [CncComplete] + Failures(n) + [QcPassed] + [FinishedGoods];
        assert FullLife(n) == [CncComplete] + Failures(n) + [QcPassed, FinishedGoods] + [Shipped];
      }
    }
  }

  lemma ExtendFailures(n: nat)
    ensures [CncComplete] + Failures(n + 1) == [CncComplete] + Failures(n) + [QcFailed]
  {
  }

  lemma {:induction false} PrefixIsChain(n: nat, k: nat)
    requires k <= |FullLife(n)|
    ensures Chain(FullLife(n)[..k])
  {
    if k > 0 {
      PrefixIsChain(n, k - 1);
      assert FullLife(n)[..k][..k - 1] == FullLife(n)[..k - 1];
    }
  }

  /** The step-by-step rule and the language say the same thing. */
  lemma ChainIffLanguage(h: seq<Checkpoint>)
    ensures Chain(h) <==> InLanguage(h)
  {
    if Chain(h) {
      var n := ChainHasShape(h);
      ShapeIsLanguage(h, n);
    }
    if n: nat :| h <= FullLife(n) {
      PrefixIsChain(n, |h|);
      assert FullLife(n)[..|h|] == h;
    }
  }

  // ----------------------------------------------------------- runs of the service

  /** The clock moves on between two scans of the same barcode. */
  predicate ClockAdvances(db: Db, req: Request) {
    forall i | 0 <= i < |db.events| :: db.events[i].barcode == req.barcode ==> db.events[i].at < req.now
  }

  predicate ClockAdvancesAll(db: Db, reqs: seq<Request>) {
    reqs == [] ||
    var n := |reqs| - 1;
    ClockAdvancesAll(db, reqs[..n]) && ClockAdvances(Run(db, reqs[..n]), reqs[n])
  }

  /** The row the query finds is the one recorded last. */
  ghost predicate LatestIsLast(events: seq<Event>, b: Id) {
    CheckpointOf(Latest(events, b)) == LastOf(History(events, b))
  }

  ghost predicate RunInv(db: Db, b: Id) {
    Chain(History(db.events, b)) && LatestIsLast(db.events, b)
  }

  lemma {:induction false} LatestIsARow(events: seq<Event>, b: Id)
    ensures Latest(events, b).Some? ==> Latest(events, b).value in events && Latest(events, b).value.barcode == b
  {
    if events != [] { LatestIsARow(events[..|events| - 1], b); }
  }

  lemma AppendEvent(events: seq<Event>, e: Event, b: Id)
    ensures History(events + [e], b) == History(events, b) + if e.barcode == b then [e.checkpoint] else []
    ensures Latest(events + [e], b) ==
      if e.barcode == b && (Latest(events, b).None? || Later(e, Latest(events, b).value)) then Some(e)
      else Latest(events, b)
  {
    assert (events + [e])[..|events|] == events;
  }

  /** A scan records its event exactly when it passes the checks. */
  lemma ScanRecords(db: Db, req: Request)
    ensures var events := RecordScan(db, req).db.events;
            if CheckScan(db, req).Some? then events == db.events
            else
              && req.checkpoint.Some?
              && events == db.events + [Event(req.id, req.barcode, req.checkpoint.value, req.now)]
              && Allowed(CheckpointOf(Latest(db.events, req.barcode)), req.checkpoint.value)
  {
    hide Latest, Allowed;
  }

  lemma NewestIsLatest(db: Db, req: Request, c: Checkpoint)
    requires ClockAdvances(db, req)
    ensures Latest(db.events + [Event(req.id, req.barcode, c, req.now)], req.barcode)
            == Some(Event(req.id, req.barcode, c, req.now))
  {
    AppendEvent(db.events, Event(req.id, req.barcode, c, req.now), req.barcode);
    LatestIsARow(db.events, req.barcode);
  }

  lemma ChainAppend(h: seq<Checkpoint>, c: Checkpoint)
    ensures Chain(h + [c]) <==> Chain(h) && Allowed(LastOf(h), c)
    ensures LastOf(h + [c]) == Some(c)
  {
    assert (h + [c])[..|h|] == h;
  }

  lemma ScanKeeps(db: Db, req: Request, b: Id)
    requires RunInv(db, b) && ClockAdvances(db, req)
    ensures RunInv(RecordScan(db, req).db, b)
  {
    hide RecordScan, CheckScan, Latest, History, Chain, Allowed, ClockAdvances, Later;
    ScanRecords(db, req);
    if CheckScan(db, req).None? {
      var c := req.checkpoint.value;
      AppendEvent(db.events, Event(req.id, req.barcode, c, req.now), b);
      NewestIsLatest(db, req, c);
      ChainAppend(History(db.events, b), c);
      assert History(db.events, b) + [] == History(db.events, b);
    }
  }

  lemma {:induction false} RunKeeps(db: Db, reqs: seq<Request>, b: Id)
    requires RunInv(db, b) && ClockAdvancesAll(db, reqs)
    ensures RunInv(Run(db, reqs), b)
  {
    hide RunInv, RecordScan, ClockAdvances;
    if reqs != [] {
      RunKeeps(db, reqs[..|reqs| - 1], b);
      ScanKeeps(Run(db, reqs[..|reqs| - 1]), reqs[|reqs| - 1], b);
    }
  }

  /** Over any run with increasing scan times, whatever fails after the inserts,
      each barcode's history is in the language. */
  lemma HistoriesAreInLanguage(barcodes: set<Id>, reqs: seq<Request>, b: Id)
    requires ClockAdvancesAll(Fresh(barcodes), reqs)
    ensures InLanguage(History(Run(Fresh(barcodes), reqs).events, b))
    ensures LatestIsLast(Run(Fresh(barcodes), reqs).events, b)
  {
    hide ClockAdvancesAll, Run, InLanguage, Chain;
    assert RunInv(Fresh(barcodes), b) by { EmptyChain(); }
    RunKeeps(Fresh(barcodes), reqs, b);
    ChainIffLanguage(History(Run(Fresh(barcodes), reqs).events, b));
  }

  lemma EmptyChain()
    ensures Chain([])
  {
  }

  /** Where the work order is when a piece reaches the checkpoint: being cut for
      CNC_COMPLETE, completed for SHIPPED, in processing in between. */
  function StatusFor(c: Checkpoint): WorkOrderStatus {
    if c == CncComplete then InCutting else if c == Shipped then Completed else InProcessing
  }

  /** One scan per entry, at times 0, 1, 2, ... */
  function Script(b: Id, h: seq<Checkpoint>): seq<Request> {
    if h == [] then []
    else
      var n := |h| - 1;
      Script(b, h[..n]) + [Scan(n, b, Some(h[n]), 1, true, n, Some(Ok(StatusFor(h[n]))), None, None, None)]
  }

  lemma RunSnoc(db: Db, reqs: seq<Request>, req: Request)
    ensures Run(db, reqs + [req]) == RecordScan(Run(db, reqs), req).db
    ensures ClockAdvancesAll(db, reqs + [req]) <==> ClockAdvancesAll(db, reqs) && ClockAdvances(Run(db, reqs), req)
  {
    assert (reqs + [req])[..|reqs|] == reqs;
  }

  /** The script's scans are all recorded. */
  ghost predicate Spells(b: Id, h: seq<Checkpoint>) {
    var db := Run(Fresh({b}), Script(b, h));
    && |db.events| == |h| && db.barcodes == {b}
    && (forall i :: 0 <= i < |h| ==> db.events[i].id == i && db.events[i].at == i)
    && History(db.events, b) == h
    && ClockAdvancesAll(Fresh({b}), Script(b, h))
  }

  lemma SpellOneMore(b: Id, h: seq<Checkpoint>)
    requires h != [] && Chain(h) && Spells(b, h[..|h| - 1])
    ensures Spells(b, h)
  {
    hide Run, History, ClockAdvancesAll, RecordScan, Latest, Allowed, StatusFor, Chain;
    var n := |h| - 1;
    var mid := Run(Fresh({b}), Script(b, h[..n]));
    var req := Scan(n, b, Some(h[n]), 1, true, n, Some(Ok(StatusFor(h[n]))), None, None, None);
    assert h == h[..n] + [h[n]];
    ChainAppend(h[..n], h[n]);
    WordSoFar(b, h[..n]);
    GoodScan(mid, req);
    RunSnoc(Fresh({b}), Script(b, h[..n]), req);
    AppendEvent(mid.events, Event(n, b, h[n], n), b);
  }

  /** Every word of the language happens: the service accepts it entry by entry. */
  lemma {:induction false} EveryWordHappens(b: Id, h: seq<Checkpoint>)
    requires Chain(h)
    ensures Spells(b, h)
  {
    if h != [] {
      hide Spells;
      EveryWordHappens(b, h[..|h| - 1]);
      SpellOneMore(b, h);
    }
  }

  lemma WordSoFar(b: Id, h: seq<Checkpoint>)
    requires ClockAdvancesAll(Fresh({b}), Script(b, h))
    requires History(Run(Fresh({b}), Script(b, h)).events, b) == h
    ensures CheckpointOf(Latest(Run(Fresh({b}), Script(b, h)).events, b)) == LastOf(h)
  {
    hide Run, Script, ClockAdvancesAll, InLanguage, Chain;
    HistoriesAreInLanguage({b}, Script(b, h), b);
  }

  /** After a successful scan the reported next checkpoint is one the rules
      accept, and none is reported exactly when they accept none. */
  lemma NextIsAllowed(db: Db, req: Request, b: Id)
    requires RunInv(db, b) && ClockAdvances(db, req) && req.barcode == b && RecordScan(db, req).result.Ok?
    ensures var next := RecordScan(db, req).result.value.next;
            var last := CheckpointOf(Latest(RecordScan(db, req).db.events, b));
            && (next.Some? ==> Allowed(last, next.value))
            && (next.None? <==> forall c :: !Allowed(last, c))
  {
    hide Chain, CheckScan, Latest, History, ClockAdvances, RunInv;
    OkScan(db, req);
    ScanRecords(db, req);
    var c := req.checkpoint.value;
    NewestIsLatest(db, req, c);
    NextIsRight(c);
  }

  lemma OkScan(db: Db, req: Request)
    requires RecordScan(db, req).result.Ok?
    ensures CheckScan(db, req).None? && req.checkpoint.Some?
    ensures RecordScan(db, req).result.value.next == NextCheckpoint(req.checkpoint.value)
  {
    hide Latest, Allowed, KnownId;
  }

  lemma NextIsRight(c: Checkpoint)
    ensures NextCheckpoint(c).Some? ==> Allowed(Some(c), NextCheckpoint(c).value)
    ensures NextCheckpoint(c).None? <==> forall x :: !Allowed(Some(c), x)
  {
    if NextCheckpoint(c).Some? { assert Allowed(Some(c), NextCheckpoint(c).value); }
  }

  // ------------------------------------------------------ when the clock stands still

  /** The query's row and the row recorded last allow the same checkpoints, or
      the query's row allows none. */
  predicate Synced(latest: Option<Checkpoint>, last: Option<Checkpoint>) {
    || latest == last
    || latest == Some(Shipped)
    || (latest in {Some(CncComplete), Some(QcFailed)} && last in {Some(CncComplete), Some(QcFailed)})
  }

  /** Without the clock the guard is sound exactly as long as those two agree:
      then, and only then, does every scan it lets through stay in the language. */
  lemma GuardIsSoundIff(events: seq<Event>, b: Id)
    requires Chain(History(events, b))
    ensures Synced(CheckpointOf(Latest(events, b)), LastOf(History(events, b))) <==>
      forall c :: Allowed(CheckpointOf(Latest(events, b)), c) ==> Chain(History(events, b) + [c])
  {
    hide Chain, History, Latest, Allowed, Synced;
    var h := History(events, b);
    var latest := CheckpointOf(Latest(events, b));
    forall c
      ensures Chain(h + [c]) <==> Allowed(LastOf(h), c)
    {
      ChainAppend(h, c);
    }
    SyncedMeans(latest, LastOf(h));
  }

  lemma SyncedMeans(latest: Option<Checkpoint>, last: Option<Checkpoint>)
    ensures Synced(latest, last) <==> forall c :: Allowed(latest, c) ==> Allowed(last, c)
  {
    if !Synced(latest, last) {
      var c := if latest.None? then CncComplete else if latest == Some(QcPassed) then FinishedGoods
        else if latest == Some(FinishedGoods) then Shipped else QcPassed;
      assert Allowed(latest, c) && !Allowed(last, c);
    }
  }

  /** The events of a barcode in the order they were recorded. */
  function EventsOf(events: seq<Event>, b: Id): seq<Event> {
    if events == [] then []
    else
      var e := events[|events| - 1];
      EventsOf(events[..|events| - 1], b) + if e.barcode == b then [e] else []
  }

  /** What the checks of a run guarantee of a barcode's events: each was allowed
      after the row the query found, and no id occurs twice. */
  ghost predicate Guarded(es: seq<Event>, b: Id) {
    && (forall k :: 0 <= k < |es| ==> es[k].barcode == b)
    && (forall j, k :: 0 <= j < k < |es| ==> es[j].id != es[k].id)
    && (forall k :: 0 <= k < |es| ==> Allowed(CheckpointOf(Latest(es[..k], b)), es[k].checkpoint))
  }

  predicate Newest(es: seq<Event>, k: nat)
    requires k < |es|
  {
    forall j | 0 <= j < k :: Later(es[k], es[j])
  }

  predicate Inspecting(c: Checkpoint) { c == CncComplete || c == QcFailed }

  /** Every event that ends the inspections, or comes after them, and has a
      successor was recorded with a time and id past those before it. */
  predicate Timely(es: seq<Event>) {
    forall k | 0 <= k < |es| - 1 :: Inspecting(es[k].checkpoint) || Newest(es, k)
  }

  function Rank(c: Checkpoint): nat {
    match c
    case CncComplete => 0
    case QcFailed => 1
    case QcPassed => 2
    case FinishedGoods => 3
    case Shipped => 4
  }

  /** Past the inspections a history only moves up. */
  lemma {:induction false} ChainClimbs(h: seq<Checkpoint>)
    requires Chain(h)
    ensures forall i, j :: 0 <= i < j < |h| && Rank(h[j]) >= 2 ==> Rank(h[i]) < Rank(h[j])
    ensures forall i, j :: 0 <= i < j < |h| && Rank(h[j]) <= 1 ==> Rank(h[i]) <= 1
    ensures forall i :: 0 < i < |h| ==> h[i] != CncComplete
  {
    if h != [] {
      var n := |h| - 1;
      ChainClimbs(h[..n]);
      if n > 0 { assert LastOf(h[..n]) == Some(h[n - 1]); }
      assert forall i :: 0 <= i < n ==> h[..n][i] == h[i];
    }
  }

  lemma AllowedByRank(a: Checkpoint, b: Checkpoint, c: Checkpoint)
    requires Allowed(Some(a), c)
    ensures Allowed(Some(b), c) <==> Rank(a) == Rank(b) || (Rank(a) <= 1 && Rank(b) <= 1)
  {
  }

  /** The row the query finds is the newest of the barcode's events. */
  lemma {:induction false} LatestIsMax(es: seq<Event>, b: Id) returns (m: nat)
    requires es != [] && (forall k :: 0 <= k < |es| ==> es[k].barcode == b)
    requires forall j, k :: 0 <= j < k < |es| ==> es[j].id != es[k].id
    ensures m < |es| && Latest(es, b) == Some(es[m])
    ensures forall j :: 0 <= j < |es| && j != m ==> Later(es[m], es[j])
  {
    var n := |es| - 1;
    m := n;
    if n > 0 {
      var k := LatestIsMax(es[..n], b);
      m := if Later(es[n], es[k]) then n else k;
      assert forall j :: 0 <= j < n ==> es[..n][j] == es[j];
    }
  }

  function Checkpoints(es: seq<Event>): seq<Checkpoint> {
    seq(|es|, i requires 0 <= i < |es| => es[i].checkpoint)
  }

  lemma NextStaysChainIff(es: seq<Event>, b: Id, c: Checkpoint)
    requires es != [] && Guarded(es, b) && Chain(Checkpoints(es)) && Allowed(CheckpointOf(Latest(es, b)), c)
    ensures var n := |es| - 1;
            Allowed(Some(es[n].checkpoint), c) <==> Inspecting(es[n].checkpoint) || Newest(es, n)
  {
    hide Chain, Latest, Allowed, Later, Guarded;
    var n := |es| - 1;
    GuardedIds(es, b);
    var m := LatestIsMax(es, b);
    ChainClimbs(Checkpoints(es));
    AllowedByRank(es[m].checkpoint, es[n].checkpoint, c);
    assert Checkpoints(es)[m] == es[m].checkpoint && Checkpoints(es)[n] == es[n].checkpoint;
    if m != n { LaterIsStrict(es[m], es[n]); }
  }

  lemma GuardedIds(es: seq<Event>, b: Id)
    requires Guarded(es, b)
    ensures forall k :: 0 <= k < |es| ==> es[k].barcode == b
    ensures forall j, k :: 0 <= j < k < |es| ==> es[j].id != es[k].id
  {
    hide Allowed, Latest;
  }

  lemma LaterIsStrict(a: Event, b: Event)
    ensures Later(a, b) ==> !Later(b, a)
  {
  }

  lemma {:induction false} GuardedChainIff(es: seq<Event>, b: Id)
    requires Guarded(es, b)
    ensures Chain(Checkpoints(es)) <==> Timely(es)
  {
    if es == [] {
      EmptyChain();
    } else {
      hide Guarded, Latest, Chain, Timely;
      GuardedPrefix(es, b);
      GuardedChainIff(es[..|es| - 1], b);
      GuardedChainStep(es, b);
    }
  }

  lemma GuardedChainStep(es: seq<Event>, b: Id)
    requires es != [] && Guarded(es[..|es| - 1], b)
    requires Allowed(CheckpointOf(Latest(es[..|es| - 1], b)), es[|es| - 1].checkpoint)
    requires Chain(Checkpoints(es[..|es| - 1])) <==> Timely(es[..|es| - 1])
    ensures Chain(Checkpoints(es)) <==> Timely(es)
  {
    hide Guarded, Latest, Chain, Allowed, Timely, Newest, Inspecting, CheckpointOf;
    var n := |es| - 1;
    assert Checkpoints(es) == Checkpoints(es[..n]) + [es[n].checkpoint];
    ChainAppend(Checkpoints(es[..n]), es[n].checkpoint);
    TimelySnoc(es);
    if n == 0 {
      NothingBefore(es, b);
    } else if Chain(Checkpoints(es[..n])) {
      NextStaysChainIff(es[..n], b, es[n].checkpoint);
    }
  }

  lemma NothingBefore(es: seq<Event>, b: Id)
    requires |es| == 1
    ensures CheckpointOf(Latest(es[..0], b)) == LastOf(Checkpoints(es[..0]))
    ensures Timely(es[..0]) && Chain(Checkpoints(es[..0]))
  {
  }

  lemma GuardedPrefix(es: seq<Event>, b: Id)
    requires es != [] && Guarded(es, b)
    ensures var n := |es| - 1;
            Guarded(es[..n], b) && Allowed(CheckpointOf(Latest(es[..n], b)), es[n].checkpoint)
  {
    hide Latest, Allowed;
    var n := |es| - 1;
    forall k | 0 <= k < n
      ensures Allowed(CheckpointOf(Latest(es[..n][..k], b)), es[..n][k].checkpoint)
    {
      assert es[..n][..k] == es[..k];
    }
  }

  lemma TimelySnoc(es: seq<Event>)
    requires es != []
    ensures var n := |es| - 1;
            Timely(es) <==> Timely(es[..n]) && (n > 0 ==> Inspecting(es[n - 1].checkpoint) || Newest(es[..n], n - 1))
  {
    hide Later;
    var n := |es| - 1;
    forall k | 0 <= k < n
      ensures Newest(es[..n], k) <==> Newest(es, k)
    {
      assert forall j :: 0 <= j <= k ==> es[..n][j] == es[j];
    }
  }

  lemma {:induction false} EventsOfAre(events: seq<Event>, b: Id)
    ensures Checkpoints(EventsOf(events, b)) == History(events, b)
    ensures Latest(EventsOf(events, b), b) == Latest(events, b)
  {
    if events != [] {
      var n := |events| - 1;
      EventsOfAre(events[..n], b);
      assert events == events[..n] + [events[n]];
      EventsOfOneMore(events[..n], events[n], b);
    }
  }

  lemma EventsOfOneMore(events: seq<Event>, e: Event, b: Id)
    requires Checkpoints(EventsOf(events, b)) == History(events, b)
    requires Latest(EventsOf(events, b), b) == Latest(events, b)
    ensures Checkpoints(EventsOf(events + [e], b)) == History(events + [e], b)
    ensures Latest(EventsOf(events + [e], b), b) == Latest(events + [e], b)
  {
    hide *;
    EventsOfSnoc(events, e, b);
    AppendEvent(events, e, b);
    AppendEvent(EventsOf(events, b), e, b);
    CheckpointsSnoc(EventsOf(events, b), e);
    assert History(events, b) + [] == History(events, b);
  }

  lemma {:induction false} EventsOfMembers(events: seq<Event>, b: Id)
    ensures forall e :: e in EventsOf(events, b) ==> e in events && e.barcode == b
  {
    if events != [] { EventsOfMembers(events[..|events| - 1], b); }
  }

  lemma EventsOfSnoc(events: seq<Event>, e: Event, b: Id)
    ensures EventsOf(events + [e], b)
            == if e.barcode == b then EventsOf(events, b) + [e] else EventsOf(events, b)
  {
    assert (events + [e])[..|events|] == events;
  }

  lemma CheckpointsSnoc(es: seq<Event>, e: Event)
    ensures Checkpoints(es + [e]) == Checkpoints(es) + [e.checkpoint]
  {
  }

  lemma GuardedSnoc(es: seq<Event>, b: Id, e: Event)
    requires Guarded(es, b) && e.barcode == b && (forall x :: x in es ==> x.id != e.id)
    requires Allowed(CheckpointOf(Latest(es, b)), e.checkpoint)
    ensures Guarded(es + [e], b)
  {
    hide Latest, Allowed;
    forall k | 0 <= k < |es| + 1
      ensures Allowed(CheckpointOf(Latest((es + [e])[..k], b)), (es + [e])[k].checkpoint)
    {
      assert (es + [e])[..k] == if k < |es| then es[..k] else es;
    }
  }

  lemma {:induction false} RunIsGuarded(barcodes: set<Id>, reqs: seq<Request>, b: Id)
    ensures Guarded(EventsOf(Run(Fresh(barcodes), reqs).events, b), b)
  {
    if reqs != [] {
      hide RecordScan, CheckScan, Latest, Guarded, Allowed, EventsOf;
      var n := |reqs| - 1;
      RunIsGuarded(barcodes, reqs[..n], b);
      ScanStaysGuarded(Run(Fresh(barcodes), reqs[..n]), reqs[n], b);
    }
  }

  lemma ScanStaysGuarded(db: Db, req: Request, b: Id)
    requires Guarded(EventsOf(db.events, b), b)
    ensures Guarded(EventsOf(RecordScan(db, req).db.events, b), b)
  {
    hide RecordScan, Latest, Guarded, Allowed, CheckStatus;
    ScanRecords(db, req);
    if CheckScan(db, req).None? {
      var e := Event(req.id, req.barcode, req.checkpoint.value, req.now);
      assert (db.events + [e])[..|db.events|] == db.events;
      EventsOfAre(db.events, b);
      EventsOfMembers(db.events, b);
      assert EventsOf(db.events, b) + [] == EventsOf(db.events, b);
      if e.barcode == b { GuardedSnoc(EventsOf(db.events, b), b, e); }
    }
  }

  /** Without any assumption on the clock: a barcode's history is in the language
      exactly when each of its scans that ends the inspections or comes after
      them, and is followed by another, was recorded with a later time, or the
      same time and a greater id, than every scan before it. */
  lemma LanguageIffTimely(barcodes: set<Id>, reqs: seq<Request>, b: Id)
    ensures var events := Run(Fresh(barcodes), reqs).events;
            InLanguage(History(events, b)) <==> Timely(EventsOf(events, b))
  {
    hide Run, InLanguage, Chain, Guarded, Timely, Checkpoints;
    var events := Run(Fresh(barcodes), reqs).events;
    RunIsGuarded(barcodes, reqs, b);
    GuardedChainIff(EventsOf(events, b), b);
    EventsOfAre(events, b);
    ChainIffLanguage(History(events, b));
  }

  /** A scan that meets every condition records its event. */
  lemma GoodScan(db: Db, req: Request)
    requires req.actor != NIL && req.checkpoint.Some? && req.metaOk && req.barcode in db.barcodes
    requires req.status == Some(Ok(StatusFor(req.checkpoint.value)))
    requires Allowed(CheckpointOf(Latest(db.events, req.barcode)), req.checkpoint.value)
    requires !KnownId(db.events, req.id)
    ensures var db' := RecordScan(db, req).db;
            && db'.events == db.events + [Event(req.id, req.barcode, req.checkpoint.value, req.now)]
            && db'.barcodes == db.barcodes
  {
    hide Latest, Allowed, KnownId;
  }

  function Instant(id: Id, b: Id, c: Checkpoint, t: int): Request {
    Scan(id, b, Some(c), 1, true, t, Some(Ok(StatusFor(c))), None, None, None)
  }

  lemma FirstInstant(b: Id, t: int, x: Id)
    ensures var db := RecordScan(Fresh({b}), Instant(x, b, CncComplete, t)).db;
            && db.events == [Event(x, b, CncComplete, t)] && db.barcodes == {b}
            && Latest(db.events, b) == Some(Event(x, b, CncComplete, t)) && History(db.events, b) == [CncComplete]
  {
    var e := Event(x, b, CncComplete, t);
    assert Latest([], b) == None && History([], b) == [];
    hide RecordScan, Latest, History, StatusFor, Later;
    AppendEvent([], e, b);
    assert [] + [e] == [e];
    GoodScan(Fresh({b}), Instant(x, b, CncComplete, t));
  }

  lemma TwoInOneInstant(b: Id, t: int, x: Id, y: Id)
    requires x > y
    ensures var first := RecordScan(Fresh({b}), Instant(x, b, CncComplete, t)).db;
            var db := RecordScan(first, Instant(y, b, QcPassed, t)).db;
            && db.events == [Event(x, b, CncComplete, t), Event(y, b, QcPassed, t)] && db.barcodes == {b}
            && CheckpointOf(Latest(db.events, b)) == Some(CncComplete)
            && History(db.events, b) == [CncComplete, QcPassed]
  {
    hide RecordScan, Latest, History, StatusFor;
    FirstInstant(b, t, x);
    var e1, e2 := Event(x, b, CncComplete, t), Event(y, b, QcPassed, t);
    AppendEvent([e1], e2, b);
    assert [e1] + [e2] == [e1, e2];
    GoodScan(RecordScan(Fresh({b}), Instant(x, b, CncComplete, t)).db, Instant(y, b, QcPassed, t));
  }

  /** Two scans in the same instant: when the second one drew the smaller id, the
      same checkpoint can be recorded twice and the history leaves the language. */
  lemma SameInstantBreaksLanguage(b: Id, t: int, x: Id, y: Id, z: Id)
    requires x > y && z != x && z != y
    ensures var reqs := [Instant(x, b, CncComplete, t), Instant(y, b, QcPassed, t), Instant(z, b, QcPassed, t)];
            History(Run(Fresh({b}), reqs).events, b) == [CncComplete, QcPassed, QcPassed]
    ensures !InLanguage([CncComplete, QcPassed, QcPassed])
  {
    hide RecordScan, Latest, History, Run, InLanguage, StatusFor;
    var r1, r2, r3 := Instant(x, b, CncComplete, t), Instant(y, b, QcPassed, t), Instant(z, b, QcPassed, t);
    ThreeRuns(Fresh({b}), [r1, r2, r3]);
    TwoInOneInstant(b, t, x, y);
    var db := RecordScan(RecordScan(Fresh({b}), r1).db, r2).db;
    GoodScan(db, r3);
    AppendEvent(db.events, Event(z, b, QcPassed, t), b);
    assert [CncComplete, QcPassed] + [QcPassed] == [CncComplete, QcPassed, QcPassed];
    TwicePassed();
  }

  lemma ThreeRuns(db: Db, reqs: seq<Request>)
    requires |reqs| == 3
    ensures Run(db, reqs) == RecordScan(RecordScan(RecordScan(db, reqs[0]).db, reqs[1]).db, reqs[2]).db
  {
    hide RecordScan;
    assert reqs[..2][..1] == reqs[..1] && reqs[..1][..0] == [];
    assert Run(db, reqs[..1]) == RecordScan(Run(db, []), reqs[0]).db;
    assert Run(db, reqs[..2]) == RecordScan(Run(db, reqs[..1]), reqs[1]).db;
  }

  lemma TwicePassed()
    ensures !InLanguage([CncComplete, QcPassed, QcPassed])
  {
    hide InLanguage;
    ChainIffLanguage([CncComplete, QcPassed, QcPassed]);
    assert [CncComplete, QcPassed, QcPassed] == [CncComplete, QcPassed] + [QcPassed];
    ChainAppend([CncComplete, QcPassed], QcPassed);
  }

  // --------------------------------------------------------------------- QC rows

  function QcResults(rows: seq<QcRow>, b: Id): seq<Checkpoint> {
    if rows == [] then []
    else
      var r := rows[|rows| - 1];
      QcResults(rows[..|rows| - 1], b) + if r.barcode == b then [r.result] else []
  }

  /** The inspections among the successful scans of a barcode. */
  function Inspections(db: Db, reqs: seq<Request>, b: Id): seq<Checkpoint> {
    if reqs == [] then []
    else
      var n := |reqs| - 1;
      Inspections(db, reqs[..n], b) + Inspected(Run(db, reqs[..n]), reqs[n], b)
  }

  function Inspected(db: Db, req: Request, b: Id): seq<Checkpoint> {
    var r := RecordScan(db, req).result;
    if r.Ok? && IsQc(r.value.checkpoint) && req.barcode == b then [r.value.checkpoint] else []
  }

  /** The scan wrote its QC row and then failed to update the work order. */
  predicate FailsAfterQc(db: Db, req: Request, b: Id) {
    req.barcode == b && CheckScan(db, req).None? && IsQc(req.checkpoint.value)
    && req.insertQc.None? && req.status.Some? && req.updateQc.Some?
  }

  function LateFailures(db: Db, reqs: seq<Request>, b: Id): nat {
    if reqs == [] then 0
    else
      var n := |reqs| - 1;
      LateFailures(db, reqs[..n], b) + if FailsAfterQc(Run(db, reqs[..n]), reqs[n], b) then 1 else 0
  }

  predicate Subsequence(a: seq<Checkpoint>, b: seq<Checkpoint>) {
    a == [] || (b != [] &&
      var m, n := |a| - 1, |b| - 1;
      (a[m] == b[n] && Subsequence(a[..m], b[..n])) || Subsequence(a, b[..n]))
  }

  lemma SubsequenceGrows(a: seq<Checkpoint>, b: seq<Checkpoint>, c: Checkpoint)
    requires Subsequence(a, b)
    ensures Subsequence(a, b + [c]) && Subsequence(a + [c], b + [c])
  {
    assert (b + [c])[..|b|] == b && (a + [c])[..|a|] == a;
  }

  lemma AppendQc(rows: seq<QcRow>, r: QcRow, b: Id)
    ensures QcResults(rows + [r], b) == QcResults(rows, b) + if r.barcode == b then [r.result] else []
  {
    assert (rows + [r])[..|rows|] == rows;
  }

  lemma QcStep(db: Db, req: Request, b: Id)
    ensures var added := if FailsAfterQc(db, req, b) then [req.checkpoint.value] else Inspected(db, req, b);
            QcResults(RecordScan(db, req).db.qcRows, b) == QcResults(db.qcRows, b) + added
    ensures FailsAfterQc(db, req, b) ==> Inspected(db, req, b) == []
  {
    hide QcResults, CheckScan;
    assert QcResults(db.qcRows, b) + [] == QcResults(db.qcRows, b);
    ScanRecords(db, req);
    if req.checkpoint.Some? { AppendQc(db.qcRows, QcRow(req.barcode, req.id, req.checkpoint.value), b); }
  }

  lemma {:induction false} QcLedger(barcodes: set<Id>, reqs: seq<Request>, b: Id)
    ensures var db := Fresh(barcodes);
            var rows := QcResults(Run(db, reqs).qcRows, b);
            && |rows| == |Inspections(db, reqs, b)| + LateFailures(db, reqs, b)
            && (LateFailures(db, reqs, b) == 0 ==> rows == Inspections(db, reqs, b))
            && Subsequence(Inspections(db, reqs, b), rows)
  {
    if reqs != [] {
      hide RecordScan, QcResults, Inspected, FailsAfterQc, Subsequence;
      var n := |reqs| - 1;
      var db := Fresh(barcodes);
      var mid := Run(db, reqs[..n]);
      QcLedger(barcodes, reqs[..n], b);
      QcStep(mid, reqs[n], b);
      AtMostOneInspected(mid, reqs[n], b);
      var a, rows := Inspections(db, reqs[..n], b), QcResults(mid.qcRows, b);
      assert a + [] == a && rows + [] == rows;
      if FailsAfterQc(mid, reqs[n], b) {
        SubsequenceGrows(a, rows, reqs[n].checkpoint.value);
      } else if Inspected(mid, reqs[n], b) != [] {
        SubsequenceGrows(a, rows, Inspected(mid, reqs[n], b)[0]);
      }
    }
  }

  lemma AtMostOneInspected(db: Db, req: Request, b: Id)
    ensures Inspected(db, req, b) == [] || Inspected(db, req, b) == [Inspected(db, req, b)[0]]
    ensures FailsAfterQc(db, req, b) ==> req.checkpoint.Some?
  {
    hide CheckScan;
    ScanRecords(db, req);
  }

  /** The QC rows of a barcode contain the inspections of its successful scans in
      order, and are exactly those if and only if no scan failed to update the
      work order after writing its row. */
  lemma QcRowsAreInspectionsIff(barcodes: set<Id>, reqs: seq<Request>, b: Id)
    ensures var db := Fresh(barcodes);
            var rows := QcResults(Run(db, reqs).qcRows, b);
            && Subsequence(Inspections(db, reqs, b), rows)
            && (rows == Inspections(db, reqs, b) <==> LateFailures(db, reqs, b) == 0)
  {
    hide Run, QcResults, Inspections, LateFailures, Subsequence;
    QcLedger(barcodes, reqs, b);
  }

  function Counted(): Request { Instant(1, 4, CncComplete, 0) }

  function Lost(): Request { Instant(2, 4, QcPassed, 1).(updateQc := Some(DbError)) }

  function AfterCnc(): Db { Db({4}, [Event(1, 4, CncComplete, 0)], []) }

  lemma CncRecorded()
    ensures RecordScan(Fresh({4}), Counted()) == Reply(AfterCnc(), Ok(ScanResult(CncComplete, Some(QcPassed))))
    ensures CheckpointOf(Latest(AfterCnc().events, 4)) == Some(CncComplete)
  {
    assert Latest([], 4) == None;
    AppendEvent([], Event(1, 4, CncComplete, 0), 4);
    assert [] + [Event(1, 4, CncComplete, 0)] == [Event(1, 4, CncComplete, 0)];
  }

  lemma InspectionLost()
    ensures FailsAfterQc(AfterCnc(), Lost(), 4) && RecordScan(AfterCnc(), Lost()).result.Err?
    ensures RecordScan(AfterCnc(), Lost()).db.qcRows == [QcRow(4, 2, QcPassed)]
  {
    CncRecorded();
    hide Latest;
    assert [] + [QcRow(4, 2, QcPassed)] == [QcRow(4, 2, QcPassed)];
    assert !KnownId(AfterCnc().events, 2);
  }

  lemma TwoScans(db: Db, a: Request, c: Request, b: Id)
    ensures Run(db, [a, c]) == RecordScan(RecordScan(db, a).db, c).db
    ensures Inspections(db, [a, c], b) == Inspected(db, a, b) + Inspected(RecordScan(db, a).db, c, b)
    ensures LateFailures(db, [a, c], b)
            == (if FailsAfterQc(db, a, b) then 1 else 0) + if FailsAfterQc(RecordScan(db, a).db, c, b) then 1 else 0
  {
    hide RecordScan, Inspected, FailsAfterQc;
    assert [a, c][..1] == [a] && [a][..0] == [];
    assert Run(db, [a]) == RecordScan(Run(db, []), a).db;
    assert Inspections(db, [a], b) == Inspections(db, [], b) + Inspected(Run(db, []), a, b);
    assert LateFailures(db, [a], b) == LateFailures(db, [], b) + if FailsAfterQc(Run(db, []), a, b) then 1 else 0;
  }

  /** A passed inspection whose row is written before the work order update
      fails: the scan reports an error, its QC row stays. */
  lemma QcRowIsLeft()
    ensures var db := Fresh({4});
            var reqs := [Counted(), Lost()];
            && LateFailures(db, reqs, 4) == 1
            && QcResults(Run(db, reqs).qcRows, 4) == [QcPassed] && Inspections(db, reqs, 4) == []
  {
    CncRecorded();
    InspectionLost();
    hide RecordScan, Run, Inspections, LateFailures, CheckScan, Latest;
    TwoScans(Fresh({4}), Counted(), Lost(), 4);
    AppendQc([], QcRow(4, 2, QcPassed), 4);
    assert [] + [QcRow(4, 2, QcPassed)] == [QcRow(4, 2, QcPassed)];
  }
}
