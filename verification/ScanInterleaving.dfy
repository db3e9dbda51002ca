/** Scans of one barcode at the same time: RecordScan checks on an unlocked read
    and inserts later, so other scans may come in between. */
module ScanInterleaving {
  import opened Common
  import opened ScanHistory

  /** A scan that has passed its checks, the last checkpoint the query found for
      it, and how much of its barcode's history there was then. */
  datatype Passed = Passed(req: Request, found: Option<Checkpoint>, seen: nat)

  datatype Sys = Sys(db: Db, passed: map<nat, Passed>)

  /** The event's time is read before the insert, so overlapping scans need not be
      inserted in the order of their times: now is arbitrary. */
  datatype Move = Check(t: nat, req: Request) | Insert(t: nat, now: int) | Drop(t: nat)

  function Stamped(s: Sys, m: Move): Request
    requires m.Insert? && m.t in s.passed
  {
    s.passed[m.t].req.(now := m.now)
  }

  /** The insert goes through. */
  predicate Records(s: Sys, m: Move) {
    m.Insert? && m.t in s.passed && s.passed[m.t].req.checkpoint.Some? && !KnownId(s.db.events, s.passed[m.t].req.id)
  }

  function PassedNow(db: Db, req: Request): Passed {
    Passed(req, CheckpointOf(Latest(db.events, req.barcode)), |History(db.events, req.barcode)|)
  }

  function After(s: Sys, m: Move): Sys {
    match m
    case Check(t, req) =>
      if t in s.passed || CheckScan(s.db, req).Some? then s
      else s.(passed := s.passed[t := PassedNow(s.db, req)])
    case Insert(t, now) =>
      if Records(s, m) then Sys(InsertScan(s.db, Stamped(s, m)).db, s.passed - {t})
      else s.(passed := s.passed - {t})
    case Drop(t) => s.(passed := s.passed - {t})
  }

  function Play(s: Sys, moves: seq<Move>): Sys {
    if moves == [] then s else After(Play(s, moves[..|moves| - 1]), moves[|moves| - 1])
  }

  /** Inserts of one barcode carry increasing times. */
  predicate ClockMovesOn(s: Sys, m: Move) {
    Records(s, m) ==> ClockAdvances(s.db, Stamped(s, m))
  }

  predicate ClockAlwaysMovesOn(s: Sys, moves: seq<Move>) {
    moves == [] ||
    var n := |moves| - 1;
    ClockAlwaysMovesOn(s, moves[..n]) && ClockMovesOn(Play(s, moves[..n]), moves[n])
  }

  /** Since a scan of b passed its checks, only failed inspections of b came in. */
  predicate Undisturbed(s: Sys, m: Move, b: Id) {
    Records(s, m) && s.passed[m.t].req.barcode == b ==>
      var h := History(s.db.events, b);
      s.passed[m.t].seen <= |h| && forall c | c in h[s.passed[m.t].seen..] :: c == QcFailed
  }

  predicate AlwaysUndisturbed(s: Sys, moves: seq<Move>, b: Id) {
    moves == [] ||
    var n := |moves| - 1;
    AlwaysUndisturbed(s, moves[..n], b) && Undisturbed(Play(s, moves[..n]), moves[n], b)
  }

  function Start(barcodes: set<Id>): Sys { Sys(Fresh(barcodes), map[]) }

  // ------------------------------------------------------------- without a clock

  /** What the query found and what was recorded last are the same checkpoint, or
      both belong to the inspections. */
  predicate Agrees(found: Option<Checkpoint>, last: Option<Checkpoint>) {
    found == last || (found.Some? && last.Some? && Inspecting(found.value) && Inspecting(last.value))
  }

  /** If the move records a scan of b, its check still stands. */
  predicate StillStands(s: Sys, m: Move, b: Id) {
    Records(s, m) && s.passed[m.t].req.barcode == b ==>
      Agrees(s.passed[m.t].found, LastOf(History(s.db.events, b)))
  }

  predicate AlwaysStands(s: Sys, moves: seq<Move>, b: Id) {
    moves == [] ||
    var n := |moves| - 1;
    AlwaysStands(s, moves[..n], b) && StillStands(Play(s, moves[..n]), moves[n], b)
  }

  /** A scan under way was allowed after what its query found. */
  predicate FoundOK(p: Passed) {
    p.req.checkpoint.Some? && Allowed(p.found, p.req.checkpoint.value)
  }

  predicate AllFoundOK(s: Sys) { forall t | t in s.passed :: FoundOK(s.passed[t]) }

  lemma AfterKeepsFound(s: Sys, m: Move)
    requires AllFoundOK(s)
    ensures AllFoundOK(After(s, m))
  {
    hide Latest, History, Allowed, CheckStatus, KnownId, InsertScan;
  }

  lemma {:induction false} PlayKeepsFound(barcodes: set<Id>, moves: seq<Move>)
    ensures AllFoundOK(Play(Start(barcodes), moves))
  {
    if moves != [] {
      hide AllFoundOK, After;
      PlayKeepsFound(barcodes, moves[..|moves| - 1]);
      AfterKeepsFound(Play(Start(barcodes), moves[..|moves| - 1]), moves[|moves| - 1]);
    }
  }

  lemma AgreesIffAllowed(found: Option<Checkpoint>, last: Option<Checkpoint>, c: Checkpoint)
    requires Allowed(found, c)
    ensures Agrees(found, last) <==> Allowed(last, c)
  {
  }

  lemma StandsIff(s: Sys, m: Move, b: Id)
    requires AllFoundOK(s)
    ensures Chain(History(After(s, m).db.events, b)) <==> Chain(History(s.db.events, b)) && StillStands(s, m, b)
  {
    hide History, Chain, Allowed, Agrees, KnownId, InsertScan;
    if Records(s, m) {
      InsertAppends(s, m, b);
      var h := History(s.db.events, b);
      assert h + [] == h;
      var p := s.passed[m.t];
      if p.req.barcode == b {
        assert FoundOK(p);
        ChainAppend(h, p.req.checkpoint.value);
        AgreesIffAllowed(p.found, LastOf(h), p.req.checkpoint.value);
      }
    }
  }

  /** Scans that overlap, with any times at all: a barcode's history is in the
      language exactly when, at each insert of one of its scans, the checkpoint
      its query had found is still the one recorded last, or both belong to the
      inspections. */
  lemma {:induction false} LanguageIffStands(barcodes: set<Id>, moves: seq<Move>, b: Id)
    ensures InLanguage(History(Play(Start(barcodes), moves).db.events, b))
            <==> AlwaysStands(Start(barcodes), moves, b)
  {
    hide AllFoundOK, After, StillStands, InLanguage, Chain;
    ChainIffLanguage(History(Play(Start(barcodes), moves).db.events, b));
    if moves != [] {
      var n := |moves| - 1;
      var s := Play(Start(barcodes), moves[..n]);
      LanguageIffStands(barcodes, moves[..n], b);
      ChainIffLanguage(History(s.db.events, b));
      PlayKeepsFound(barcodes, moves[..n]);
      StandsIff(s, moves[n], b);
    } else {
      EmptyChain();
    }
  }

  // ------------------------------------------------------ times in insert order

  /** A scan under way was allowed after the history it saw. */
  ghost predicate PassedOK(db: Db, p: Passed, b: Id) {
    p.req.barcode == b ==>
      && p.req.checkpoint.Some?
      && p.seen <= |History(db.events, b)|
      && Allowed(LastOf(History(db.events, b)[..p.seen]), p.req.checkpoint.value)
  }

  ghost predicate SysInv(s: Sys, b: Id) {
    && LatestIsLast(s.db.events, b)
    && (forall t :: t in s.passed ==> PassedOK(s.db, s.passed[t], b))
  }

  lemma InsertAppends(s: Sys, m: Move, b: Id)
    requires Records(s, m)
    ensures var req := Stamped(s, m);
            History(After(s, m).db.events, b)
            == History(s.db.events, b) + if req.barcode == b then [req.checkpoint.value] else []
    ensures ClockAdvances(s.db, Stamped(s, m)) && LatestIsLast(s.db.events, b) ==>
      LatestIsLast(After(s, m).db.events, b)
  {
    hide History, Latest, ClockAdvances, KnownId;
    var req := Stamped(s, m);
    var c := req.checkpoint.value;
    var e := Event(req.id, req.barcode, c, req.now);
    assert After(s, m).db.events == s.db.events + [e];
    AppendEvent(s.db.events, e, b);
    if ClockAdvances(s.db, req) { NewestIsLatest(s.db, req, c); }
    assert History(s.db.events, b) + [] == History(s.db.events, b);
  }

  lemma CheckKeeps(s: Sys, m: Move, b: Id)
    requires m.Check? && SysInv(s, b)
    ensures SysInv(After(s, m), b)
  {
    hide History, Latest, Allowed, CheckStatus, KnownId;
    if m.t !in s.passed && CheckScan(s.db, m.req).None? {
      var h := History(s.db.events, m.req.barcode);
      assert h[..|h|] == h;
      assert PassedOK(s.db, PassedNow(s.db, m.req), b);
    }
  }

  lemma GrowKeepsPassed(db: Db, db': Db, p: Passed, b: Id)
    requires PassedOK(db, p, b) && History(db.events, b) <= History(db'.events, b)
    ensures PassedOK(db', p, b)
  {
    hide History, Allowed;
    if p.req.barcode == b {
      assert History(db'.events, b)[..p.seen] == History(db.events, b)[..p.seen];
    }
  }

  lemma AfterKeeps(s: Sys, m: Move, b: Id)
    requires SysInv(s, b) && ClockMovesOn(s, m)
    ensures SysInv(After(s, m), b)
  {
    hide History, LatestIsLast, PassedOK, ClockAdvances, InsertScan, Records, CheckScan;
    if m.Check? {
      CheckKeeps(s, m, b);
    } else if Records(s, m) {
      InsertAppends(s, m, b);
      forall t | t in After(s, m).passed
        ensures PassedOK(After(s, m).db, s.passed[t], b)
      {
        GrowKeepsPassed(s.db, After(s, m).db, s.passed[t], b);
      }
    }
  }

  lemma {:induction false} PlayKeeps(barcodes: set<Id>, moves: seq<Move>, b: Id)
    requires ClockAlwaysMovesOn(Start(barcodes), moves)
    ensures SysInv(Play(Start(barcodes), moves), b)
  {
    if moves != [] {
      hide SysInv, After, ClockMovesOn;
      var n := |moves| - 1;
      PlayKeeps(barcodes, moves[..n], b);
      AfterKeeps(Play(Start(barcodes), moves[..n]), moves[n], b);
    }
  }

  /** A late entry continues a history exactly when nothing but failed
      inspections came in since it was allowed. */
  lemma LateEntryIff(h: seq<Checkpoint>, seen: nat, c: Checkpoint)
    requires Chain(h) && seen <= |h| && Allowed(LastOf(h[..seen]), c)
    ensures Chain(h + [c]) <==> forall x :: x in h[seen..] ==> x == QcFailed
  {
    hide Chain;
    ChainAppend(h, c);
    ChainClimbs(h);
    if seen == |h| {
      assert h[..seen] == h && h[seen..] == [];
    } else if seen > 0 {
      var n := |h| - 1;
      AllowedByRank(h[seen - 1], h[n], c);
      assert h[n] in h[seen..];
      AllowedAfter(h, seen);
    } else {
      FirstIsCnc(h);
      assert h[0] in h[seen..];
    }
  }

  lemma {:induction false} FirstIsCnc(h: seq<Checkpoint>)
    requires Chain(h) && h != []
    ensures h[0] == CncComplete
  {
    if |h| > 1 { FirstIsCnc(h[..|h| - 1]); }
  }

  lemma {:induction false} AllowedAfter(h: seq<Checkpoint>, i: nat)
    requires Chain(h) && 0 < i < |h|
    ensures Allowed(Some(h[i - 1]), h[i])
  {
    if i < |h| - 1 { AllowedAfter(h[..|h| - 1], i); }
  }

  /** With times in insert order the query found the end of the history. */
  lemma StandsIffUndisturbed(s: Sys, m: Move, b: Id)
    requires SysInv(s, b) && AllFoundOK(s) && Chain(History(s.db.events, b))
    ensures StillStands(s, m, b) <==> Undisturbed(s, m, b)
  {
    hide History, Chain, Allowed, Agrees, LatestIsLast, KnownId;
    if Records(s, m) && s.passed[m.t].req.barcode == b {
      var p := s.passed[m.t];
      var h := History(s.db.events, b);
      var c := p.req.checkpoint.value;
      assert PassedOK(s.db, p, b) && FoundOK(p);
      AgreesIffAllowed(p.found, LastOf(h), c);
      ChainAppend(h, c);
      LateEntryIff(h, p.seen, c);
    }
  }

  /** Scans that overlap, inserted with increasing times: then it is enough that
      between the check and the insert of each scan nothing but failed
      inspections of its barcode came in, and necessary. */
  lemma {:induction false} LanguageIffUndisturbed(barcodes: set<Id>, moves: seq<Move>, b: Id)
    requires ClockAlwaysMovesOn(Start(barcodes), moves)
    ensures InLanguage(History(Play(Start(barcodes), moves).db.events, b))
            <==> AlwaysUndisturbed(Start(barcodes), moves, b)
  {
    hide SysInv, AllFoundOK, After, ClockMovesOn, Undisturbed, StillStands, InLanguage, Chain;
    LanguageIffStands(barcodes, moves, b);
    if moves != [] {
      var n := |moves| - 1;
      var s := Play(Start(barcodes), moves[..n]);
      LanguageIffUndisturbed(barcodes, moves[..n], b);
      LanguageIffStands(barcodes, moves[..n], b);
      ChainIffLanguage(History(s.db.events, b));
      PlayKeeps(barcodes, moves[..n], b);
      PlayKeepsFound(barcodes, moves[..n]);
      if Chain(History(s.db.events, b)) { StandsIffUndisturbed(s, moves[n], b); }
    }
  }

  // ------------------------------------------------------------------- it happens

  lemma OneMove(s: Sys, moves: seq<Move>, m: Move, b: Id)
    ensures Play(s, moves + [m]) == After(Play(s, moves), m)
    ensures AlwaysUndisturbed(s, moves + [m], b)
            <==> AlwaysUndisturbed(s, moves, b) && Undisturbed(Play(s, moves), m, b)
  {
    assert (moves + [m])[..|moves|] == moves;
  }

  lemma InsertedScan(s: Sys, t: nat, now: int)
    requires Records(s, Insert(t, now))
    ensures var req := s.passed[t].req;
            var s' := After(s, Insert(t, now));
            && s'.db.events == s.db.events + [Event(req.id, req.barcode, req.checkpoint.value, now)]
            && s'.db.barcodes == s.db.barcodes && s'.passed == s.passed - {t}
  {
    hide KnownId;
  }

  lemma CheckedScan(s: Sys, t: nat, req: Request)
    requires t !in s.passed && req.actor != NIL && req.checkpoint.Some? && req.metaOk
    requires req.barcode in s.db.barcodes && req.status == Some(Ok(StatusFor(req.checkpoint.value)))
    requires Allowed(CheckpointOf(Latest(s.db.events, req.barcode)), req.checkpoint.value)
    requires !KnownId(s.db.events, req.id)
    ensures After(s, Check(t, req)) == Sys(s.db, s.passed[t := PassedNow(s.db, req)])
  {
    hide Latest, History, Allowed, KnownId;
  }

  function Cnc(b: Id): Request { Instant(1, b, CncComplete, 0) }

  function Inspect(id: Id, b: Id, c: Checkpoint): Request { Instant(id, b, c, 0) }

  /** CNC is recorded, then two inspections pass their checks. */
  function BothChecked(b: Id, c: Checkpoint): seq<Move> {
    [] + [Check(1, Cnc(b))] + [Insert(1, 0)] + [Check(1, Inspect(2, b, QcPassed))] + [Check(2, Inspect(3, b, c))]
  }

  function AfterBoth(db: Db, b: Id, c: Checkpoint): Sys {
    Sys(db, map[1 := Passed(Inspect(2, b, QcPassed), Some(CncComplete), 1),
                2 := Passed(Inspect(3, b, c), Some(CncComplete), 1)])
  }

  lemma BothCheckedState(b: Id, c: Checkpoint)
    requires IsQc(c)
    ensures var s := Play(Start({b}), BothChecked(b, c));
            && s == AfterBoth(s.db, b, c)
            && s.db.barcodes == {b} && s.db.events == [Event(1, b, CncComplete, 0)]
    ensures AlwaysUndisturbed(Start({b}), BothChecked(b, c), b)
  {
    var e := Event(1, b, CncComplete, 0);
    assert Latest([], b) == None && History([], b) == [];
    assert [] + [e] == [e];
    AppendEvent([], e, b);
    assert Play(Start({b}), []) == Start({b}) && AlwaysUndisturbed(Start({b}), [], b);
    hide After, Latest, History, Play, AlwaysUndisturbed;
    var one, two := [] + [Check(1, Cnc(b))], [] + [Check(1, Cnc(b))] + [Insert(1, 0)];
    var three := two + [Check(1, Inspect(2, b, QcPassed))];
    OneMove(Start({b}), [], Check(1, Cnc(b)), b);
    CheckedScan(Start({b}), 1, Cnc(b));
    OneMove(Start({b}), one, Insert(1, 0), b);
    InsertedScan(Play(Start({b}), one), 1, 0);
    var s2 := Play(Start({b}), two);
    assert s2.passed == map[];
    OneMove(Start({b}), two, Check(1, Inspect(2, b, QcPassed)), b);
    CheckedScan(s2, 1, Inspect(2, b, QcPassed));
    OneMove(Start({b}), three, Check(2, Inspect(3, b, c)), b);
    CheckedScan(Play(Start({b}), three), 2, Inspect(3, b, c));
    assert Play(Start({b}), BothChecked(b, c)).passed == AfterBoth(s2.db, b, c).passed;
  }

  /** Two operators scan QC_PASSED at once: both pass the check, both are
      recorded, one after the other. */
  lemma PassedTwice(b: Id)
    ensures var moves := BothChecked(b, QcPassed) + [Insert(1, 1)] + [Insert(2, 2)];
            History(Play(Start({b}), moves).db.events, b) == [CncComplete, QcPassed, QcPassed]
  {
    BothCheckedState(b, QcPassed);
    hide Play, After, AlwaysUndisturbed, BothChecked;
    var moves := BothChecked(b, QcPassed);
    OneMove(Start({b}), moves, Insert(1, 1), b);
    InsertedScan(Play(Start({b}), moves), 1, 1);
    OneMove(Start({b}), moves + [Insert(1, 1)], Insert(2, 2), b);
    InsertedScan(Play(Start({b}), moves + [Insert(1, 1)]), 2, 2);
    ThreeEvents(b, Event(2, b, QcPassed, 1), Event(3, b, QcPassed, 2));
  }

  lemma ThreeEvents(b: Id, x: Event, y: Event)
    requires x.barcode == b && y.barcode == b
    ensures var es := [Event(1, b, CncComplete, 0)] + [x] + [y];
            && History(es, b) == [CncComplete, x.checkpoint, y.checkpoint]
            && History([Event(1, b, CncComplete, 0)] + [x], b) == [CncComplete, x.checkpoint]
            && History([Event(1, b, CncComplete, 0)], b) == [CncComplete]
            && (x.at > y.at > 0 ==> Latest(es, b) == Some(x))
  {
    var e := Event(1, b, CncComplete, 0);
    assert [] + [e] == [e];
    AppendEvent([], e, b);
    AppendEvent([e], x, b);
    AppendEvent([e] + [x], y, b);
  }

  /** The failed inspection is inserted first although it has the later time. */
  function OutOfOrder(b: Id): seq<Move> {
    BothChecked(b, QcFailed) + [Insert(2, 6)] + [Insert(1, 5)]
  }

  lemma UndisturbedAt(s: Sys, m: Move, b: Id, h: seq<Checkpoint>)
    requires m.Insert? && m.t in s.passed && History(s.db.events, b) == h && s.passed[m.t].seen <= |h|
    requires h[s.passed[m.t].seen..] == [] || h[s.passed[m.t].seen..] == [QcFailed]
    ensures Undisturbed(s, m, b)
  {
    hide History, KnownId;
  }

  lemma FailedInserted(b: Id)
    ensures var s := Play(Start({b}), BothChecked(b, QcFailed) + [Insert(2, 6)]);
            && s.passed == map[1 := Passed(Inspect(2, b, QcPassed), Some(CncComplete), 1)] && s.db.barcodes == {b}
            && s.db.events == [Event(1, b, CncComplete, 0)] + [Event(3, b, QcFailed, 6)]
    ensures AlwaysUndisturbed(Start({b}), BothChecked(b, QcFailed) + [Insert(2, 6)], b)
  {
    hide Play, After, AlwaysUndisturbed, Undisturbed, BothChecked, History, StatusFor;
    BothCheckedState(b, QcFailed);
    var moves := BothChecked(b, QcFailed);
    var s := Play(Start({b}), moves);
    OneMove(Start({b}), moves, Insert(2, 6), b);
    ThreeEvents(b, Event(3, b, QcFailed, 6), Event(2, b, QcPassed, 5));
    UndisturbedAt(s, Insert(2, 6), b, [CncComplete]);
    InsertedScan(s, 2, 6);
  }

  lemma OutOfOrderState(b: Id)
    ensures var s := Play(Start({b}), OutOfOrder(b));
            && s.passed == map[] && s.db.barcodes == {b}
            && s.db.events == [Event(1, b, CncComplete, 0)] + [Event(3, b, QcFailed, 6)] + [Event(2, b, QcPassed, 5)]
    ensures AlwaysUndisturbed(Start({b}), OutOfOrder(b), b)
  {
    hide Play, After, AlwaysUndisturbed, Undisturbed, BothChecked, History, StatusFor;
    FailedInserted(b);
    var moves := BothChecked(b, QcFailed) + [Insert(2, 6)];
    var s := Play(Start({b}), moves);
    OneMove(Start({b}), moves, Insert(1, 5), b);
    ThreeEvents(b, Event(3, b, QcFailed, 6), Event(2, b, QcPassed, 5));
    UndisturbedAt(s, Insert(1, 5), b, [CncComplete, QcFailed]);
    InsertedScan(s, 1, 5);
  }

  /** Times out of insert order: nothing but a failed inspection comes in between
      any check and its insert, yet QC_PASSED is recorded twice. */
  lemma LateTimesBreakOrder(b: Id)
    ensures var moves := OutOfOrder(b) + [Check(3, Inspect(4, b, QcPassed))] + [Insert(3, 7)];
            && AlwaysUndisturbed(Start({b}), moves, b)
            && History(Play(Start({b}), moves).db.events, b) == [CncComplete, QcFailed, QcPassed, QcPassed]
  {
    OutOfOrderState(b);
    hide Play, After, AlwaysUndisturbed, OutOfOrder, History, Latest;
    var moves := OutOfOrder(b);
    ThreeEvents(b, Event(3, b, QcFailed, 6), Event(2, b, QcPassed, 5));
    var s := Play(Start({b}), moves);
    OneMove(Start({b}), moves, Check(3, Inspect(4, b, QcPassed)), b);
    CheckedScan(s, 3, Inspect(4, b, QcPassed));
    OneMove(Start({b}), moves + [Check(3, Inspect(4, b, QcPassed))], Insert(3, 7), b);
    InsertedScan(Play(Start({b}), moves + [Check(3, Inspect(4, b, QcPassed))]), 3, 7);
    AppendEvent(s.db.events, Event(4, b, QcPassed, 7), b);
    assert [CncComplete, QcFailed, QcPassed] + [QcPassed] == [CncComplete, QcFailed, QcPassed, QcPassed];
  }
}
