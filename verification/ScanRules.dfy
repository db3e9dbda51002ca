/** What a scan takes, records and reports. */
module ScanRules {
  import opened Common
  import opened ScanHistory
  import opened ScanInterleaving

  /** The work order module, where it is wired in, does not stand in the way. */
  function StatusError(req: Request): Option<Error>
    requires req.checkpoint.Some?
  {
    if req.status == None then None
    else if req.status.value.Err? then Some(req.status.value.error)
    else if req.status.value.value != StatusFor(req.checkpoint.value) then Some(PreconditionFailed)
    else None
  }

  predicate IdUsed(db: Db, id: Id) { exists e | e in db.events :: e.id == id }

  lemma IdUsedIff(db: Db, id: Id)
    ensures IdUsed(db, id) <==> KnownId(db.events, id)
  {
    if KnownId(db.events, id) {
      var i :| 0 <= i < |db.events| && db.events[i].id == id;
      assert db.events[i] in db.events;
    }
  }

  /** A scan records its event exactly when nothing on this list is wrong: the
      request, the barcode, the work order's status (IN_CUTTING for CNC_COMPLETE,
      COMPLETED for SHIPPED, IN_PROCESSING else), the order of checkpoints, the
      id. Otherwise it changes nothing and the first wrong thing is the error. */
  lemma ScanAccepted(db: Db, req: Request)
    ensures var r := RecordScan(db, req);
            if req.actor == NIL || req.checkpoint == None || !req.metaOk then r == Reply(db, Err(InvalidInput))
            else if req.barcode !in db.barcodes then r == Reply(db, Err(NotFound))
            else if StatusError(req) != None then r == Reply(db, Err(StatusError(req).value))
            else if !Allowed(CheckpointOf(Latest(db.events, req.barcode)), req.checkpoint.value)
            then r == Reply(db, Err(InvalidTransition))
            else if IdUsed(db, req.id) then r == Reply(db, Err(DbError))
            else r.db.events == db.events + [Event(req.id, req.barcode, req.checkpoint.value, req.now)]
  {
    IdUsedIff(db, req.id);
    hide Latest, Allowed, KnownId, IdUsed;
  }

  /** How what follows the insert fails: the work order does not move on from
      cutting, or an inspection's row or status update fails. */
  function Afterwards(req: Request): Option<Error>
    requires req.checkpoint.Some?
  {
    match req.checkpoint.value
    case CncComplete => if req.status == None then Some(PreconditionFailed) else req.advance
    case QcPassed => if req.insertQc != None || req.status == None then req.insertQc else req.updateQc
    case QcFailed => if req.insertQc != None || req.status == None then req.insertQc else req.updateQc
    case FinishedGoods => None
    case Shipped => None
  }

  /** What a recorded scan reports and which QC row it writes. The next checkpoint
      is QC_PASSED after cutting and after a failed inspection, then finished
      goods, then SHIPPED, then none. */
  lemma ScanEffect(db: Db, req: Request)
    requires CheckScan(db, req) == None
    ensures req.checkpoint.Some?
    ensures var r, c := RecordScan(db, req), req.checkpoint.value;
            && r.db.barcodes == db.barcodes
            && r.db.qcRows == db.qcRows
               + (if (c == QcPassed || c == QcFailed) && req.insertQc == None
                  then [QcRow(req.barcode, req.id, c)] else [])
            && (Afterwards(req) != None ==> r.result == Err(Afterwards(req).value))
            && (Afterwards(req) == None ==>
              r.result == Ok(ScanResult(c,
                if c == CncComplete || c == QcFailed then Some(QcPassed)
                else if c == QcPassed then Some(FinishedGoods)
                else if c == FinishedGoods then Some(Shipped) else None)))
  {
    hide Latest, Allowed, KnownId;
  }

  /** A scan that is checked and inserted with nobody in between records what the
      call records. */
  lemma SoloScan(s: Sys, t: nat, req: Request)
    requires t !in s.passed
    ensures After(After(s, Check(t, req)), Insert(t, req.now)).db == RecordScan(s.db, req).db
  {
    hide Latest, Allowed, CheckStatus, InsertScan, History;
  }
}
