/** The scan service on its tables: no transaction spans the statements, so what
    an early one inserted stays when a later one fails. */
module ScanStore {
  import opened Common
  import opened ScanHistory

  class Store {
    const barcodes: set<Id>
    var events: seq<Event>
    var qcRows: seq<QcRow>

    function State(): Db
      reads this
    {
      Db(barcodes, events, qcRows)
    }

    constructor (barcodes: set<Id>)
      ensures State() == Fresh(barcodes)
    {
      this.barcodes := barcodes;
      events, qcRows := [], [];
    }

    method InsertScanEvent(e: Event) returns (err: Option<Error>)
      modifies this`events
      ensures err == if KnownId(old(events), e.id) then Some(DbError) else None
      ensures events == if err.None? then old(events) + [e] else old(events)
    {
      if KnownId(events, e.id) { return Some(DbError); }
      events := events + [e];
      return None;
    }

    method Record(req: Request) returns (result: Result<ScanResult>)
      modifies this`events, this`qcRows
      ensures Reply(State(), result) == RecordScan(old(State()), req)
    {
      hide Latest, Allowed, KnownId, ExpectedStatus;
      if req.actor == NIL { return Err(InvalidInput); }
      if req.checkpoint.None? { return Err(InvalidInput); }
      if !req.metaOk { return Err(InvalidInput); }
      if req.barcode !in barcodes { return Err(NotFound); }
      var c := req.checkpoint.value;
      if req.status.Some? {
        if req.status.value.Err? { return Err(req.status.value.error); }
        if req.status.value.value != ExpectedStatus(c) { return Err(PreconditionFailed); }
      }
      if !Allowed(CheckpointOf(Latest(events, req.barcode)), c) { return Err(InvalidTransition); }
      var err := InsertScanEvent(Event(req.id, req.barcode, c, req.now));
      if err.Some? { return Err(err.value); }
      if c == CncComplete {
        if req.status.None? { return Err(PreconditionFailed); }
        if req.advance.Some? { return Err(req.advance.value); }
      }
      if c == QcPassed || c == QcFailed {
        if req.insertQc.Some? { return Err(req.insertQc.value); }
        qcRows := qcRows + [QcRow(req.barcode, req.id, c)];
        if req.status.Some? && req.updateQc.Some? { return Err(req.updateQc.value); }
      }
      return Ok(ScanResult(c, NextCheckpoint(c)));
    }
  }
}
