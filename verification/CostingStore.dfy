/** The costing service on its tables. */
module CostingStore {
  import opened Common
  import opened Domain
  import opened Costing

  datatype Detail = Detail(record: Record, adjustments: seq<Adjustment>, effective: Effective)

  class Store {
    var records: map<Id, Record>
    var adjustments: seq<Adjustment>

    function State(): Db
      reads this
    {
      Db(records, adjustments)
    }

    constructor ()
      ensures State() == Empty
    {
      records, adjustments := map[], [];
    }

    /** Sums the sheets' shares, skipping sheets without an area. */
    method Material(shares: seq<CutShare>) returns (cost: int)
      ensures cost == MaterialCost(shares)
    {
      cost := 0;
      for i := 0 to |shares|
        invariant cost == MaterialCost(shares[..i])
      {
        assert shares[..i + 1][..i] == shares[..i];
        if shares[i].area <= 0 { continue; }
        cost := cost + Scale(shares[i].cost, shares[i].used, shares[i].area);
      }
      assert shares[..|shares|] == shares;
    }

    method UpdateCostingRecord(wo: Id, row: Record) returns (err: Option<Error>)
      modifies this`records
      ensures err.None? <==> Execute(old(State()), UpdateRecord(wo, row)).Ok?
      ensures err.Some? ==> err == Some(AlreadyFinalized) && records == old(records)
      ensures err.None? ==> State() == Execute(old(State()), UpdateRecord(wo, row)).value
    {
      if wo !in records || Finalized(records[wo]) { return Some(AlreadyFinalized); }
      var current := records[wo];
      records := records[wo := row.(id := current.id, finalizedBy := None, createdAt := current.createdAt)];
      return None;
    }

    method ComputeCost(req: Request) returns (r: Result<Record>)
      requires req.Compute?
      modifies this`records
      ensures State() == Next(old(State()), req)
      ensures r.Ok? <==> Call(old(State()), req).Ok?
      ensures r.Err? ==> Call(old(State()), req) == Err(r.error)
      ensures r.Ok? ==> req.wo in records && records[req.wo] == r.value
    {
      if !Costable(req.status) { return Err(PreconditionFailed); }
      var kind := if req.status == Planned then Estimated else Actual;
      var material := Material(req.shares);
      var total := material + req.auxiliary + req.labor;
      var row := Record(req.newId, req.sku, kind, material, req.auxiliary, req.labor, total, None, req.now);
      assert row == Computed(req, req.newId, req.now);
      if req.wo in records && Finalized(records[req.wo]) { return Err(AlreadyFinalized); }
      if kind == Actual && total == 0 { return Err(PreconditionFailed); }
      if req.wo in records {
        row := row.(id := records[req.wo].id, createdAt := records[req.wo].createdAt);
        var err := UpdateCostingRecord(req.wo, row);
        if err.Some? { return Err(AlreadyFinalized); }
        return Ok(row);
      }
      if IdTaken(State(), row.id) { return Err(DbError); }
      records := records[req.wo := row];
      return Ok(row);
    }

    method FinalizeCost(req: Request) returns (err: Option<Error>)
      requires req.Finalize?
      modifies this`records
      ensures State() == Next(old(State()), req)
      ensures err.None? <==> Call(old(State()), req).Ok?
      ensures err.Some? ==> Call(old(State()), req) == Err(err.value)
    {
      if req.wo in records && !Finalized(records[req.wo]) {
        records := records[req.wo := records[req.wo].(finalizedBy := Some(req.actor))];
        return None;
      }
      if req.wo !in records { return Some(NotFound); }
      return Some(AlreadyFinalized);
    }

    method CreateAdjustment(req: Request) returns (err: Option<Error>)
      requires req.Adjust?
      modifies this`adjustments
      ensures State() == Next(old(State()), req)
      ensures err.None? <==> Call(old(State()), req).Ok?
      ensures err.Some? ==> Call(old(State()), req) == Err(err.value)
    {
      if req.reason == "" { return Some(InvalidInput); }
      if req.wo !in records { return Some(NotFound); }
      var record := records[req.wo];
      if !Finalized(record) { return Some(PreconditionFailed); }
      var total := req.material + req.auxiliary + req.labor;
      if total == 0 && req.material == 0 && req.auxiliary == 0 && req.labor == 0 { return Some(InvalidInput); }
      assert IdTaken(State(), record.id);
      adjustments := adjustments + [Adjustment(record.id, req.reason, req.material, req.auxiliary, req.labor, total)];
      return None;
    }

    /** Loads a record with its adjustments and folds them into running totals. */
    method GetCostingRecordDetail(wo: Id) returns (r: Result<Detail>)
      ensures wo !in records ==> r == Err(NotFound)
      ensures wo in records ==>
        var adjs := AdjustmentsOf(adjustments, records[wo].id);
        r == Ok(Detail(records[wo], adjs, EffectiveOf(records[wo], adjs)))
    {
      if wo !in records { return Err(NotFound); }
      var record := records[wo];
      var adjs := AdjustmentsOf(adjustments, record.id);
      var material, auxiliary, labor, total := record.material, record.auxiliary, record.labor, record.total;
      for i := 0 to |adjs|
        invariant Effective(material, auxiliary, labor, total) == EffectiveOf(record, adjs[..i])
      {
        assert adjs[..i + 1][..i] == adjs[..i];
        material := material + adjs[i].material;
        auxiliary := auxiliary + adjs[i].auxiliary;
        labor := labor + adjs[i].labor;
        total := total + adjs[i].total;
      }
      assert adjs[..|adjs|] == adjs;
      return Ok(Detail(record, adjs, Effective(material, auxiliary, labor, total)));
    }
  }
}
