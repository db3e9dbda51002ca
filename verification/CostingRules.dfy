/** What the money of a costing record is: the charged share of each sheet, the
    parts of a total, the sum of the adjustments; and what the calls accept. */
module CostingRules {
  import opened Common
  import opened Domain
  import Inventory
  import Lineage
  import Valuation
  import opened Costing

  // -------------------------------------------------------------- material cost

  function SumOf(parts: seq<int>): int {
    if parts == [] then 0 else SumOf(parts[..|parts| - 1]) + parts[|parts| - 1]
  }

  predicate Sane(s: CutShare) { s.cost >= 0 && 0 <= s.used <= s.area }

  /** q is the sheet's cost in proportion to the area used, rounded down; a sheet
      without an area is not charged. */
  predicate IsShare(s: CutShare, q: int) {
    if s.area <= 0 then q == 0 else q * s.area <= s.cost * s.used < (q + 1) * s.area
  }

  lemma ShareOf(s: CutShare) returns (q: int)
    requires Sane(s)
    ensures q == (if s.area <= 0 then 0 else Scale(s.cost, s.used, s.area))
    ensures IsShare(s, q) && 0 <= q <= s.cost
  {
    if s.area <= 0 {
      q := 0;
    } else {
      NonNegativeProduct(s.cost, s.used);
      var rest: int;
      q, rest := QuotientRemainder(s.cost * s.used, s.area);
      assert (q + 1) * s.area == q * s.area + s.area;
      MulMono(s.used, s.area, s.cost);
      QuotientBounds(q, s.area, s.cost);
    }
  }

  lemma NonNegativeProduct(a: int, b: int)
    requires a >= 0 && b >= 0
    ensures a * b >= 0
  {
  }

  lemma {:induction false} QuotientBounds(q: int, d: int, c: int)
    requires d > 0 && q >= 0 && q * d <= c * d
    ensures q <= c
  {
    if q > c { MulMono(c + 1, q, d); }
  }

  function Costs(shares: seq<CutShare>): seq<int> {
    seq(|shares|, i requires 0 <= i < |shares| => shares[i].cost)
  }

  /** The material cost is the sum of the sheets' rounded shares, and lies between
      nothing and the cost of the sheets. */
  lemma {:induction false} MaterialIsSumOfShares(shares: seq<CutShare>) returns (qs: seq<int>)
    requires forall i :: 0 <= i < |shares| ==> Sane(shares[i])
    ensures |qs| == |shares| && (forall i :: 0 <= i < |qs| ==> IsShare(shares[i], qs[i]))
    ensures MaterialCost(shares) == SumOf(qs)
    ensures 0 <= MaterialCost(shares) <= SumOf(Costs(shares))
  {
    qs := [];
    if shares != [] {
      hide IsShare, Scale;
      var n := |shares| - 1;
      var rest := MaterialIsSumOfShares(shares[..n]);
      var q := ShareOf(shares[n]);
      qs := rest + [q];
      assert qs[..n] == rest;
      assert Costs(shares)[..n] == Costs(shares[..n]);
    }
  }

  /** The cuts of a sequence that are joined to one sheet, as ComputeCost reads them. */
  function SharesOf(l: Inventory.Ledger, s: Id, cuts: seq<Inventory.Cut>): seq<CutShare>
    requires s in l.sheets
  {
    if cuts == [] then []
    else
      var n := |cuts| - 1;
      SharesOf(l, s, cuts[..n])
      + if cuts[n].source == Inventory.FromSheet(s)
        then [CutShare(l.sheets[s].cost, cuts[n].used.Area(), l.sheets[s].dim.Area())] else []
  }

  lemma {:induction false} MaterialIsDirectCharge(l: Inventory.Ledger, s: Id, cuts: seq<Inventory.Cut>)
    requires s in l.sheets && l.sheets[s].dim.Area() > 0
    ensures MaterialCost(SharesOf(l, s, cuts)) == Valuation.DirectCharge(l, s, cuts)
  {
    if cuts != [] {
      hide Scale;
      var n := |cuts| - 1;
      MaterialIsDirectCharge(l, s, cuts[..n]);
      var shares := SharesOf(l, s, cuts);
      if cuts[n].source == Inventory.FromSheet(s) {
        assert shares[..|shares| - 1] == SharesOf(l, s, cuts[..n]);
      } else {
        assert SharesOf(l, s, cuts[..n]) + [] == SharesOf(l, s, cuts[..n]);
      }
    }
  }

  /** So the money bound of a lineage is about what ComputeCost stores: its
      material cost for the cuts of a sheet, plus the waste report's cost of all
      cuts that go back to the sheet, is never more than the sheet cost. */
  lemma StoredCostBounded(l: Inventory.Ledger, s: Id)
    requires Lineage.Reachable(l) && s in l.sheets && Lineage.SheetSpent(l.sheets[s].status)
    ensures var chain := Lineage.ChainOf(l, s);
            Abs(MaterialCost(SharesOf(l, s, chain)) + Valuation.WasteCharge(l, s, chain)) <= Abs(l.sheets[s].cost)
  {
    hide Lineage.Reachable, Lineage.Chain, Lineage.SheetOK;
    Lineage.ReachableInv(l);
    SheetHasArea(l, s);
    Valuation.LineageCostBounded(l, s);
    MaterialIsDirectCharge(l, s, Lineage.ChainOf(l, s));
  }

  lemma SheetHasArea(l: Inventory.Ledger, s: Id)
    requires Lineage.Inv(l) && s in l.sheets
    ensures l.sheets[s].dim.Area() > 0
  {
    assert Lineage.SheetOK(l, s);
    ValidArea(l.sheets[s].dim);
  }

  // ------------------------------------------------------------------- the calls

  function NewTotal(req: Request): int
    requires req.Compute?
  {
    MaterialCost(req.shares) + req.auxiliary + req.labor
  }

  predicate Finished(db: Db, wo: Id) { wo in db.records && db.records[wo].finalizedBy != None }

  /** A computation succeeds for a PLANNED, COMPLETED or PARTIAL_COMPLETE work
      order whose record is not finalised; unless it is only planned its total
      must not be zero. The first thing wrong decides the error. */
  lemma ComputeOutcome(db: Db, req: Request)
    requires req.Compute?
    ensures var r := Call(db, req);
            if req.status == InProgress || req.status == OtherStatus then r == Err(PreconditionFailed)
            else if Finished(db, req.wo) then r == Err(AlreadyFinalized)
            else if req.status != Planned && NewTotal(req) == 0 then r == Err(PreconditionFailed)
            else if req.wo !in db.records && (exists wo :: wo in db.records && db.records[wo].id == req.newId)
            then r == Err(DbError)
            else r.Ok?
  {
    hide MaterialCost;
  }

  /** What it leaves behind: one record of the work order with the computed costs
      and their total, estimated if the work order is only planned; a record that
      was there keeps its id and creation time. */
  lemma ComputeEffect(db: Db, req: Request)
    requires req.Compute? && Call(db, req).Ok?
    ensures var known := req.wo in db.records;
            Call(db, req).value == db.(records := db.records[req.wo := Record(
              if known then db.records[req.wo].id else req.newId,
              req.sku, if req.status == Planned then Estimated else Actual,
              MaterialCost(req.shares), req.auxiliary, req.labor, NewTotal(req), None,
              if known then db.records[req.wo].createdAt else req.now)])
  {
    hide MaterialCost;
  }

  lemma FinalizeOutcome(db: Db, req: Request)
    requires req.Finalize?
    ensures var r := Call(db, req);
            if req.wo !in db.records then r == Err(NotFound)
            else if Finished(db, req.wo) then r == Err(AlreadyFinalized)
            else r == Ok(db.(records := db.records[req.wo := db.records[req.wo].(finalizedBy := Some(req.actor))]))
  {
  }

  lemma AdjustOutcome(db: Db, req: Request)
    requires req.Adjust?
    ensures var r := Call(db, req);
            if |req.reason| == 0 then r == Err(InvalidInput)
            else if req.wo !in db.records then r == Err(NotFound)
            else if !Finished(db, req.wo) then r == Err(PreconditionFailed)
            else if req.material == req.auxiliary == req.labor == 0 then r == Err(InvalidInput)
            else r == Ok(db.(adjustments := db.adjustments + [
              Adjustment(db.records[req.wo].id, req.reason, req.material, req.auxiliary, req.labor,
                         req.labor + req.auxiliary + req.material)]))
  {
  }

  // ------------------------------------------------------------ effective amounts

  function Deltas(adjs: seq<Adjustment>, amount: Adjustment -> int): seq<int> {
    seq(|adjs|, i requires 0 <= i < |adjs| => amount(adjs[i]))
  }

  lemma DeltasSnoc(adjs: seq<Adjustment>, amount: Adjustment -> int)
    requires adjs != []
    ensures SumOf(Deltas(adjs, amount)) == SumOf(Deltas(adjs[..|adjs| - 1], amount)) + amount(adjs[|adjs| - 1])
  {
    assert Deltas(adjs, amount)[..|adjs| - 1] == Deltas(adjs[..|adjs| - 1], amount);
  }

  /** Each effective amount is the record's plus the sum of its adjustments. */
  lemma {:induction false} EffectiveIsSum(r: Record, adjs: seq<Adjustment>)
    ensures var e := EffectiveOf(r, adjs);
            && e.material == r.material + SumOf(Deltas(adjs, (a: Adjustment) => a.material))
            && e.auxiliary == r.auxiliary + SumOf(Deltas(adjs, (a: Adjustment) => a.auxiliary))
            && e.labor == r.labor + SumOf(Deltas(adjs, (a: Adjustment) => a.labor))
            && e.total == r.total + SumOf(Deltas(adjs, (a: Adjustment) => a.total))
  {
    if adjs != [] {
      hide SumOf;
      EffectiveIsSum(r, adjs[..|adjs| - 1]);
      DeltasSnoc(adjs, (a: Adjustment) => a.material);
      DeltasSnoc(adjs, (a: Adjustment) => a.auxiliary);
      DeltasSnoc(adjs, (a: Adjustment) => a.labor);
      DeltasSnoc(adjs, (a: Adjustment) => a.total);
    } else {
      NoDeltas();
    }
  }

  lemma NoDeltas()
    ensures forall f: Adjustment -> int :: SumOf(Deltas([], f)) == 0
  {
  }

  /** The adjustments of a record are all of its rows, in order, and no others. */
  lemma {:induction false} AdjustmentsOfAre(adjs: seq<Adjustment>, record: Id, a: Adjustment)
    ensures multiset(AdjustmentsOf(adjs, record))[a] == if a.record == record then multiset(adjs)[a] else 0
  {
    if adjs != [] {
      var n := |adjs| - 1;
      AdjustmentsOfAre(adjs[..n], record, a);
      assert adjs == adjs[..n] + [adjs[n]];
    }
  }

  // ------------------------------------------------------------- one call, alone

  /** A call that begins and finishes with nobody in between is the atomic call. */
  lemma SoloIsCall(s: Sys, t: nat, req: Request)
    requires t !in s.pending
    ensures After(After(s, Begin(t, req)), Finish(t)).db == Next(s.db, req)
  {
    hide Prepare, Execute;
  }
}
