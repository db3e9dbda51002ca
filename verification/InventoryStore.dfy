/** The inventory service over its tables, updated in place as the transactions
    of pgstore.go do, and proved against the functions of module Inventory. */
module InventoryStore {
  import opened Common
  import opened Domain
  import opened Inventory

  class Store {
    const linkChecked: bool  // whether produced_remnant_id is a checked foreign key
    var sheets: map<Id, Sheet>
    var remnants: map<Id, Remnant>
    var cuts: seq<Cut>

    constructor (linkChecked: bool)
      ensures State() == Empty.ledger && this.linkChecked == linkChecked
    {
      this.linkChecked := linkChecked;
      sheets, remnants, cuts := map[], map[], [];
    }

    ghost function State(): Ledger
      reads this
    {
      Ledger(sheets, remnants, cuts)
    }

    /** One pending sheet per fresh id. */
    method MakeSheets(input: ReceiveInput, lot: Id, ids: seq<Id>) returns (rows: map<Id, Sheet>)
      ensures rows == map id | id in ids :: NewSheet(input, lot)
    {
      rows := map[];
      var i := 0;
      while i < |ids|
        invariant 0 <= i <= |ids|
        invariant rows == map id | id in ids[..i] :: NewSheet(input, lot)
      {
        rows := rows[ids[i] := Sheet(lot, input.dim, input.cost, PendingQC, None,
                                     Material(None, Some(input.supplier), None, None))];
        assert ids[..i + 1] == ids[..i] + [ids[i]];
        i := i + 1;
      }
      assert ids[..i] == ids;
    }

    /** ReceiveStock: fill one row per sheet, then insert the batch. The ids
        are the UUIDs the service generates, one per sheet. */
    method ReceiveStock(input: ReceiveInput, lot: Id, ids: seq<Id>) returns (r: Result<()>)
      modifies this
      ensures r.Ok? <==> Inventory.ReceiveStock(old(State()), input, lot, ids).Ok?
      ensures State() == OrSame(old(State()), Inventory.ReceiveStock(old(State()), input, lot, ids))
    {
      if input.quantity <= 0 || !input.dim.Valid() || |ids| != input.quantity {
        return Err(InvalidInput);
      }
      var rows := MakeSheets(input, lot, ids);
      if !NoDuplicates(ids) || exists k | 0 <= k < |ids| :: ids[k] in sheets {
        return Err(DbError);
      }
      sheets := sheets + rows;
      return Ok(());
    }

    /** The unlocked read of the source row. */
    method ReadSourceRow(input: CutInput, overflowRed: bool) returns (r: Result<SourceRow>)
      requires input.sheet.Some? || input.remnant.Some?
      ensures r == ReadSource(State(), input, overflowRed)
    {
      if input.sheet.Some? {
        if overflowRed { return Err(PreconditionFailed); }
        if input.sheet.value !in sheets { return Err(NotFound); }
        var sheet := sheets[input.sheet.value];
        if sheet.status != InStock { return Err(InvalidInput); }
        return Ok(SourceRow(FromSheet(input.sheet.value), sheet.dim, input.sheet.value, None, sheet.material));
      }
      if input.remnant.value !in remnants { return Err(NotFound); }
      var remnant := remnants[input.remnant.value];
      if remnant.status != Available && remnant.status != Allocated { return Err(InvalidInput); }
      return Ok(SourceRow(FromRemnant(input.remnant.value), remnant.dim, remnant.parentBoard, input.remnant,
                          remnant.material));
    }

    /** RecordCut up to its transaction: the write operation is built field by
        field from unlocked reads. */
    method BuildCut(input: CutInput, env: CutEnv) returns (r: Result<CutOp>)
      ensures r == PrepareCut(State(), input, env)
    {
      hide ReadSource;
      if (input.sheet.None? && input.remnant.None?) || (input.sheet.Some? && input.remnant.Some?) {
        return Err(InvalidInput);
      }
      if !input.used.Valid() || (input.leftover.Some? && !input.leftover.value.Valid()) {
        return Err(InvalidInput);
      }
      if input.leftover.Some? && input.isWaste {
        return Err(InvalidInput);
      } else if input.leftover.None? && !input.isWaste {
        return Err(InvalidInput);
      }
      var shape := input.shape;
      if shape == "" {
        shape := "rectangle";
      }
      if shape != "rectangle" && shape != "irregular" {
        return Err(InvalidInput);
      }

      var read := ReadSourceRow(input, env.overflowRed);
      if read.Err? { return Err(read.error); }
      var src := read.value;

      var leftoverArea := 0;
      if input.leftover.Some? {
        leftoverArea := input.leftover.value.Area();
        if !input.leftover.value.FitsInside(src.dim) { return Err(InvalidInput); }
      }
      if input.used.Area() + leftoverArea > src.dim.Area() { return Err(AreaConservation); }

      var op := CutOp(Cut(env.cutId, src.source, input.workOrder, input.sku, input.used, None, env.now), None);
      if input.leftover.Some? {
        var left := input.leftover.value;
        if input.boxLength.None? != input.boxWidth.None? { return Err(InvalidInput); }
        if input.boxLength.Some? && input.boxWidth.Some? {
          if input.boxLength.value > left.length || input.boxWidth.value > left.width {
            return Err(InvalidInput);
          }
        }
        var drop := false;
        if env.minLength > 0 && left.length < env.minLength { drop := true; }
        if env.minWidth > 0 && left.width < env.minWidth { drop := true; }
        if drop { return Ok(op); }
        var boxLength := if input.boxLength.None? then left.length else input.boxLength.value;
        var boxWidth := if input.boxWidth.None? then left.width else input.boxWidth.value;
        op := op.(newRemnant := Some(Remnant(src.board, src.parentRemnant, left, Dimension(boxLength, boxWidth),
                                             shape, src.material, Available, None, None, env.now)));
        op := op.(record := op.record.(produced := Some(env.remnantId)));
      }
      return Ok(op);
    }

    method Restore(was: Ledger)
      modifies this
      ensures State() == was
    {
      sheets, remnants, cuts := was.sheets, was.remnants, was.cuts;
    }

    /** recordCutAtomically: lock and re-check the source, mark it, insert the
        record, insert the leftover; any refusal rolls everything back. */
    method RecordCutAtomically(op: CutOp) returns (r: Result<()>)
      modifies this
      ensures var done := CommitWith(old(State()), op, linkChecked);
              r == (if done.Ok? then Ok(()) else Err(done.error)) && State() == OrSame(old(State()), done)
    {
      var begin := Ledger(sheets, remnants, cuts);
      match op.record.source {
        case FromSheet(s) =>
          if s !in sheets { return Err(NotFound); }
          if sheets[s].status != InStock { return Err(PreconditionFailed); }
          sheets := sheets[s := sheets[s].(status := Issued, issuedTo := Some(op.record.workOrder))];
        case FromRemnant(q) =>
          if q !in remnants { return Err(NotFound); }
          if remnants[q].status != Available && remnants[q].status != Allocated {
            return Err(PreconditionFailed);
          }
          remnants := remnants[q := remnants[q].(status := Consumed, allocatedTo := None)];
      }
      if exists i | 0 <= i < |cuts| :: cuts[i].id == op.record.id {
        Restore(begin);
        return Err(DbError);
      }
      if linkChecked && op.record.produced.Some? && op.record.produced.value !in remnants {
        Restore(begin);
        return Err(DbError);
      }
      cuts := cuts + [op.record];
      if op.newRemnant.Some? && op.record.produced.Some? {
        if op.record.produced.value in remnants {
          Restore(begin);
          return Err(DbError);
        }
        remnants := remnants[op.record.produced.value := op.newRemnant.value];
      }
      return Ok(());
    }

    /** RecordCut by one client with nobody in between. */
    method RecordCut(input: CutInput, env: CutEnv) returns (r: Result<Option<Id>>)
      modifies this
      ensures var op := PrepareCut(old(State()), input, env);
              if op.Err? then r == Err(op.error) && State() == old(State())
              else
                var done := CommitWith(old(State()), op.value, linkChecked);
                && State() == OrSame(old(State()), done)
                && r == if done.Ok? then Ok(op.value.record.produced) else Err(done.error)
    {
      var op := BuildCut(input, env);
      if op.Err? { return Err(op.error); }
      var done := RecordCutAtomically(op.value);
      if done.Err? { return Err(done.error); }
      return Ok(op.value.record.produced);
    }

    /** AllocateRemnant: an unlocked pre-check that answers InvalidInput, then
        the re-check under the lock. */
    method AllocateRemnant(q: Id, workOrder: Id, now: int) returns (r: Result<()>)
      modifies this
      ensures State() == OrSame(old(State()), Allocate(old(State()), q, workOrder, now))
      ensures r == if q !in old(remnants) then Err(NotFound)
                   else if old(remnants)[q].status != Available then Err(InvalidInput) else Ok(())
    {
      if q !in remnants { return Err(NotFound); }
      if remnants[q].status != Available { return Err(InvalidInput); }
      remnants := remnants[q := remnants[q].(status := Allocated, allocatedTo := Some(workOrder),
                                             allocatedAt := Some(now))];
      return Ok(());
    }

    method MarkRemnantWaste(q: Id) returns (r: Result<()>)
      modifies this
      ensures State() == OrSame(old(State()), MarkWaste(old(State()), q))
      ensures r == if q !in old(remnants) then Err(NotFound)
                   else if old(remnants)[q].status !in {Available, Allocated} then Err(InvalidInput) else Ok(())
    {
      if q !in remnants { return Err(NotFound); }
      if remnants[q].status != Available && remnants[q].status != Allocated { return Err(InvalidInput); }
      remnants := remnants[q := remnants[q].(status := Wasted, allocatedTo := None)];
      return Ok(());
    }
  }
}
