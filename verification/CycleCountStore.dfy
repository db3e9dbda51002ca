/** Posting a cycle count on the tables. */
module CycleCountStore {
  import opened Common
  import opened CycleCount

  class Store {
    var stock: map<Entity, Placed>
    var sessions: map<Id, SessionStatus>
    var lines: seq<Line>
    var audit: seq<AuditRow>

    function State(): Db
      reads this
    {
      Db(stock, sessions, lines, audit)
    }

    constructor (stock: map<Entity, Placed>)
      ensures State() == Db(stock, map[], [], [])
    {
      this.stock := stock;
      sessions, lines, audit := map[], [], [];
    }

    method AddCycleCountLine(line: Line, knownKind: bool) returns (err: Option<Error>)
      modifies this`lines
      ensures err.None? <==>
        CheckLine(old(State()), line, knownKind).None? && !Counted(old(lines), line.session, line.entity)
      ensures CheckLine(old(State()), line, knownKind).Some? ==> err == CheckLine(old(State()), line, knownKind)
      ensures lines == if err.None? then old(lines) + [line] else old(lines)
    {
      if line.session !in sessions { return Some(NotFound); }
      if sessions[line.session] != SessionOpen { return Some(InvalidTransition); }
      if !knownKind { return Some(InvalidInput); }
      if line.reason == "" { return Some(InvalidInput); }
      if |line.reason| > 255 { return Some(InvalidInput); }
      if !ValidStatus(line.entity, line.counted.status) { return Some(InvalidInput); }
      if line.entity !in stock { return Some(NotFound); }
      if exists i | 0 <= i < |lines| :: lines[i].session == line.session && lines[i].entity == line.entity {
        return Some(PreconditionFailed);
      }
      lines := lines + [line];
      return None;
    }

    /** Compares each line with its row and keeps those that disagree. */
    method CollectAdjustments(counted: seq<Line>) returns (r: Result<seq<Adjustment>>)
      ensures r == Adjustments(stock, counted)
    {
      var adjustments: seq<Adjustment> := [];
      for i := 0 to |counted|
        invariant Adjustments(stock, counted[..i]) == Ok(adjustments)
      {
        assert counted[..i + 1][..i] == counted[..i];
        var line := counted[i];
        if line.entity !in stock {
          MissingRow(stock, counted, i);
          return Err(NotFound);
        }
        var current := stock[line.entity];
        var statusChanged := current.status != line.counted.status;
        var moved := current.location != line.counted.location;
        if !statusChanged && !moved { continue; }
        adjustments := adjustments + [Adjustment(line.entity, current, line.counted)];
      }
      assert counted[..|counted|] == counted;
      return Ok(adjustments);
    }

    /** Applies the adjustments one by one and writes an audit row for each. */
    method ApplyAdjustments(op: PostOp)
      modifies this`stock, this`audit
      ensures stock == Replay(old(stock), op.adjustments)
      ensures audit == old(audit) + AuditRows(op)
    {
      var changes := op.adjustments;
      for i := 0 to |changes|
        invariant stock == Replay(old(stock), changes[..i])
        invariant audit == old(audit) + AuditRows(op)[..i]
      {
        assert changes[..i + 1][..i] == changes[..i];
        if changes[i].entity in stock { stock := stock[changes[i].entity := changes[i].after]; }
        audit := audit + [AuditRow(op.session, op.actor, changes[i])];
      }
      assert changes[..|changes|] == changes;
    }

    method PostCycleCount(session: Id, actor: Id) returns (err: Option<Error>)
      modifies this
      ensures err.None? <==> Post(old(State()), session, actor).Ok?
      ensures err.Some? ==> Post(old(State()), session, actor) == Err(err.value)
      ensures State() == if err.None? then Post(old(State()), session, actor).value else old(State())
    {
      hide Adjustments, Replay, LinesOf, AuditRows;
      if session !in sessions { return Some(NotFound); }
      if sessions[session] != SessionOpen { return Some(InvalidTransition); }
      var collected := CollectAdjustments(LinesOf(lines, session));
      if collected.Err? { return Some(collected.error); }
      ApplyAdjustments(PostOp(session, actor, collected.value));
      sessions := sessions[session := SessionPosted];
      return None;
    }
  }

  lemma {:induction false} MissingRow(stock: map<Entity, Placed>, counted: seq<Line>, i: nat)
    requires i < |counted| && counted[i].entity !in stock
    ensures Adjustments(stock, counted) == Err(NotFound)
    decreases |counted|
  {
    var n := |counted| - 1;
    if i < n { MissingRow(stock, counted[..n], i); }
    else { OnlyNotFound(stock, counted[..n]); }
  }

  lemma {:induction false} OnlyNotFound(stock: map<Entity, Placed>, counted: seq<Line>)
    ensures Adjustments(stock, counted).Ok? || Adjustments(stock, counted) == Err(NotFound)
  {
    if counted != [] { OnlyNotFound(stock, counted[..|counted| - 1]); }
  }
}
