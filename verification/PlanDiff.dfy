/** Comparing two loading plans by SKU: what the diff lists, and that applying it
    to the old plan gives the new one. */
module PlanDiff {
  import opened Common

  datatype PlanLine = PlanLine(sku: Id, code: string, qty: int)

  datatype PlanDoc = PlanDoc(container: Id, lines: seq<PlanLine>)

  datatype Change = Change(sku: Id, code: string, oldQty: int, newQty: int)

  datatype Diff = Diff(added: seq<PlanLine>, removed: seq<PlanLine>, changed: seq<Change>)

  /** The rows of a plan by SKU; a later row replaces an earlier one. */
  function BySku(lines: seq<PlanLine>): map<Id, PlanLine> {
    if lines == [] then map[]
    else var last := lines[|lines| - 1]; BySku(lines[..|lines| - 1])[last.sku := last]
  }

  /** A SKU's row is the last one of the plan with that SKU. */
  lemma {:induction false} LastRowWins(lines: seq<PlanLine>, sku: Id)
    ensures sku in BySku(lines) <==> exists i :: 0 <= i < |lines| && lines[i].sku == sku
    ensures sku in BySku(lines) ==>
      exists i :: 0 <= i < |lines| && lines[i].sku == sku && BySku(lines)[sku] == lines[i]
        && (forall j :: i < j < |lines| ==> lines[j].sku != sku)
  {
    if lines != [] {
      var n := |lines| - 1;
      LastRowWins(lines[..n], sku);
      if lines[n].sku != sku && sku in BySku(lines) {
        var i :| 0 <= i < n && lines[..n][i].sku == sku && BySku(lines[..n])[sku] == lines[..n][i]
          && (forall j :: i < j < n ==> lines[..n][j].sku != sku);
        assert forall j :: i < j < n ==> lines[j].sku != sku by {
          forall j | i < j < n ensures lines[j].sku != sku { assert lines[..n][j].sku != sku; }
        }
        assert lines[i].sku == sku;
      }
      if i :| 0 <= i < n + 1 && lines[i].sku == sku && lines[n].sku != sku {
        assert lines[..n][i].sku == sku;
      }
    }
  }

  ghost predicate Keyed(m: map<Id, PlanLine>) { forall sku :: sku in m ==> m[sku].sku == sku }

  lemma {:induction false} BySkuKeyed(lines: seq<PlanLine>)
    ensures Keyed(BySku(lines))
  {
    if lines != [] { BySkuKeyed(lines[..|lines| - 1]); }
  }

  // ---------------------------------------------------------- what a diff lists

  ghost predicate Distinct(rows: seq<PlanLine>) {
    forall i, j :: 0 <= i < j < |rows| ==> rows[i].sku != rows[j].sku
  }

  ghost predicate DistinctChanges(rows: seq<Change>) {
    forall i, j :: 0 <= i < j < |rows| ==> rows[i].sku != rows[j].sku
  }

  /** The rows of a whose SKU b lacks, each once, in whatever order; limited to
      the SKUs already visited. */
  ghost predicate OnlyIn(a: map<Id, PlanLine>, b: map<Id, PlanLine>, visited: set<Id>, rows: seq<PlanLine>) {
    && Distinct(rows)
    && (forall l :: l in rows ==> l.sku in visited && l.sku in a && l.sku !in b && a[l.sku] == l)
    && (forall sku :: sku in visited && sku in a && sku !in b ==> a[sku] in rows)
  }

  ghost predicate Differs(a: map<Id, PlanLine>, b: map<Id, PlanLine>, sku: Id) {
    sku in a && sku in b && a[sku].qty != b[sku].qty
  }

  function ChangeOf(a: map<Id, PlanLine>, b: map<Id, PlanLine>, sku: Id): Change
    requires sku in a && sku in b
  {
    Change(sku, b[sku].code, a[sku].qty, b[sku].qty)
  }

  ghost predicate ChangedIn(a: map<Id, PlanLine>, b: map<Id, PlanLine>, visited: set<Id>, rows: seq<Change>) {
    && DistinctChanges(rows)
    && (forall c :: c in rows ==> c.sku in visited && Differs(a, b, c.sku) && c == ChangeOf(a, b, c.sku))
    && (forall sku :: sku in visited && Differs(a, b, sku) ==> ChangeOf(a, b, sku) in rows)
  }

  ghost predicate IsDiff(a: map<Id, PlanLine>, b: map<Id, PlanLine>, d: Diff) {
    OnlyIn(b, a, b.Keys, d.added) && OnlyIn(a, b, a.Keys, d.removed) && ChangedIn(a, b, b.Keys, d.changed)
  }

  // -------------------------------------------------------------- the algorithm

  method CollectBySku(lines: seq<PlanLine>) returns (m: map<Id, PlanLine>)
    ensures m == BySku(lines)
  {
    m := map[];
    for i := 0 to |lines|
      invariant m == BySku(lines[..i])
    {
      m := m[lines[i].sku := lines[i]];
      assert lines[..i + 1][..i] == lines[..i];
    }
    assert lines[..|lines|] == lines;
  }

  lemma VisitOnlyIn(a: map<Id, PlanLine>, b: map<Id, PlanLine>, visited: set<Id>, rows: seq<PlanLine>, sku: Id)
    requires Keyed(a) && OnlyIn(a, b, visited, rows) && sku in a && sku !in visited
    ensures OnlyIn(a, b, visited + {sku}, if sku in b then rows else rows + [a[sku]])
  {
  }

  lemma VisitChanged(a: map<Id, PlanLine>, b: map<Id, PlanLine>, visited: set<Id>, rows: seq<Change>, sku: Id)
    requires ChangedIn(a, b, visited, rows) && sku !in visited
    ensures ChangedIn(a, b, visited + {sku}, if Differs(a, b, sku) then rows + [ChangeOf(a, b, sku)] else rows)
  {
  }

  /** Both maps are visited in an arbitrary order. */
  method DiffMaps(oldBy: map<Id, PlanLine>, newBy: map<Id, PlanLine>) returns (d: Diff)
    requires Keyed(oldBy) && Keyed(newBy)
    ensures IsDiff(oldBy, newBy, d)
  {
    hide OnlyIn, ChangedIn, Keyed;
    var added, removed: seq<PlanLine>, changed: seq<Change> := [], [], [];
    NothingVisited(oldBy, newBy);
    NothingVisited(newBy, oldBy);
    var todo := newBy.Keys;
    ghost var visited: set<Id> := {};
    while todo != {}
      invariant todo !! visited && todo + visited == newBy.Keys
      invariant OnlyIn(newBy, oldBy, visited, added) && ChangedIn(oldBy, newBy, visited, changed)
      decreases todo
    {
      var sku :| sku in todo;
      VisitOnlyIn(newBy, oldBy, visited, added, sku);
      VisitChanged(oldBy, newBy, visited, changed, sku);
      if sku in oldBy {
        if oldBy[sku].qty != newBy[sku].qty {
          changed := changed + [Change(sku, newBy[sku].code, oldBy[sku].qty, newBy[sku].qty)];
        }
      } else {
        added := added + [newBy[sku]];
      }
      todo, visited := todo - {sku}, visited + {sku};
    }
    assert visited == newBy.Keys;
    todo, visited := oldBy.Keys, {};
    while todo != {}
      invariant todo !! visited && todo + visited == oldBy.Keys
      invariant OnlyIn(oldBy, newBy, visited, removed)
      decreases todo
    {
      var sku :| sku in todo;
      VisitOnlyIn(oldBy, newBy, visited, removed, sku);
      if sku !in newBy { removed := removed + [oldBy[sku]]; }
      todo, visited := todo - {sku}, visited + {sku};
    }
    assert visited == oldBy.Keys;
    return Diff(added, removed, changed);
  }

  lemma NothingVisited(a: map<Id, PlanLine>, b: map<Id, PlanLine>)
    ensures OnlyIn(a, b, {}, []) && ChangedIn(a, b, {}, [])
  {
  }

  method DiffLoadingPlans(docs: map<Id, PlanDoc>, plan: Id, against: Id) returns (r: Result<Diff>)
    ensures r.Err? && r.error == InvalidInput <==>
      plan == NIL || against == NIL || plan == against
      || (plan in docs && against in docs && docs[plan].container != docs[against].container)
    ensures r.Err? && r.error == NotFound <==>
      plan != NIL && against != NIL && plan != against && (plan !in docs || against !in docs)
    ensures r.Err? ==> r.error in {InvalidInput, NotFound}
    ensures r.Ok? ==>
      && plan in docs && against in docs
      && IsDiff(BySku(docs[against].lines), BySku(docs[plan].lines), r.value)
  {
    if plan == NIL || against == NIL { return Err(InvalidInput); }
    if plan == against { return Err(InvalidInput); }
    if plan !in docs { return Err(NotFound); }
    if against !in docs { return Err(NotFound); }
    if docs[plan].container != docs[against].container { return Err(InvalidInput); }
    var oldBy := CollectBySku(docs[against].lines);
    var newBy := CollectBySku(docs[plan].lines);
    BySkuKeyed(docs[against].lines);
    BySkuKeyed(docs[plan].lines);
    var d := DiffMaps(oldBy, newBy);
    return Ok(d);
  }

  // ----------------------------------------------------------------- round trip

  /** A plan as its readers use it: the quantity of each SKU. */
  function Quantities(m: map<Id, PlanLine>): map<Id, int> { map sku | sku in m :: m[sku].qty }

  function WithoutRows(q: map<Id, int>, rows: seq<PlanLine>): map<Id, int>
    decreases |rows|
  {
    if rows == [] then q else WithoutRows(q - {rows[0].sku}, rows[1..])
  }

  function WithRows(q: map<Id, int>, rows: seq<PlanLine>): map<Id, int>
    decreases |rows|
  {
    if rows == [] then q else WithRows(q[rows[0].sku := rows[0].qty], rows[1..])
  }

  function WithChanges(q: map<Id, int>, rows: seq<Change>): map<Id, int>
    decreases |rows|
  {
    if rows == [] then q else WithChanges(q[rows[0].sku := rows[0].newQty], rows[1..])
  }

  /** Carrying out a diff, row by row. */
  function Apply(q: map<Id, int>, d: Diff): map<Id, int> {
    WithChanges(WithRows(WithoutRows(q, d.removed), d.added), d.changed)
  }

  predicate Lists(rows: seq<PlanLine>, sku: Id) { exists i :: 0 <= i < |rows| && rows[i].sku == sku }

  predicate ListsChange(rows: seq<Change>, sku: Id) { exists i :: 0 <= i < |rows| && rows[i].sku == sku }

  lemma {:induction false} WithoutRowsAt(q: map<Id, int>, rows: seq<PlanLine>, sku: Id)
    ensures Lookup(WithoutRows(q, rows), sku) == if Lists(rows, sku) then None else Lookup(q, sku)
    decreases |rows|
  {
    if rows != [] {
      WithoutRowsAt(q - {rows[0].sku}, rows[1..], sku);
      ListsHead(rows, sku);
    }
  }

  lemma ListsHead(rows: seq<PlanLine>, sku: Id)
    requires rows != []
    ensures Lists(rows, sku) <==> rows[0].sku == sku || Lists(rows[1..], sku)
  {
    if Lists(rows, sku) && rows[0].sku != sku {
      var i :| 0 <= i < |rows| && rows[i].sku == sku;
      assert rows[1..][i - 1].sku == sku;
    }
    if Lists(rows[1..], sku) {
      var i :| 0 <= i < |rows| - 1 && rows[1..][i].sku == sku;
      assert rows[i + 1].sku == sku;
    }
  }

  lemma NotListedTwice(rows: seq<PlanLine>)
    requires Distinct(rows) && rows != []
    ensures !Lists(rows[1..], rows[0].sku)
  {
    assert forall i :: 0 <= i < |rows| - 1 ==> rows[1..][i] == rows[i + 1];
  }

  lemma {:induction false} WithRowsAt(q: map<Id, int>, rows: seq<PlanLine>, sku: Id)
    requires Distinct(rows)
    ensures !Lists(rows, sku) ==> Lookup(WithRows(q, rows), sku) == Lookup(q, sku)
    ensures forall l :: l in rows && l.sku == sku ==> Lookup(WithRows(q, rows), sku) == Some(l.qty)
    decreases |rows|
  {
    if rows != [] {
      WithRowsAt(q[rows[0].sku := rows[0].qty], rows[1..], sku);
      ListsHead(rows, sku);
      if rows[0].sku == sku { NotListedTwice(rows); }
    }
  }

  lemma {:induction false} WithChangesAt(q: map<Id, int>, rows: seq<Change>, sku: Id)
    requires DistinctChanges(rows)
    ensures !ListsChange(rows, sku) ==> Lookup(WithChanges(q, rows), sku) == Lookup(q, sku)
    ensures forall c :: c in rows && c.sku == sku ==> Lookup(WithChanges(q, rows), sku) == Some(c.newQty)
    decreases |rows|
  {
    if rows != [] {
      WithChangesAt(q[rows[0].sku := rows[0].newQty], rows[1..], sku);
      if ListsChange(rows[1..], sku) {
        var i :| 0 <= i < |rows| - 1 && rows[1..][i].sku == sku;
        assert rows[i + 1].sku == sku;
      }
      if rows[0].sku == sku { assert ListsChange(rows, sku); }
    }
  }

  lemma SameLookups(a: map<Id, int>, b: map<Id, int>)
    requires forall sku :: Lookup(a, sku) == Lookup(b, sku)
    ensures a == b
  {
    assert forall sku :: sku in a <==> Lookup(a, sku).Some?;
    assert forall sku :: sku in b <==> Lookup(b, sku).Some?;
    forall sku | sku in a
      ensures a[sku] == b[sku]
    {
      assert Lookup(a, sku) == Lookup(b, sku);
    }
  }

  /** What one SKU has after the diff is carried out. */
  lemma ApplyAt(a: map<Id, PlanLine>, b: map<Id, PlanLine>, d: Diff, sku: Id)
    requires Keyed(a) && Keyed(b) && IsDiff(a, b, d)
    ensures Lookup(Apply(Quantities(a), d), sku) == Lookup(Quantities(b), sku)
  {
    var q := Quantities(a);
    var q1 := WithoutRows(q, d.removed);
    var q2 := WithRows(q1, d.added);
    WithoutRowsAt(q, d.removed, sku);
    WithRowsAt(q1, d.added, sku);
    WithChangesAt(q2, d.changed, sku);
    hide WithoutRows, WithRows, WithChanges;
    if sku in a && sku !in b {
      assert a[sku] in d.removed;
    } else if sku in b && sku !in a {
      assert b[sku] in d.added;
    } else if Differs(a, b, sku) {
      assert ChangeOf(a, b, sku) in d.changed;
    }
  }

  /** The round trip: whatever order the maps were visited in, applying the diff
      to the old plan's quantities gives the new plan's. */
  lemma DiffRoundTrip(before: seq<PlanLine>, after: seq<PlanLine>, d: Diff)
    requires IsDiff(BySku(before), BySku(after), d)
    ensures Apply(Quantities(BySku(before)), d) == Quantities(BySku(after))
  {
    BySkuKeyed(before);
    BySkuKeyed(after);
    hide IsDiff, BySku, Keyed, Apply, Quantities;
    forall sku
      ensures Lookup(Apply(Quantities(BySku(before)), d), sku) == Lookup(Quantities(BySku(after)), sku)
    {
      ApplyAt(BySku(before), BySku(after), d, sku);
    }
    SameLookups(Apply(Quantities(BySku(before)), d), Quantities(BySku(after)));
  }

  /** No SKU is on two lists, and each is on the list that says what happened to it. */
  lemma DiffListsAreDisjoint(a: map<Id, PlanLine>, b: map<Id, PlanLine>, d: Diff, sku: Id)
    requires Keyed(a) && Keyed(b) && IsDiff(a, b, d)
    ensures Lists(d.added, sku) <==> sku in b && sku !in a
    ensures Lists(d.removed, sku) <==> sku in a && sku !in b
    ensures ListsChange(d.changed, sku) <==> sku in a && sku in b && a[sku].qty != b[sku].qty
    ensures forall c :: c in d.changed && c.sku == sku ==>
      sku in a && sku in b && c.oldQty == a[sku].qty && c.newQty == b[sku].qty && c.code == b[sku].code
  {
    if sku in b && sku !in a { assert b[sku] in d.added; }
    if sku in a && sku !in b { assert a[sku] in d.removed; }
    if Differs(a, b, sku) { assert ChangeOf(a, b, sku) in d.changed; }
  }
}
