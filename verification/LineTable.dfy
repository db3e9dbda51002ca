/** The container_lines table and the SQL aggregates over it. */
module LineTable {
  import opened Common

  datatype Line = Line(container: Id, sku: Id, soLine: Id, qty: int, cbm: real, kg: real)

  /** SUM(qty), SUM(cbm_total), SUM(weight_kg_total). */
  datatype Load = Load(qty: int, cbm: real, kg: real) {
    function Plus(other: Load): Load {
      Load(qty + other.qty, cbm + other.cbm, kg + other.kg)
    }
  }

  const Zero := Load(0, 0.0, 0.0)

  function LoadOfLine(l: Line): Load { Load(l.qty, l.cbm, l.kg) }

  /** A WHERE clause: the lines of some containers, optionally of one SKU and
      of one sales order line. */
  datatype Sel = Sel(containers: set<Id>, sku: Option<Id>, soLine: Option<Id>)

  predicate Matches(sel: Sel, l: Line) {
    l.container in sel.containers
    && (sel.sku.Some? ==> l.sku == sel.sku.value)
    && (sel.soLine.Some? ==> l.soLine == sel.soLine.value)
  }

  function Just(c: Id): Sel { Sel({c}, None, None) }

  function Pick(lines: map<Id, Line>, sel: Sel): map<Id, Line> {
    map id | id in lines && Matches(sel, lines[id]) :: lines[id]
  }

  function Total(rows: map<Id, Line>): Load {
    if rows == map[] then Zero
    else var k := Least(rows.Keys); LoadOfLine(rows[k]).Plus(Total(rows - {k}))
  }

  function LoadOf(lines: map<Id, Line>, sel: Sel): Load { Total(Pick(lines, sel)) }

  /** What one line contributes to a selection. */
  function Part(l: Line, sel: Sel): Load {
    if Matches(sel, l) then LoadOfLine(l) else Zero
  }

  /** The rows are summed in whatever order: taking any one of them out first. */
  lemma {:induction false} TotalTakeOut(rows: map<Id, Line>, k: Id)
    requires k in rows
    ensures Total(rows) == LoadOfLine(rows[k]).Plus(Total(rows - {k}))
    decreases |rows|
  {
    var m := Least(rows.Keys);
    if k != m {
      TotalTakeOut(rows - {m}, k);
      TotalTakeOut(rows - {k}, m);
      assert rows - {m} - {k} == rows - {k} - {m};
    }
  }

  lemma PickInsert(lines: map<Id, Line>, id: Id, l: Line, sel: Sel)
    requires id !in lines
    ensures id !in Pick(lines, sel)
    ensures Pick(lines[id := l], sel) == if Matches(sel, l) then Pick(lines, sel)[id := l] else Pick(lines, sel)
  {
  }

  lemma LoadInsert(lines: map<Id, Line>, id: Id, l: Line, sel: Sel)
    requires id !in lines
    ensures LoadOf(lines[id := l], sel) == LoadOf(lines, sel).Plus(Part(l, sel))
  {
    hide Pick, Matches, Total;
    PickInsert(lines, id, l, sel);
    AddRow(Pick(lines, sel), id, l);
  }

  lemma AddRow(rows: map<Id, Line>, id: Id, l: Line)
    requires id !in rows
    ensures Total(rows[id := l]) == Total(rows).Plus(LoadOfLine(l))
  {
    TotalTakeOut(rows[id := l], id);
    assert rows[id := l] - {id} == rows;
  }

  lemma LoadDelete(lines: map<Id, Line>, id: Id, sel: Sel)
    requires id in lines
    ensures LoadOf(lines, sel) == LoadOf(lines - {id}, sel).Plus(Part(lines[id], sel))
  {
    assert lines == (lines - {id})[id := lines[id]];
    LoadInsert(lines - {id}, id, lines[id], sel);
  }

  lemma LoadUpdate(lines: map<Id, Line>, id: Id, l: Line, sel: Sel)
    requires id in lines
    ensures LoadOf(lines[id := l], sel).Plus(Part(lines[id], sel)) == LoadOf(lines, sel).Plus(Part(l, sel))
  {
    hide LoadOf;
    LoadDelete(lines, id, sel);
    assert lines[id := l] == (lines - {id})[id := l];
    LoadInsert(lines - {id}, id, l, sel);
  }

  lemma UnionStep(a: map<Id, Line>, b: map<Id, Line>, k: Id)
    requires a.Keys !! b.Keys && k in a
    ensures k !in (a - {k}) + b && (a - {k}).Keys !! b.Keys && |a - {k}| < |a|
    ensures a + b == ((a - {k}) + b)[k := a[k]]
  {
    hide *;
    SmallerMap(a, k);
    assert a == (a - {k})[k := a[k]];
    UnionInsert(a - {k}, b, k, a[k]);
  }

  lemma SmallerMap(a: map<Id, Line>, k: Id)
    requires k in a
    ensures |a - {k}| == |a| - 1
  {
    assert (a - {k}).Keys == a.Keys - {k};
  }

  lemma UnionInsert(a: map<Id, Line>, b: map<Id, Line>, k: Id, l: Line)
    requires k !in a && k !in b
    ensures a[k := l] + b == (a + b)[k := l]
  {
  }

  lemma EmptyUnion(a: map<Id, Line>, b: map<Id, Line>)
    requires a == map[]
    ensures Total(a + b) == Total(a).Plus(Total(b))
  {
    assert a + b == b;
  }

  lemma {:induction false} TotalUnion(a: map<Id, Line>, b: map<Id, Line>)
    requires a.Keys !! b.Keys
    ensures Total(a + b) == Total(a).Plus(Total(b))
    decreases |a|
  {
    if a == map[] {
      EmptyUnion(a, b);
    } else {
      var k := Least(a.Keys);
      assert k in a;
      hide *;
      UnionStep(a, b, k);
      TotalTakeOut(a, k);
      TotalUnion(a - {k}, b);
      AddRow((a - {k}) + b, k, a[k]);
      PlusShuffles(LoadOfLine(a[k]), Total(a - {k}), Total(b));
    }
  }

  lemma PlusShuffles(x: Load, y: Load, z: Load)
    ensures y.Plus(z).Plus(x) == x.Plus(y).Plus(z)
  {
  }

  /** A selection over two disjoint groups of containers adds up. */
  lemma LoadSplit(lines: map<Id, Line>, a: set<Id>, b: set<Id>, sku: Option<Id>, so: Option<Id>)
    requires a !! b
    ensures LoadOf(lines, Sel(a + b, sku, so)) == LoadOf(lines, Sel(a, sku, so)).Plus(LoadOf(lines, Sel(b, sku, so)))
  {
    assert Pick(lines, Sel(a + b, sku, so)) == Pick(lines, Sel(a, sku, so)) + Pick(lines, Sel(b, sku, so));
    TotalUnion(Pick(lines, Sel(a, sku, so)), Pick(lines, Sel(b, sku, so)));
  }

  /** The CHECK constraints of the table. */
  ghost predicate LineOK(l: Line) { l.qty > 0 && l.cbm >= 0.0 && l.kg >= 0.0 }

  lemma {:induction false} TotalNonNegative(rows: map<Id, Line>)
    requires forall id :: id in rows ==> LineOK(rows[id])
    ensures Total(rows).qty >= |rows| && Total(rows).cbm >= 0.0 && Total(rows).kg >= 0.0
    decreases |rows|
  {
    if rows != map[] {
      var k := Least(rows.Keys);
      TotalNonNegative(rows - {k});
      assert |rows - {k}| == |rows| - 1;
    }
  }

  // -------------------------------------------------------- listLinesForSeal

  function AddTo(items: map<Id, int>, so: Id, qty: int): map<Id, int> {
    items[so := qty + if so in items then items[so] else 0]
  }

  /** SELECT sales_order_line_id, SUM(qty) ... GROUP BY sales_order_line_id. */
  function ShipmentItems(rows: map<Id, Line>): map<Id, int> {
    if rows == map[] then map[]
    else var k := Least(rows.Keys); AddTo(ShipmentItems(rows - {k}), rows[k].soLine, rows[k].qty)
  }

  function ItemQty(items: map<Id, int>, so: Id): int { if so in items then items[so] else 0 }

  /** The group of a sales order line is the quantity the container holds for it,
      and a line with no rows has no group. */
  lemma {:induction false} ItemsAreGroupedQuantities(rows: map<Id, Line>, all: set<Id>, so: Id)
    requires forall id :: id in rows ==> rows[id].container in all
    ensures ItemQty(ShipmentItems(rows), so) == LoadOf(rows, Sel(all, None, Some(so))).qty
    decreases |rows|
  {
    var sel := Sel(all, None, Some(so));
    if rows == map[] {
      assert Pick(rows, sel) == map[];
    } else {
      hide *;
      var k := Least(rows.Keys);
      ItemsAreGroupedQuantities(rows - {k}, all, so);
      TakeOutItem(rows, k, all, so);
    }
  }

  lemma TakeOutItem(rows: map<Id, Line>, k: Id, all: set<Id>, so: Id)
    requires rows != map[] && k == Least(rows.Keys) && rows[k].container in all
    ensures ItemQty(ShipmentItems(rows), so)
            - ItemQty(ShipmentItems(rows - {k}), so)
            == LoadOf(rows, Sel(all, None, Some(so))).qty - LoadOf(rows - {k}, Sel(all, None, Some(so))).qty
  {
    hide LoadOf;
    LoadDelete(rows, k, Sel(all, None, Some(so)));
  }

  lemma {:induction false} ItemsCoverLines(rows: map<Id, Line>, so: Id)
    ensures so in ShipmentItems(rows) <==> exists id :: id in rows && rows[id].soLine == so
    decreases |rows|
  {
    if rows != map[] {
      var k := Least(rows.Keys);
      ItemsCoverLines(rows - {k}, so);
      if id :| id in rows && rows[id].soLine == so {
        assert id == k || id in rows - {k};
      }
      if id :| id in rows - {k} && (rows - {k})[id].soLine == so {
        assert rows[id].soLine == so;
      }
    }
  }
}
