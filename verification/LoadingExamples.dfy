/** Two short runs of the delivery service in which a promise is broken. */
module LoadingExamples {
  import opened Common
  import opened LineTable
  import opened Delivery
  import opened Loading
  import opened LoadingLedger

  /** Nothing but sales order line 5, of which one piece is planned. */
  const Shop := Db(0.0, map[], map[], map[5 := SOLine(3, true, 1, 0)], map[], [], [], [], [])

  const Box := Container(33.2, 28000.0, Open, None, None, None)

  function OnePiece(line: Id): Step {
    StepCall(AddLine(1, line, 3, 5, 1, 1.0, 1.0, 9, false, false, true, 0), Shop.soLines)
  }

  const Make := StepCreate(1, GP20, 0.0, 0.0, None, 9)
  const SealIt := StepCall(Seal(1, 9, 0, true, 0), Shop.soLines)
  const ReopenIt := StepCall(Reopen(1, "recount", 9, 0), Shop.soLines)

  const Row := Line(1, 3, 5, 1, 1.0, 1.0)

  function Opened(): Db { Shop.(containers := map[1 := Box]) }

  /** The container with the given lines, LOADING. */
  function Filled(lines: map<Id, Line>): Db {
    Shop.(containers := map[1 := Box.(status := Loading)], lines := lines,
          statusLog := [StatusEntry(1, Open, Loading, 9, 0)])
  }

  lemma ShopStart()
    ensures Start(Shop) && Next(Shop, Make) == Opened()
  {
    assert Next(Shop, Make).containers == map[1 := Box];
  }

  lemma AllPicked(rows: map<Id, Line>)
    requires forall id :: id in rows ==> rows[id] == Row
    ensures Pick(rows, Just(1)) == rows && Pick(rows, Sel({1}, None, Some(5))) == rows
  {
  }

  lemma EmptyBox()
    ensures LoadOf(map[], Just(1)) == Zero
  {
    assert Pick(map[], Just(1)) == map[];
  }

  lemma OneRowLoad(line: Id)
    ensures LoadOf(map[line := Row], Just(1)) == Load(1, 1.0, 1.0)
    ensures LoadOf(map[line := Row], Sel({1}, None, Some(5))) == Load(1, 1.0, 1.0)
  {
    AllPicked(map[line := Row]);
    AddRow(map[], line, Row);
    assert map[][line := Row] == map[line := Row];
  }

  lemma FirstPiece()
    ensures Try(Opened(), OnePiece(11)).Ok? && Next(Opened(), OnePiece(11)) == Filled(map[11 := Row])
  {
    hide LoadOf;
    EmptyBox();
    assert map[][11 := Row] == map[11 := Row];
    var db' := Next(Opened(), OnePiece(11));
    assert db'.containers == map[1 := Box.(status := Loading)];
  }

  lemma SecondPiece()
    ensures Try(Filled(map[11 := Row]), OnePiece(12)).Ok?
    ensures Next(Filled(map[11 := Row]), OnePiece(12)) == Filled(map[11 := Row, 12 := Row])
  {
    hide LoadOf;
    OneRowLoad(11);
    assert map[11 := Row][12 := Row] == map[11 := Row, 12 := Row];
  }

  lemma RunFour(db: Db, a: Step, b: Step, c: Step, d: Step)
    ensures At(db, [a, b, c], 0) == db && At(db, [a, b, c], 1) == Next(db, a)
    ensures At(db, [a, b, c], 2) == Next(Next(db, a), b)
    ensures Run(db, [a, b, c]) == Next(Next(Next(db, a), b), c)
    ensures Run(db, [a, b, c, d]) == Next(Next(Next(Next(db, a), b), c), d)
  {
    hide Next;
    assert [a, b, c][..0] == [] && Run(db, []) == db;
    AtNext(db, [a, b, c], 0);
    AtNext(db, [a, b, c], 1);
    AtNext(db, [a, b, c], 2);
    assert [a, b, c][..3] == [a, b, c] && [a, b, c, d] == [a, b, c] + [d];
    RunAppend(db, [a, b, c], d);
  }

  lemma TwoPiecesLoaded()
    ensures Loaded(Filled(map[11 := Row, 12 := Row]), 5) == 2 && Planned(Shop, 5) == 1
  {
    hide LoadOf;
    var rows := map[11 := Row, 12 := Row];
    OneRowLoad(11);
    assert rows == map[11 := Row][12 := Row];
    LoadInsert(map[11 := Row], 12, Row, Sel({1}, None, Some(5)));
    assert Filled(rows).containers.Keys == {1};
  }

  /** Two successful AddLines of one piece each put two pieces of order line 5 on
      a container, although only one is planned. */
  lemma LinesPassThePlan()
    ensures var steps := [Make, OnePiece(11), OnePiece(12)];
            && Start(Shop)
            && Adds(At(Shop, steps, 2), steps[2], 5)
            && Loaded(Run(Shop, steps), 5) == 2 > Planned(Shop, 5)
  {
    hide Next, Try, Run, At, Loaded, Planned, Opened, Filled;
    RunFour(Shop, Make, OnePiece(11), OnePiece(12), Make);
    ShopStart();
    FirstPiece();
    SecondPiece();
    TwoPiecesLoaded();
  }

  function Stamped(): Db {
    Filled(map[11 := Row]).(
      containers := map[1 := Box.(status := Sealed, sealedAt := Some(0), sealedBy := Some(9))],
      soLines := map[5 := SOLine(3, true, 1, 1)],
      statusLog := [StatusEntry(1, Open, Loading, 9, 0), StatusEntry(1, Loading, Sealed, 9, 0)])
  }

  lemma OneItem()
    ensures ShipmentItems(map[11 := Row]) == map[5 := 1]
  {
    var rows := map[11 := Row];
    assert 11 in rows && Least(rows.Keys) == 11;
    assert rows - {11} == map[];
    assert AddTo(map[], 5, 1) == map[5 := 1];
  }

  lemma Shipped(db: Db)
    requires db.soLines == Shop.soLines
    ensures RecordShipment(db.soLines, map[5 := 1]) == Some(map[5 := SOLine(3, true, 1, 1)])
  {
    var items := map[5 := 1];
    assert ItemQty(items, 5) == 1;
    var bumped := map so | so in db.soLines :: db.soLines[so].(shipped := db.soLines[so].shipped + ItemQty(items, so));
    assert bumped == map[5 := SOLine(3, true, 1, 1)];
  }

  lemma Sealing()
    ensures Try(Filled(map[11 := Row]), SealIt).Ok? && Next(Filled(map[11 := Row]), SealIt) == Stamped()
  {
    hide LoadOf, ShipmentItems, RecordShipment;
    OneItem();
    AllPicked(map[11 := Row]);
    var db := Filled(map[11 := Row]);
    Shipped(db);
    assert ViewOf(db, SealIt.req) == Blank.(main := Some(Box.(status := Loading)), items := map[5 := 1]);
    assert 5 in ViewOf(db, SealIt.req).items;
    assert Next(db, SealIt).containers == Stamped().containers;
  }

  lemma Reopening()
    ensures var db' := Next(Stamped(), ReopenIt);
            && Try(Stamped(), ReopenIt).Ok?
            && db'.containers == map[1 := Box.(status := Loading)]
            && db'.soLines == map[5 := SOLine(3, true, 1, 1)]
  {
    hide LoadOf;
    assert ReopenIt.req.reason[0] == 'r';
  }

  lemma NothingSealed()
    ensures Booked(Shop, 5) == 0 && OnSealed(Shop, 5) == 0
    ensures Booked(Next(Stamped(), ReopenIt), 5) == 1 && OnSealed(Next(Stamped(), ReopenIt), 5) == 0
  {
    Reopening();
    hide Next, QtyFor;
    var db := Next(Stamped(), ReopenIt);
    assert SealedSet(Shop) == {} && SealedSet(db) == {};
    NothingOnNoContainer(Shop, 5);
    NothingOnNoContainer(db, 5);
  }

  /** One piece is sealed and its container reopened: qty_shipped says one, but
      no piece is on a SEALED or SHIPPED container. */
  lemma ReopenLeavesShipped()
    ensures var steps := [Make, OnePiece(11), SealIt, ReopenIt];
            var db := Run(Shop, steps);
            && Booked(db, 5) == 1 && OnSealed(db, 5) == 0
            && ReopenedIn(Shop, steps, 5) == 1
  {
    hide Next, Try, Run, At, Booked, OnSealed, ReopenedIn, Opened, Filled, Stamped;
    RunFour(Shop, Make, OnePiece(11), SealIt, ReopenIt);
    ShopStart();
    FirstPiece();
    Sealing();
    NothingSealed();
    ReopenedIsTheGap(Shop, [Make, OnePiece(11), SealIt, ReopenIt], 5);
  }

  lemma NothingOnNoContainer(db: Db, so: Id)
    ensures QtyFor(db, {}, so) == 0
  {
    assert Pick(db.lines, Sel({}, None, Some(so))) == map[];
  }
}
