/** Runs from the empty ledger that end in states worth knowing about. */
module Witnesses {
  import opened RackRanges
  import opened Records
  import opened Placement
  import opened Repairs
  import opened AssetWrites
  import opened AssetConfiguration
  import opened Inventory
  import opened Runs

  ghost predicate Reached(db: Db) {
    exists ops :: Run(EMPTY, ops) == db
  }

  lemma Then(db: Db, op: Op)
    requires Reached(db)
    ensures Reached(Step(db, op))
  {
    var ops :| Run(EMPTY, ops) == db;
    assert (ops + [op])[..|ops|] == ops;
    assert Run(EMPTY, ops + [op]) == Step(db, op);
  }

  lemma EmptyIsReached()
    ensures Reached(EMPTY)
  {
    assert Run(EMPTY, []) == EMPTY;
  }

  // ---------- a hold between two devices ----------

  const SPARE := Asset(InStock, None, None, false, None)
  const RACKED := EMPTY.(centres := map[1 := true], rooms := map[1 := Room(1, 1, true)],
                         racks := map[1 := Rack(1, 1, 42, RackInUse)])
  const STOCKED := RACKED.(assets := map[1 := SPARE, 2 := SPARE, 3 := SPARE])
  const MOUNTED := SPARE.(centre := Some(1))
  const ONE_UP := STOCKED.(allocations := map[1 := Allocation(1, Span(1, 1))],
                           assets := map[1 := MOUNTED, 2 := SPARE, 3 := SPARE])
  const HELD := ONE_UP.(holds := map[1 := UnitHold(1, Hold(Active, Span(2, 2)), None)])
  const HEMMED_IN := HELD.(allocations := map[1 := Allocation(1, Span(1, 1)), 2 := Allocation(1, Span(3, 3))],
                           assets := map[1 := MOUNTED, 2 := MOUNTED, 3 := SPARE])

  lemma RackIsReached()
    ensures Reached(RACKED)
  {
    EmptyIsReached();
    var centre := Step(EMPTY, SetUp(AddCentre(1)));
    var room := Step(centre, SetUp(AddRoom(1, 1, 1)));
    Then(EMPTY, SetUp(AddCentre(1)));
    Then(centre, SetUp(AddRoom(1, 1, 1)));
    Then(room, SetUp(AddRack(1, 1, 1, 42, RackInUse)));
    assert Step(room, SetUp(AddRack(1, 1, 1, 42, RackInUse))) == RACKED;
  }

  lemma SpareAdded(db: Db, assetId: int)
    requires assetId !in db.assets && db.allocations == map[]
    ensures CreateAsset(db, assetId, InStock, None, None, None) == Committed(WithRow(db, assetId, SPARE))
  {}

  lemma StockIsReached()
    ensures Reached(STOCKED)
  {
    RackIsReached();
    var one, two := WithRow(RACKED, 1, SPARE), WithRow(WithRow(RACKED, 1, SPARE), 2, SPARE);
    SpareAdded(RACKED, 1);
    Then(RACKED, OnAsset(NewAsset(1, InStock, None, None, None)));
    SpareAdded(one, 2);
    Then(one, OnAsset(NewAsset(2, InStock, None, None, None)));
    SpareAdded(two, 3);
    Then(two, OnAsset(NewAsset(3, InStock, None, None, None)));
    assert WithRow(two, 3, SPARE).assets == STOCKED.assets;
  }

  lemma OneUpIsReached()
    ensures Reached(ONE_UP)
  {
    StockIsReached();
    Then(STOCKED, Locate(PlaceIt(1, 1, Span(1, 1))));
    assert Place(STOCKED, 1, 1, Span(1, 1)) == Committed(ONE_UP);
  }

  lemma HeldIsReached()
    ensures Reached(HELD)
  {
    OneUpIsReached();
    Then(ONE_UP, Locate(ReserveIt(1, 1, Span(2, 2))));
    assert Reserve(ONE_UP, 1, 1, Span(2, 2)) == Committed(HELD);
  }

  lemma HemmedInIsReached()
    ensures Reached(HEMMED_IN)
  {
    HeldIsReached();
    Then(HELD, Locate(PlaceIt(2, 1, Span(3, 3))));
    assert Place(HELD, 2, 1, Span(3, 3)) == Committed(HEMMED_IN);
  }

  /** An active hold of a usable rack on which no device but its two neighbours can be placed. */
  ghost predicate UselessHold(db: Db, holdId: int, neighbours: set<int>) {
    && ActiveHold(db.holds, holdId) && Usable(db, db.holds[holdId].rack)
    && forall a :: a !in neighbours ==>
         PlaceOnHold(db, a, Allocation(db.holds[holdId].rack, db.holds[holdId].hold.span), holdId) == RolledBack
  }

  /** A device at U1, a hold on U2 and then a device at U3: the hold stays active and serves
      no other device. */
  lemma HoldCanBecomeUseless()
    ensures exists ops ::
              UselessHold(Run(EMPTY, ops), 1, {1, 2}) && 3 in Run(EMPTY, ops).assets
              && Run(EMPTY, ops).assets[3] == SPARE
  {
    HemmedInIsReached();
    forall a | a != 1 && a != 2 ensures PlaceOnHold(HEMMED_IN, a, Allocation(1, Span(2, 2)), 1) == RolledBack {
      NoRoomOnHold(a);
    }
    assert UselessHold(HEMMED_IN, 1, {1, 2});
  }

  lemma NoRoomOnHold(a: int)
    requires a != 1 && a != 2
    ensures PlaceOnHold(HEMMED_IN, a, Allocation(1, Span(2, 2)), 1) == RolledBack
  {
    var used := Consume(HEMMED_IN, 1, 1, a, Span(2, 2)).db;
    assert used.allocations[1] == Allocation(1, Span(1, 1)) && used.allocations[2] == Allocation(1, Span(3, 3));
    assert Taken(used, 1, Some(a), 1) && Taken(used, 1, Some(a), 3);
    assert Squeezed(used, 1, Some(a), Span(2, 2));
  }

  // ---------- an exception resolved after its count is completed ----------

  const KEY := ItemKey(1, 1)
  const MISSING := Item(Unlocated, NotFound, Unclear, Unresolved, None)
  const ONE_ASSET := EMPTY.(assets := map[1 := SPARE])
  const COUNTING := ONE_ASSET.(tasks := map[1 := Task(false, None, None)],
                               items := map[KEY := Item(Unlocated, Pending, Unclear, NotRequired, None)])
  const NOTED := COUNTING.(items := map[KEY := MISSING])
  const COUNTED := NOTED.(tasks := map[1 := Task(true, None, None)])

  lemma CountingIsReached()
    ensures Reached(COUNTING)
  {
    EmptyIsReached();
    Then(EMPTY, OnAsset(NewAsset(1, InStock, None, None, None)));
    assert Step(EMPTY, OnAsset(NewAsset(1, InStock, None, None, None))) == ONE_ASSET;
    Then(ONE_ASSET, OnCount(NewTask(1, AllAssets)));
    assert ScopeAssets(ONE_ASSET, AllAssets) == {1};
    TaskItemsAre(ONE_ASSET, 1, {1});
    assert CreateTask(ONE_ASSET, 1, AllAssets) == Committed(COUNTING);
  }

  lemma CountedIsReached()
    ensures Reached(COUNTED)
  {
    CountingIsReached();
    Then(COUNTING, OnCount(Record(KEY, Some(NotFound), None, false)));
    assert Observe(COUNTING, KEY, Some(NotFound), None, false) == Committed(NOTED);
    Then(NOTED, OnCount(FinishTask(1)));
    assert CompleteTask(NOTED, 1) == Committed(COUNTED);
  }

  /** The missing asset of a completed count is confirmed missing afterwards. */
  lemma CompletedCountCanBeResolved()
    ensures exists ops :: var db := Run(EMPTY, ops);
              1 in db.tasks && db.tasks[1].completed && Inventory.Resolve(db, KEY, ConfirmMissing, false).Committed?
  {
    CountedIsReached();
    assert Inventory.Resolve(COUNTED, KEY, ConfirmMissing, false).Committed?;
  }

  // ---------- a batch that stops half way ----------

  const FIRST := ItemKey(1, 1)
  const SECOND := ItemKey(1, 2)
  const THIRD := ItemKey(1, 3)
  const BATCH := [SECOND, FIRST, THIRD]
  const UNSEEN := Item(Unlocated, Pending, Unclear, NotRequired, None)
  const LISTED := STOCKED.(tasks := map[1 := Task(false, None, None)],
                           items := map[FIRST := UNSEEN, SECOND := UNSEEN, THIRD := UNSEEN])
  const ONE_MISSING := LISTED.(items := map[FIRST := MISSING, SECOND := UNSEEN, THIRD := UNSEEN])
  const TWO_MISSING := LISTED.(items := map[FIRST := MISSING, SECOND := MISSING, THIRD := UNSEEN])
  const ALL_MISSING := LISTED.(items := map[FIRST := MISSING, SECOND := MISSING, THIRD := MISSING])
  const DONE := ALL_MISSING.(tasks := map[1 := Task(true, None, None)])
  const ARCHIVED := DONE.(assets := map[1 := SPARE.(archived := true), 2 := SPARE, 3 := SPARE])
  const HALF_WAY :=
    ARCHIVED.(items := map[FIRST := MISSING, SECOND := MISSING.(resolution := Resolved, action := Some(KeepAsset)),
                           THIRD := MISSING])

  lemma ListedIsReached()
    ensures Reached(LISTED)
  {
    StockIsReached();
    Then(STOCKED, OnCount(NewTask(1, AllAssets)));
    StockIsListed();
  }

  lemma StockIsListed()
    ensures CreateTask(STOCKED, 1, AllAssets) == Committed(LISTED)
  {
    assert ScopeAssets(STOCKED, AllAssets) == {1, 2, 3};
    TaskItemsAre(STOCKED, 1, {1, 2, 3});
    assert TaskItems(STOCKED, 1, {1, 2, 3}) == LISTED.items;
  }

  lemma MissingNoted(db: Db, key: ItemKey)
    requires Reached(db) && Countable(db, key) && db.items[key] == UNSEEN
    ensures Reached(db.(items := db.items[key := MISSING]))
  {
    Then(db, OnCount(Record(key, Some(NotFound), None, false)));
  }

  lemma AllMissingIsReached()
    ensures Reached(ALL_MISSING)
  {
    ListedIsReached();
    MissingNoted(LISTED, FIRST);
    assert LISTED.items[FIRST := MISSING] == ONE_MISSING.items;
    MissingNoted(ONE_MISSING, SECOND);
    assert ONE_MISSING.items[SECOND := MISSING] == TWO_MISSING.items;
    MissingNoted(TWO_MISSING, THIRD);
    assert TWO_MISSING.items[THIRD := MISSING] == ALL_MISSING.items;
  }

  lemma DoneIsReached()
    ensures Reached(DONE)
  {
    AllMissingIsReached();
    Then(ALL_MISSING, OnCount(FinishTask(1)));
    assert CompleteTask(ALL_MISSING, 1) == Committed(DONE);
  }

  lemma FirstIsArchived()
    ensures Archive(DONE, 1) == Committed(ARCHIVED)
  {
    assert !StillHeld(DONE, 1) && !BeingCounted(DONE.tasks, DONE.items, 1);
    assert DONE.assets[1 := SPARE.(archived := true)] == ARCHIVED.assets;
  }

  lemma ArchivedIsReached()
    ensures Reached(ARCHIVED)
  {
    DoneIsReached();
    FirstIsArchived();
    Then(DONE, OnAsset(ArchiveIt(1)));
  }

  lemma SecondIsKept()
    ensures RowAlone(ARCHIVED, SECOND, Some(KeepAsset), false) == Committed(HALF_WAY)
  {
    assert ARCHIVED.items[SECOND := HALF_WAY.items[SECOND]] == HALF_WAY.items;
  }

  lemma StopsHalfWay()
    ensures Batch(ARCHIVED, BATCH, Some(KeepAsset), false) == Stopped(HALF_WAY)
  {
    SecondIsKept();
    assert BATCH[..0] == [] && BATCH[..1] == [SECOND] && BATCH[..3] == BATCH;
    BatchExtends(ARCHIVED, BATCH, 0, Some(KeepAsset), false);
    BatchExtends(ARCHIVED, BATCH, 1, Some(KeepAsset), false);
    BatchExtends(ARCHIVED, BATCH, 2, Some(KeepAsset), false);
  }

  /** The request is admitted and stops; its first row is settled and its last one is not,
      although on its own it could be. */
  ghost predicate HalfSettled(before: Db, keys: seq<ItemKey>, action: Action) {
    var after := Step(before, OnCount(SubmitBatch(keys, Some(action), false)));
    && |keys| == 3 && keys[0] in after.items && keys[2] in after.items
    && BatchAdmissible(before.items, keys, Some(action), false) && Batch(before, keys, Some(action), false).Stopped?
    && after.items[keys[0]].resolution == Resolved
    && after.items[keys[2]].resolution == Unresolved && RowAlone(after, keys[2], Some(action), false).Committed?
  }

  lemma ArchivedIsAdmitted()
    ensures BatchAdmissible(ARCHIVED.items, BATCH, Some(KeepAsset), false)
    ensures RowAlone(HALF_WAY, THIRD, Some(KeepAsset), false).Committed?
  {}

  lemma StoppedStep(before: Db, keys: seq<ItemKey>, action: Action, after: Db)
    requires BatchAdmissible(before.items, keys, Some(action), false)
    requires Batch(before, keys, Some(action), false) == Stopped(after)
    ensures Step(before, OnCount(SubmitBatch(keys, Some(action), false))) == after
  {}

  lemma ArchivedStopsHalfWay()
    ensures HalfSettled(ARCHIVED, BATCH, KeepAsset)
  {
    StopsHalfWay();
    ArchivedIsAdmitted();
    StoppedStep(ARCHIVED, BATCH, KeepAsset, HALF_WAY);
  }

  /** Three missing assets of a completed count are to be kept in one request after one of them
      was archived. */
  lemma BatchCanStopHalfWay()
    ensures exists ops :: HalfSettled(Run(EMPTY, ops), BATCH, KeepAsset)
  {
    ArchivedIsReached();
    ArchivedStopsHalfWay();
  }
}
