/** The capacity plan carried out in the ledger.

    Ties the planner (backend/assets/rack_planning.py:20-44) to the placement service
    (physical_location.py:236-332): a suggested sequence is exactly a sequence of calls that
    `place_asset` accepts one after the other, and no accepted sequence is longer than the
    reported capacity.
 */
module LedgerPlanning {
  import opened RackRanges
  import opened RackPlanning
  import opened Records
  import opened Placement

  /** An asset that may be mounted in the rack and is not in it yet. */
  ghost predicate Newcomer(db: Db, rackId: int, assetId: int) {
    && assetId in db.assets && !db.assets[assetId].archived && db.assets[assetId].status != Retired
    && (assetId in db.allocations ==> db.allocations[assetId].rack != rackId)
  }

  ghost predicate RackState(db: Db, rackId: int, devices: seq<Device>, ids: seq<int>, holds: seq<Hold>) {
    RacksSound(db) && Usable(db, rackId) && DevicesOf(db, rackId, devices) && HoldsOf(db, rackId, ids, holds)
  }

  /** The placement service accepts a newcomer exactly when the U checks on the rack's rows pass. */
  lemma PlaceIffUnitChecks(db: Db, rackId: int, devices: seq<Device>, ids: seq<int>, holds: seq<Hold>, assetId: int,
                           span: Span)
    requires RackState(db, rackId, devices, ids, holds) && Newcomer(db, rackId, assetId)
    ensures Place(db, assetId, rackId, span).Committed? <==>
              PassesUnitChecks(devices, holds, db.racks[rackId].totalU, assetId, span)
  {
    var totalU := db.racks[rackId].totalU;
    RackRows(db, rackId, devices, ids, holds, Some(assetId));
    UnitChecksMeaning(devices, holds, totalU, assetId, span);
    CellsOfRows(db, rackId, Rows(devices, Some(assetId), holds), totalU, assetId, span);
  }

  /** A hold is accepted exactly with a new key, in a usable rack, inside one available range. */
  lemma ReserveIffAvailable(db: Db, rackId: int, devices: seq<Device>, ids: seq<int>, holds: seq<Hold>, holdId: int,
                            span: Span)
    requires RackState(db, rackId, devices, ids, holds) && span.startU <= span.endU
    ensures Reserve(db, holdId, rackId, span).Committed? <==>
              holdId !in db.holds
              && InOneRange(Complement(1, Marks(Rows(devices, None, holds)), db.racks[rackId].totalU), span)
  {
    var rows, totalU := Rows(devices, None, holds), db.racks[rackId].totalU;
    RackRows(db, rackId, devices, ids, holds, None);
    AvailableMeaning(rows, totalU, span);
    CellsAndSpans(rows, totalU, span);
  }

  lemma CellsOfRows(db: Db, rackId: int, rows: seq<Span>, totalU: int, assetId: int, span: Span)
    requires WellPlaced(rows, totalU) && forall u :: Covers(rows, u) <==> Taken(db, rackId, Some(assetId), u)
    ensures span.startU <= span.endU ==> (Free(rows, span) <==> CellsFree(db, rackId, Some(assetId), span))
  {
    if span.startU <= span.endU { CellsAndSpans(rows, totalU, span); }
  }

  lemma RowsAfterPlace(db: Db, rackId: int, devices: seq<Device>, ids: seq<int>, holds: seq<Hold>, write: Device)
    requires DevicesOf(db, rackId, devices) && HoldsOf(db, rackId, ids, holds) && Newcomer(db, rackId, write.assetId)
    requires rackId in db.racks && db.racks[rackId].room in db.rooms
    ensures DevicesOf(Mount(db, write.assetId, rackId, write.span), rackId, devices + [write])
    ensures HoldsOf(Mount(db, write.assetId, rackId, write.span), rackId, ids, holds)
  {
    var db', longer := Mount(db, write.assetId, rackId, write.span), devices + [write];
    forall a | a in db'.allocations && db'.allocations[a].rack == rackId
      ensures Device(a, db'.allocations[a].span) in longer
    {
      if a == write.assetId {
        assert longer[|devices|] == write;
      } else {
        assert Device(a, db.allocations[a].span) in devices;
      }
    }
  }

  /** All placements in order, or none. */
  ghost function PlaceAll(db: Db, rackId: int, writes: seq<Device>): Outcome
    decreases |writes|
  {
    if writes == [] then Committed(db)
    else match Place(db, writes[0].assetId, rackId, writes[0].span)
         case RolledBack => RolledBack
         case Committed(db') => PlaceAll(db', rackId, writes[1..])
  }

  ghost predicate Newcomers(db: Db, rackId: int, height: int, writes: seq<Device>) {
    && (forall k ::
         0 <= k < |writes| ==>
           Newcomer(db, rackId, writes[k].assetId) && writes[k].span.endU - writes[k].span.startU + 1 == height)
    && (forall j, k :: 0 <= j < k < |writes| ==> writes[j].assetId != writes[k].assetId)
  }

  lemma PlaceKeepsRacks(db: Db, assetId: int, rackId: int, span: Span)
    requires RacksSound(db)
    ensures RacksSound(After(db, Place(db, assetId, rackId, span)))
  {
    var outcome := Place(db, assetId, rackId, span);
    if outcome.Committed? && db.assets[assetId].status != Retired {
      FreeOfRows(db, rackId, Some(assetId), span);
      MountReferences(db, assetId, rackId, span);
      MountGeometry(db, assetId, rackId, span);
    }
  }

  lemma OnePlaced(db: Db, rackId: int, devices: seq<Device>, ids: seq<int>, holds: seq<Hold>, height: int,
                  writes: seq<Device>)
    requires RackState(db, rackId, devices, ids, holds) && writes != [] && Newcomers(db, rackId, height, writes)
    requires Place(db, writes[0].assetId, rackId, writes[0].span).Committed?
    ensures var db' := Place(db, writes[0].assetId, rackId, writes[0].span).db;
            && RackState(db', rackId, devices + [writes[0]], ids, holds) && Newcomers(db', rackId, height, writes[1..])
            && rackId in db'.racks && rackId in db.racks && db'.racks[rackId] == db.racks[rackId]
  {
    PlaceKeepsRacks(db, writes[0].assetId, rackId, writes[0].span);
    RowsAfterPlace(db, rackId, devices, ids, holds, writes[0]);
    OthersStayNew(db, rackId, height, writes);
  }

  lemma OthersStayNew(db: Db, rackId: int, height: int, writes: seq<Device>)
    requires writes != [] && Newcomers(db, rackId, height, writes) && rackId in db.racks
             && db.racks[rackId].room in db.rooms
    ensures Newcomers(Mount(db, writes[0].assetId, rackId, writes[0].span), rackId, height, writes[1..])
  {}

  lemma NotInRack(db: Db, rackId: int, devices: seq<Device>, assetId: int)
    requires DevicesOf(db, rackId, devices) && Newcomer(db, rackId, assetId)
    ensures forall d :: d in devices ==> d.assetId != assetId
  {}

  /** Sequences accepted by the service are the legal runs of the planner. */
  lemma {:induction false} PlaceAllIffLegalRun(db: Db, rackId: int, devices: seq<Device>, ids: seq<int>,
                                               holds: seq<Hold>, height: int, writes: seq<Device>)
    requires RackState(db, rackId, devices, ids, holds) && Newcomers(db, rackId, height, writes)
    ensures PlaceAll(db, rackId, writes).Committed? <==>
              LegalRun(devices, holds, db.racks[rackId].totalU, height, writes)
    decreases |writes|
  {
    if writes != [] {
      var totalU, first := db.racks[rackId].totalU, writes[0];
      PlaceIffUnitChecks(db, rackId, devices, ids, holds, first.assetId, first.span);
      NotInRack(db, rackId, devices, first.assetId);
      FirstAndRest(devices, holds, totalU, height, writes);
      if Place(db, first.assetId, rackId, first.span).Committed? {
        OnePlaced(db, rackId, devices, ids, holds, height, writes);
        PlaceAllIffLegalRun(Place(db, first.assetId, rackId, first.span).db, rackId, devices + [first], ids, holds,
                            height, writes[1..]);
      }
    }
  }

  lemma FirstAndRest(devices: seq<Device>, holds: seq<Hold>, totalU: int, height: int, writes: seq<Device>)
    requires writes != []
    ensures LegalRun(devices, holds, totalU, height, writes) <==>
            LegalWrite(devices, holds, totalU, height, writes[0])
            && LegalRun(devices + [writes[0]], holds, totalU, height, writes[1..])
  {
    assert devices + writes[..0] == devices;
    forall k | 1 <= k < |writes| ensures devices + writes[..k] == devices + [writes[0]] + writes[1..][..k - 1] {}
    if LegalWrite(devices, holds, totalU, height, writes[0])
       && LegalRun(devices + [writes[0]], holds, totalU, height, writes[1..]) {
      forall k | 0 <= k < |writes| ensures LegalWrite(devices + writes[..k], holds, totalU, height, writes[k]) {
        if k > 0 {
          assert LegalWrite(devices + [writes[0]] + writes[1..][..k - 1], holds, totalU, height, writes[1..][k - 1]);
        }
      }
    }
    if LegalRun(devices, holds, totalU, height, writes) {
      forall k | 0 <= k < |writes| - 1
        ensures LegalWrite(devices + [writes[0]] + writes[1..][..k], holds, totalU, height, writes[1..][k])
      {
        assert LegalWrite(devices + writes[..k + 1], holds, totalU, height, writes[k + 1]);
      }
    }
  }

  /** The rows that the planner is given in the ledger are consistent, so its contract applies. */
  lemma RackIsConsistent(db: Db, rackId: int, devices: seq<Device>, ids: seq<int>, holds: seq<Hold>)
    requires RackState(db, rackId, devices, ids, holds)
    ensures Consistent(devices, holds, db.racks[rackId].totalU)
  {
    RackRows(db, rackId, devices, ids, holds, None);
  }

  /** Different assets that may be mounted in the rack. */
  ghost predicate NewcomerIds(db: Db, rackId: int, assets: seq<int>) {
    && (forall k :: 0 <= k < |assets| ==> Newcomer(db, rackId, assets[k]))
    && (forall j, k :: 0 <= j < k < |assets| ==> assets[j] != assets[k])
  }

  /** What a plan promises in the ledger: every choice of assets can take the suggested places
      one after the other, and no sequence of placements that commits is longer. */
  ghost predicate IsOptimum(db: Db, rackId: int, height: int, quantity: int, capacity: int, placements: seq<Span>) {
    && |placements| == Max(0, Min(capacity, quantity))
    && (forall assets ::
         |assets| == |placements| && NewcomerIds(db, rackId, assets) ==>
           PlaceAll(db, rackId, Assign(assets, placements)).Committed?)
    && (forall writes ::
         Newcomers(db, rackId, height, writes) && PlaceAll(db, rackId, writes).Committed? ==> |writes| <= capacity)
  }

  lemma SuggestedCommit(db: Db, rackId: int, devices: seq<Device>, ids: seq<int>, holds: seq<Hold>, height: int,
                        quantity: int,
                        capacity: int, placements: seq<Span>, assets: seq<int>)
    requires RackState(db, rackId, devices, ids, holds) && height >= 1
    requires OptimalPlan(devices, holds, db.racks[rackId].totalU, height, quantity, capacity, placements)
    requires |assets| == |placements| && NewcomerIds(db, rackId, assets)
    ensures PlaceAll(db, rackId, Assign(assets, placements)).Committed?
  {
    var totalU, writes := db.racks[rackId].totalU, Assign(assets, placements);
    forall k | 0 <= k < |assets|
      ensures forall d :: d in devices ==> d.assetId != assets[k]
    {
      NotInRack(db, rackId, devices, assets[k]);
    }
    assert FreshIds(devices, assets);
    assert LegalRun(devices, holds, totalU, height, writes);
    forall k | 0 <= k < |writes| ensures writes[k].span.endU - writes[k].span.startU + 1 == height {
      assert LegalWrite(devices + writes[..k], holds, totalU, height, writes[k]);
    }
    PlaceAllIffLegalRun(db, rackId, devices, ids, holds, height, writes);
  }

  /** The plan of one rack (views.py:1358-1361): only a rack in use with an active room and centre
      is planned, from the rows that the ledger has for it. */
  method PlanRack(store: Store, rackId: int, height: int, quantity: int)
    returns (ready: bool, capacity: int, placements: seq<Span>)
    requires RacksSound(store.View()) && rackId in store.racks && height >= 1
    ensures ready <==> Usable(store.View(), rackId)
    ensures ready ==> IsOptimum(store.View(), rackId, height, quantity, capacity, placements)
  {
    ghost var db := store.View();
    var rack := store.racks[rackId];
    var room := store.rooms[rack.room];
    if rack.status != RackInUse || !room.active || !store.centres[room.centre] { return false, 0, []; }
    var holds, ids := ActiveRackReservations(store, rackId);
    var devices := RackDevices(store, rackId);
    RackIsConsistent(db, rackId, devices, ids, holds);
    capacity, placements := PlanRackCapacity(devices, rack.totalU, height, quantity, holds);
    forall assets | |assets| == |placements| && NewcomerIds(db, rackId, assets)
      ensures PlaceAll(db, rackId, Assign(assets, placements)).Committed?
    {
      SuggestedCommit(db, rackId, devices, ids, holds, height, quantity, capacity, placements, assets);
    }
    forall writes | Newcomers(db, rackId, height, writes) && PlaceAll(db, rackId, writes).Committed?
      ensures |writes| <= capacity
    {
      PlaceAllIffLegalRun(db, rackId, devices, ids, holds, height, writes);
    }
    return true, capacity, placements;
  }
}
