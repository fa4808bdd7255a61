/** What one service call undoes of another, and what a U hold is good for.

    These relate the services of Placement, Repairs and AssetWrites to each other: the tables
    after a pair of calls are compared with the tables before.
 */
module RoundTrips {
  import opened RackRanges
  import opened Records
  import opened Placement
  import opened Repairs
  import opened AssetWrites
  import opened Inventory

  // ---------- placement ----------

  /** Unracking a newly placed asset leaves everything as it was but the centre copy, which
      stays that of the rack. */
  lemma UnrackUndoesPlace(db: Db, assetId: int, rackId: int, span: Span)
    requires References(db) && assetId !in db.allocations && Place(db, assetId, rackId, span).Committed?
    ensures rackId in db.racks && db.racks[rackId].room in db.rooms && assetId in db.assets
    ensures Unrack(Place(db, assetId, rackId, span).db, assetId) ==
            var centre := db.rooms[db.racks[rackId].room].centre;
            Committed(db.(assets := db.assets[assetId := db.assets[assetId].(centre := Some(centre))]))
  {
    assert db.allocations[assetId := Allocation(rackId, span)] - {assetId} == db.allocations;
  }

  /** Setting a direct centre, unracking and clearing free the asset's own cells and no others. */
  lemma LeavingFreesOwnCells(db: Db, assetId: int, centre: Option<int>, outcome: Outcome, rack: int, u: int)
    requires outcome == SetDirect(db, assetId, centre) || outcome == Unrack(db, assetId)
             || outcome == Clear(db, assetId)
    requires outcome.Committed?
    ensures Taken(outcome.db, rack, None, u) <==> Taken(db, rack, Some(assetId), u)
  {
    assert outcome.db.allocations == db.allocations - {assetId};
    WithoutRow(db, outcome.db, assetId, rack, u);
  }

  lemma WithoutRow(db: Db, db': Db, assetId: int, rack: int, u: int)
    requires db'.holds == db.holds && db'.allocations == db.allocations - {assetId}
    ensures Taken(db', rack, None, u) <==> Taken(db, rack, Some(assetId), u)
  {}

  /** An asset taken out of its rack is expected in the rack's centre from then on. */
  lemma UnrackedStaysInCentre(db: Db, assetId: int)
    requires References(db) && CentresSynced(db.rooms, db.racks, db.assets, db.allocations) && assetId in db.allocations
    ensures Unrack(db, assetId).Committed? && assetId in Unrack(db, assetId).db.assets
    ensures Expected(Unrack(db, assetId).db, assetId) ==
              AtCentre(db.rooms[db.racks[db.allocations[assetId].rack].room].centre)
  {}

  /** Placing an asset where it already is changes nothing. */
  lemma PlaceIsIdempotent(db: Db, assetId: int, rackId: int, span: Span)
    requires Place(db, assetId, rackId, span).Committed? && db.assets[assetId].status != Retired
    ensures var db' := Place(db, assetId, rackId, span).db; Place(db', assetId, rackId, span) == Committed(db')
  {
    var db' := Mount(db, assetId, rackId, span);
    forall u ensures Taken(db', rackId, Some(assetId), u) <==> Taken(db, rackId, Some(assetId), u) {
      TakenWithout(db, db', rackId, assetId, u);
    }
    assert db'.allocations[assetId := Allocation(rackId, span)] == db'.allocations;
    assert db'.assets[assetId := db'.assets[assetId]] == db'.assets;
  }

  /** An asset's own rows do not count for itself. */
  lemma TakenWithout(db: Db, db': Db, rackId: int, assetId: int, u: int)
    requires db'.holds == db.holds && forall a :: a != assetId ==> (a in db.allocations <==> a in db'.allocations)
    requires forall a :: a != assetId && a in db.allocations ==> db'.allocations[a] == db.allocations[a]
    ensures Taken(db', rackId, Some(assetId), u) <==> Taken(db, rackId, Some(assetId), u)
  {}

  /** Releasing a hold frees exactly the cells that making it took. */
  lemma ReleaseUndoesReserve(db: Db, holdId: int, rackId: int, span: Span, u: int, rack: int)
    requires Reserve(db, holdId, rackId, span).Committed?
    ensures Release(Reserve(db, holdId, rackId, span).db, rackId, holdId).Committed?
    ensures Taken(Reserve(db, holdId, rackId, span).db, rack, None, u) <==>
            Taken(db, rack, None, u) || (rack == rackId && span.startU <= u <= span.endU)
    ensures Taken(Release(Reserve(db, holdId, rackId, span).db, rackId, holdId).db, rack, None, u) <==>
              Taken(db, rack, None, u)
  {
    var held := Reserve(db, holdId, rackId, span).db;
    var freed := Release(held, rackId, holdId).db;
    assert held.holds[holdId] == UnitHold(rackId, Hold(Active, span), None);
    assert forall h :: h != holdId ==> (h in db.holds <==> h in held.holds) && (h in held.holds <==> h in freed.holds);
    assert forall h :: h in db.holds ==> held.holds[h] == db.holds[h] && freed.holds[h] == db.holds[h];
  }

  lemma ConsumedCells(db: Db, rackId: int, holdId: int, assetId: int, span: Span, u: int)
    requires Geometry(db.racks, db.allocations, db.holds) && Consume(db, rackId, holdId, assetId, span).Committed?
    requires rackId in db.racks
    ensures var db' := Consume(db, rackId, holdId, assetId, span).db;
            Taken(db', rackId, Some(assetId), u) <==>
              Taken(db, rackId, Some(assetId), u) && !(span.startU <= u <= span.endU)
  {
    var db' := Consume(db, rackId, holdId, assetId, span).db;
    assert ActiveHold(db.holds, holdId);
    assert forall h :: h in db.holds && h != holdId ==> db'.holds[h] == db.holds[h];
    assert forall h :: h in db.holds && db.holds[h].hold.status == Active ==> ActiveHold(db.holds, h);
    if span.startU <= u <= span.endU {
      forall a | a in db.allocations && db.allocations[a].rack == rackId
        ensures !(db.allocations[a].span.startU <= u <= db.allocations[a].span.endU)
      {
        assert !db.allocations[a].span.Overlaps(db.holds[holdId].hold.span);
      }
      forall h | h in db.holds && h != holdId && db.holds[h].rack == rackId && db.holds[h].hold.status == Active
        ensures !(db.holds[h].hold.span.startU <= u <= db.holds[h].hold.span.endU)
      {
        assert !db.holds[holdId].hold.span.Overlaps(db.holds[h].hold.span);
      }
    }
  }

  /** An active hold can be turned into a placement of its cells exactly when it is not a
      single cell whose two neighbours are both taken: the gap rule does not spare holds. */
  lemma HoldCanBeUsed(db: Db, assetId: int, rackId: int, holdId: int, span: Span)
    requires Inv(db) && Usable(db, rackId) && holdId in db.holds && db.holds[holdId].rack == rackId
             && db.holds[holdId].hold == Hold(Active, span)
    requires assetId in db.assets && !db.assets[assetId].archived && db.assets[assetId].status != Retired
    ensures PlaceOnHold(db, assetId, Allocation(rackId, span), holdId).Committed? <==>
              !Squeezed(db, rackId, Some(assetId), span)
  {
    assert ActiveHold(db.holds, holdId);
    var db' := Consume(db, rackId, holdId, assetId, span).db;
    forall u ensures Taken(db', rackId, Some(assetId), u) <==>
      Taken(db, rackId, Some(assetId), u) && !(span.startU <= u <= span.endU) {
      ConsumedCells(db, rackId, holdId, assetId, span, u);
    }
    NotInPlace(db, assetId, rackId, holdId, span);
  }

  /** A hold just made can be used by any current asset. */
  lemma NewHoldCanBeUsed(db: Db, assetId: int, rackId: int, holdId: int, span: Span)
    requires Inv(db) && Reserve(db, holdId, rackId, span).Committed?
    requires assetId in db.assets && !db.assets[assetId].archived && db.assets[assetId].status != Retired
    ensures PlaceOnHold(Reserve(db, holdId, rackId, span).db, assetId, Allocation(rackId, span), holdId).Committed?
  {
    var held := Reserve(db, holdId, rackId, span).db;
    ReserveKeepsInv(db, holdId, rackId, span);
    NewHoldStands(db, assetId, rackId, holdId, span);
    HoldCanBeUsed(held, assetId, rackId, holdId, span);
  }

  lemma NewHoldStands(db: Db, assetId: int, rackId: int, holdId: int, span: Span)
    requires Reserve(db, holdId, rackId, span).Committed?
    ensures var held := Reserve(db, holdId, rackId, span).db;
            && Usable(held, rackId) && held.assets == db.assets && !Squeezed(held, rackId, Some(assetId), span)
            && holdId in held.holds && held.holds[holdId] == UnitHold(rackId, Hold(Active, span), None)
  {
    ReleaseUndoesReserve(db, holdId, rackId, span, span.startU - 1, rackId);
    ReleaseUndoesReserve(db, holdId, rackId, span, span.endU + 1, rackId);
  }

  lemma NotInPlace(db: Db, assetId: int, rackId: int, holdId: int, span: Span)
    requires Geometry(db.racks, db.allocations, db.holds) && rackId in db.racks
    requires ActiveHold(db.holds, holdId) && db.holds[holdId].rack == rackId && db.holds[holdId].hold.span == span
    ensures assetId in db.allocations ==> db.allocations[assetId] != Allocation(rackId, span)
  {}

  predicate RoomOpen(db: Db, roomId: int) {
    && roomId in db.rooms && db.rooms[roomId].active
    && db.rooms[roomId].centre in db.centres && db.centres[db.rooms[roomId].centre]
  }

  /** A rack moved to another room can be moved back exactly when its own room and centre are
      still open, and then every row is what it was; the rack's status plays no part. */
  lemma RackMovedBack(db: Db, rackId: int, room: int)
    requires References(db) && CentresSynced(db.rooms, db.racks, db.assets, db.allocations)
             && NamesUnique(db.rooms, db.racks)
    requires rackId in db.racks && room != db.racks[rackId].room
    requires var rack := db.racks[rackId];
             UpdateRack(db, rackId, Some(room), rack.code, rack.totalU, rack.status).Committed?
    ensures var rack := db.racks[rackId];
            var moved := UpdateRack(db, rackId, Some(room), rack.code, rack.totalU, rack.status).db;
            UpdateRack(moved, rackId, Some(rack.room), rack.code, rack.totalU, rack.status) ==
            if RoomOpen(db, rack.room) then Committed(db) else RolledBack
  {
    var rack := db.racks[rackId];
    var moved := UpdateRack(db, rackId, Some(room), rack.code, rack.totalU, rack.status).db;
    assert moved.racks[rackId := rack] == db.racks;
    forall r | r in db.racks && r != rackId && db.racks[r].room == rack.room ensures db.racks[r].code != rack.code {
      assert !CodesClash(db.racks, r, rackId);
    }
    CentresBack(db, rackId, db.rooms[room].centre);
    assert MountedIn(moved, {rackId}) == MountedIn(db, {rackId});
  }

  lemma CentresBack(db: Db, rackId: int, centre: int)
    requires References(db) && CentresSynced(db.rooms, db.racks, db.assets, db.allocations) && rackId in db.racks
    ensures var mounted, home := MountedIn(db, {rackId}), db.rooms[db.racks[rackId].room].centre;
            Relocated(Relocated(db.assets, mounted, centre), mounted, home) == db.assets
  {
    forall a | a in MountedIn(db, {rackId})
      ensures a in db.assets && db.assets[a].centre == Some(db.rooms[db.racks[rackId].room].centre)
    {}
  }

  // ---------- responsibility and archival ----------

  /** Returning an assigned asset restores its row exactly when it came from stock. */
  lemma ReturnUndoesAssign(db: Db, assetId: int, person: int)
    requires ChangeAssignment(db, assetId, Assign(person), true).Committed?
    ensures ChangeAssignment(ChangeAssignment(db, assetId, Assign(person), true).db, assetId, Return, true).Committed?
    ensures ChangeAssignment(ChangeAssignment(db, assetId, Assign(person), true).db, assetId, Return, true) ==
              Committed(db)
            <==> db.assets[assetId].status == InStock
  {
    var taken := ChangeAssignment(db, assetId, Assign(person), true).db;
    assert taken.assets[assetId] == db.assets[assetId].(person := Some(person), status := InUse);
    var back := db.assets[assetId].(person := None, status := InStock);
    assert taken.assets[assetId := back] == db.assets[assetId := back];
    assert db.assets[assetId].status == InStock ==>
             back == db.assets[assetId] && db.assets[assetId := back] == db.assets;
    assert db.assets[assetId := back][assetId] == back;
  }

  // ---------- faults and repairs ----------

  /** Deleting a fault that was just created restores the ledger, whether or not others are open. */
  lemma DeleteUndoesCreateFault(db: Db, faultId: int, assetId: int, occurredAt: int, reportedAt: Option<int>)
    requires RoundsLinked(db.faults, db.rounds) && FaultStatusSynced(db.assets, db.faults)
    requires CreateFault(db, faultId, assetId, occurredAt, reportedAt).Committed?
    ensures DeleteFault(CreateFault(db, faultId, assetId, occurredAt, reportedAt).db, faultId) == Committed(db)
  {
    var fault := Fault(assetId, occurredAt, reportedAt, false, None, false);
    var broken := CreateFault(db, faultId, assetId, occurredAt, reportedAt).db;
    var faults := db.faults[faultId := fault];
    assert faults - {faultId} == db.faults && HasOpenFault(faults, assetId) by {
      assert faultId in faults && faults[faultId] == fault;
    }
    assert broken == db.(faults := faults, assets := broken.assets)
           && broken.assets == db.assets[assetId := broken.assets[assetId]];
    forall r | r in db.rounds ensures db.rounds[r].fault != faultId { assert RoundWellFormed(db.faults, db.rounds, r); }
    SyncedBack(db.assets[assetId], HasOpenFault(db.faults, assetId));
    assert broken.assets[assetId := db.assets[assetId]] == db.assets;
    assert broken.(faults := db.faults).(assets := db.assets) == db;
  }

  /** Opening a fault and taking it away again brings the asset's row back. */
  lemma SyncedBack(asset: Asset, otherOpen: bool)
    requires otherOpen <==> asset.status == Repair
    requires asset.status == Repair <==> asset.beforeRepair.Some?
    requires SyncedAsset(asset, true, otherOpen).Some?
    ensures SyncedAsset(SyncedAsset(asset, true, otherOpen).value, otherOpen, otherOpen) == Some(asset)
  {}
}
