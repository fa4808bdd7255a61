/** What a committed placement, hold, rack or room edit leaves behind, and what a closed rack
    refuses, said of the rows and cells alone.

    Covers backend/assets/physical_location.py:236-514, rack_reservations.py:37-89 and the rules of
    serializers.py:1790-1804 and 3085-3117.
 */
module PlacementResults {
  import opened RackRanges
  import opened Records
  import opened Placement

  // ---------- racks, rooms and centres ----------

  /** Exactly the assets mounted in the racks have the new centre; all else of every row stays. */
  ghost predicate CentresFollow(db: Db, after: map<int, Asset>, rackIds: set<int>, centre: int) {
    && after.Keys == db.assets.Keys
    && forall a :: a in db.assets ==>
         after[a] == db.assets[a].(centre :=
             if a in db.allocations && db.allocations[a].rack in rackIds then Some(centre) else db.assets[a].centre)
  }

  /** A saved rack has the submitted values, and so has no other; what stands in it is in the
      centre of its room. */
  lemma RackSaved(db: Db, rackId: int, room: Option<int>, code: int, totalU: int, status: RackStatus)
    requires Inv(db) && UpdateRack(db, rackId, room, code, totalU, status).Committed?
    ensures var after := UpdateRack(db, rackId, room, code, totalU, status).db;
            && after == db.(racks := after.racks, assets := after.assets)
            && rackId in db.racks && after.racks.Keys == db.racks.Keys
            && (forall r :: r in db.racks && r != rackId ==> after.racks[r] == db.racks[r])
            && after.racks[rackId].room == (if room.Some? then room.value else db.racks[rackId].room)
            && after.racks[rackId].code == code && after.racks[rackId].totalU == totalU
            && after.racks[rackId].status == status
            && after.racks[rackId].room in db.rooms
            && CentresFollow(db, after.assets, {rackId}, db.rooms[after.racks[rackId].room].centre)
  {
    var after := UpdateRack(db, rackId, room, code, totalU, status).db;
    forall a | a in db.assets
      ensures after.assets[a] == db.assets[a].(centre := if a in db.allocations && db.allocations[a].rack in {rackId}
          then Some(db.rooms[after.racks[rackId].room].centre) else db.assets[a].centre)
    {}
  }

  ghost predicate FreeAbove(db: Db, rackId: int, totalU: int) {
    forall u :: u > totalU ==> !Taken(db, rackId, None, u)
  }

  lemma RowsEndAt(db: Db, rackId: int, totalU: int)
    requires Inv(db) && rackId in db.racks
    ensures FreeAbove(db, rackId, totalU) <==>
            (forall a :: a in db.allocations && db.allocations[a].rack == rackId ==>
               db.allocations[a].span.endU <= totalU)
            && (forall h :: h in db.holds && db.holds[h].rack == rackId && db.holds[h].hold.status == Active ==>
                  db.holds[h].hold.span.endU <= totalU)
  {
    if FreeAbove(db, rackId, totalU) {
      forall a | a in db.allocations && db.allocations[a].rack == rackId ensures db.allocations[a].span.endU <= totalU {
        assert InRange(db.allocations[a].span, db.racks[rackId].totalU);
        assert Taken(db, rackId, None, db.allocations[a].span.endU);
      }
      forall h | h in db.holds && db.holds[h].rack == rackId && db.holds[h].hold.status == Active
        ensures db.holds[h].hold.span.endU <= totalU
      {
        assert ActiveHold(db.holds, h) && InRange(db.holds[h].hold.span, db.racks[rackId].totalU);
        assert Taken(db, rackId, None, db.holds[h].hold.span.endU);
      }
    }
  }

  /** The room and its centre are in use. */
  predicate Open(db: Db, room: int) {
    room in db.rooms && db.rooms[room].active && db.rooms[room].centre in db.centres
    && db.centres[db.rooms[room].centre]
  }

  /** A rack edit is accepted exactly when all taken cells fit the new height, no other rack of the
      room has the code, and a new room is open. The status plays no part. */
  lemma RackSaveIff(db: Db, rackId: int, room: Option<int>, code: int, totalU: int, status: RackStatus)
    requires Inv(db) && rackId in db.racks
    ensures var target := if room.Some? then room.value else db.racks[rackId].room;
            UpdateRack(db, rackId, room, code, totalU, status).Committed? <==>
            && 1 <= totalU && FreeAbove(db, rackId, totalU) && target in db.rooms
            && (forall r :: r in db.racks && r != rackId && db.racks[r].room == target ==> db.racks[r].code != code)
            && (target == db.racks[rackId].room || Open(db, target))
  {
    RowsEndAt(db, rackId, totalU);
  }

  /** A saved room has the submitted values, and what stands in its racks follows it. */
  lemma RoomSaved(db: Db, roomId: int, centre: Option<int>, name: int, active: bool, stocked: bool)
    requires Inv(db) && UpdateRoom(db, roomId, centre, name, active, stocked).Committed?
    ensures var after := UpdateRoom(db, roomId, centre, name, active, stocked).db;
            && after == db.(rooms := after.rooms, assets := after.assets)
            && roomId in db.rooms && after.rooms.Keys == db.rooms.Keys
            && (forall r :: r in db.rooms && r != roomId ==> after.rooms[r] == db.rooms[r])
            && after.rooms[roomId].centre == (if centre.Some? then centre.value else db.rooms[roomId].centre)
            && after.rooms[roomId].name == name && after.rooms[roomId].active == active
            && CentresFollow(db, after.assets, (set r | r in db.racks && db.racks[r].room == roomId),
                             after.rooms[roomId].centre)
  {
    var after := UpdateRoom(db, roomId, centre, name, active, stocked).db;
    var rackIds := set r | r in db.racks && db.racks[r].room == roomId;
    assert rackIds == RacksOf(db, roomId);
    forall a | a in db.assets
      ensures after.assets[a] == db.assets[a].(centre := if a in db.allocations && db.allocations[a].rack in rackIds
          then Some(after.rooms[roomId].centre) else db.assets[a].centre)
    {}
  }

  /** A room edit is accepted exactly when no other room of the centre has the name and, for a
      move, the centre is active and neither stock nor a running count is in the way. */
  lemma RoomSaveIff(db: Db, roomId: int, centre: Option<int>, name: int, active: bool, stocked: bool)
    requires roomId in db.rooms
    ensures var target := if centre.Some? then centre.value else db.rooms[roomId].centre;
            UpdateRoom(db, roomId, centre, name, active, stocked).Committed? <==>
            && target in db.centres
            && (forall r :: r in db.rooms && r != roomId && db.rooms[r].centre == target ==> db.rooms[r].name != name)
            && (target == db.rooms[roomId].centre
                || (db.centres[target] && !stocked
                    && forall t :: t in db.tasks && db.tasks[t].room == Some(roomId) ==> db.tasks[t].completed))
  {
    assert RoomBeingCounted(db, roomId) <==>
      !(forall t :: t in db.tasks && db.tasks[t].room == Some(roomId) ==> db.tasks[t].completed);
  }

  /** New rooms and racks stand in an open place with the submitted values. */
  lemma RoomAdded(db: Db, roomId: int, centre: int, name: int)
    ensures CreateRoom(db, roomId, centre, name) ==
            if roomId !in db.rooms && centre in db.centres && db.centres[centre]
               && (forall r :: r in db.rooms && db.rooms[r].centre == centre ==> db.rooms[r].name != name)
            then Committed(db.(rooms := db.rooms[roomId := Room(centre, name, true)])) else RolledBack
  {}

  lemma RackAdded(db: Db, rackId: int, room: int, code: int, totalU: int, status: RackStatus)
    ensures CreateRack(db, rackId, room, code, totalU, status) ==
            if rackId !in db.racks && Open(db, room) && 1 <= totalU
               && (forall r :: r in db.racks && db.racks[r].room == room ==> db.racks[r].code != code)
            then Committed(db.(racks := db.racks[rackId := Rack(room, code, totalU, status)])) else RolledBack
  {}

  /** The rack's status, its room or its centre keeps devices out. */
  predicate Closed(db: Db, rackId: int) {
    rackId in db.racks && (db.racks[rackId].status != RackInUse || !Open(db, db.racks[rackId].room))
  }

  /** The activity of a centre decides about exactly the racks of its rooms; a new centre is active. */
  lemma CentreGovernsRacks(db: Db, centreId: int, active: bool, rackId: int)
    requires References(db) && rackId in db.racks
    ensures var outcome, room := SetCentreActive(db, centreId, active), db.rooms[db.racks[rackId].room];
            && (outcome.Committed? <==> centreId in db.centres)
            && (outcome.Committed? ==>
                  outcome.db == db.(centres := outcome.db.centres) && outcome.db.centres.Keys == db.centres.Keys
                  && (Closed(outcome.db, rackId) <==>
                       db.racks[rackId].status != RackInUse || !room.active
                       || (if room.centre == centreId then !active else !db.centres[room.centre])))
    ensures CreateCentre(db, centreId) ==
            if centreId in db.centres then RolledBack else Committed(db.(centres := db.centres + map[centreId := true]))
  {}

  /** Nothing is placed or reserved in a closed rack, not even on a hold it still has. */
  lemma ClosedRackRefuses(db: Db, rackId: int)
    requires Inv(db) && Closed(db, rackId)
    ensures forall a, span :: Place(db, a, rackId, span) == RolledBack
    ensures forall h, span :: Reserve(db, h, rackId, span) == RolledBack
    ensures forall a, span, h :: PlaceOnHold(db, a, Allocation(rackId, span), h) == RolledBack
  {
    forall a, span, h ensures PlaceOnHold(db, a, Allocation(rackId, span), h) == RolledBack {
      ClosedToHolds(db, rackId, a, span, h);
    }
  }

  lemma ClosedToHolds(db: Db, rackId: int, a: int, span: Span, h: int)
    requires Inv(db) && Closed(db, rackId)
    ensures PlaceOnHold(db, a, Allocation(rackId, span), h) == RolledBack
  {
    var used := Consume(db, rackId, h, a, span);
    if used.Committed? { assert !Usable(used.db, rackId); }
  }

  // ---------- one asset ----------

  /** A placed asset stands there, in the centre of the rack's room, and nothing else moved. */
  lemma PlacedThere(db: Db, assetId: int, rackId: int, span: Span)
    requires Inv(db) && Place(db, assetId, rackId, span).Committed?
    ensures Place(db, assetId, rackId, span).db ==
            db.(allocations := db.allocations[assetId := Allocation(rackId, span)],
                assets := db.assets[assetId := db.assets[assetId].(
                  centre := Some(db.rooms[db.racks[rackId].room].centre))])
  {}

  /** A direct position, or none, takes the asset out of its rack. */
  lemma DirectPlacement(db: Db, assetId: int, centre: Option<int>)
    ensures SetDirect(db, assetId, centre) ==
            if assetId in db.assets && !db.assets[assetId].archived
               && (centre == None || (centre.value in db.centres && db.centres[centre.value]))
            then Committed(db.(allocations := map a | a in db.allocations && a != assetId :: db.allocations[a],
                               assets := db.assets[assetId := db.assets[assetId].(centre := centre)]))
            else RolledBack
    ensures Clear(db, assetId) == SetDirect(db, assetId, None)
  {
    assert (map a | a in db.allocations && a != assetId :: db.allocations[a]) == db.allocations - {assetId};
  }

  /** A hold is written as asked, and ends as released or as used by the asset. */
  lemma HoldRows(db: Db, holdId: int, rackId: int, assetId: int, span: Span)
    ensures var outcome := Reserve(db, holdId, rackId, span);
            outcome.Committed? ==>
              outcome.db == db.(holds := db.holds[holdId := UnitHold(rackId, Hold(Active, span), None)])
    ensures var outcome := Release(db, rackId, holdId);
            (outcome.Committed? <==> ActiveHold(db.holds, holdId) && db.holds[holdId].rack == rackId)
            && (outcome.Committed? ==>
                  outcome.db == db.(holds := db.holds[holdId := UnitHold(rackId,
                      Hold(Released, db.holds[holdId].hold.span), db.holds[holdId].consumedBy)]))
    ensures var outcome := Consume(db, rackId, holdId, assetId, span);
            (outcome.Committed? <==>
              ActiveHold(db.holds, holdId) && db.holds[holdId].rack == rackId && db.holds[holdId].hold.span == span)
            && (outcome.Committed? ==>
                  outcome.db == db.(holds := db.holds[holdId := UnitHold(rackId, Hold(Consumed, span), Some(assetId))]))
  {}

  /** The asset is where the target says, the named hold is used up by it, and its centre copy is
      all that may have changed besides. */
  ghost predicate MovedTo(db: Db, assetId: int, target: Option<Allocation>, hold: Option<int>, after: Db)
    requires assetId in db.assets && (hold.Some? ==> target.Some?)
  {
    && after.allocations == (if target.Some? then db.allocations[assetId := target.value]
        else db.allocations - {assetId})
    && after.holds == (if hold == None then db.holds
        else db.holds[hold.value := UnitHold(target.value.rack, Hold(Consumed, target.value.span), Some(assetId))])
    && assetId in after.assets
    && after.assets == db.assets[assetId := db.assets[assetId].(centre := after.assets[assetId].centre)]
    && after == db.(allocations := after.allocations, holds := after.holds, assets := after.assets)
  }

  lemma SameRow(db: Db, assetId: int)
    requires assetId in db.assets
    ensures db.assets == db.assets[assetId := db.assets[assetId].(centre := db.assets[assetId].centre)]
    ensures assetId in db.allocations ==> db.allocations == db.allocations[assetId := db.allocations[assetId]]
    ensures assetId !in db.allocations ==> db.allocations == db.allocations - {assetId}
  {}

  lemma MovedOnHold(db: Db, assetId: int, target: Allocation, hold: int)
    requires Inv(db) && PlaceOnHold(db, assetId, target, hold).Committed? && assetId in db.assets
    ensures MovedTo(db, assetId, Some(target), Some(hold), PlaceOnHold(db, assetId, target, hold).db)
  {
    var used := Consume(db, target.rack, hold, assetId, target.span).db;
    ConsumeKeepsInv(db, target.rack, hold, assetId, target.span);
    PlacedThere(used, assetId, target.rack, target.span);
  }

  /** A committed change of position puts the asset exactly where it was asked to be, uses up
      exactly the hold that was named, and moves nobody else. */
  lemma MovedAsAsked(db: Db, assetId: int, target: Option<Allocation>, hold: Option<int>)
    requires Inv(db) && ChangePlacement(db, assetId, target, hold).Committed?
    ensures assetId in db.assets && (hold.Some? ==> target.Some?)
            && MovedTo(db, assetId, target, hold, ChangePlacement(db, assetId, target, hold).db)
  {
    SameRow(db, assetId);
    if target.Some? {
      if hold.Some? {
        MovedOnHold(db, assetId, target.value, hold.value);
      } else if !(assetId in db.allocations && db.allocations[assetId] == target.value) {
        PlacedThere(db, assetId, target.value.rack, target.value.span);
      }
    }
  }

  /** It is refused only for an archived asset, for a hold without a position, and where the
      placement or the hold itself is refused. */
  lemma MoveIff(db: Db, assetId: int, target: Option<Allocation>, hold: Option<int>)
    requires Inv(db)
    ensures ChangePlacement(db, assetId, target, hold).Committed? <==>
            && assetId in db.assets && !db.assets[assetId].archived
            && (target == None ==> hold == None)
            && (target.Some? && hold == None ==>
                 (assetId in db.allocations && db.allocations[assetId] == target.value)
                 || Place(db, assetId, target.value.rack, target.value.span).Committed?)
            && (target.Some? && hold.Some? ==> PlaceOnHold(db, assetId, target.value, hold.value).Committed?)
  {}
}
