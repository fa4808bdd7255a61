/** Rack placement, U holds and reparenting of racks and rooms.

    Models backend/assets/physical_location.py:236-514, rack_reservations.py:37-89 and
    `change_asset_placement` (asset_writes.py:619-653). For each service there is a
    function on the tables that says when it commits and what it then changes, and a
    method on the store that works in the source's steps.
 */
module Placement {
  import opened RackRanges
  import opened Records

  // ---------- what the U checks ask of the tables ----------

  /** Cell `u` of the rack is covered by a device other than `excluded` or by an active hold. */
  ghost predicate Taken(db: Db, rackId: int, excluded: Option<int>, u: int) {
    || (exists a :: a in db.allocations && excluded != Some(a) && db.allocations[a].rack == rackId
                    && db.allocations[a].span.startU <= u <= db.allocations[a].span.endU)
    || (exists h :: h in db.holds && db.holds[h].rack == rackId && db.holds[h].hold.status == Active
                    && db.holds[h].hold.span.startU <= u <= db.holds[h].hold.span.endU)
  }

  ghost predicate CellsFree(db: Db, rackId: int, excluded: Option<int>, span: Span) {
    forall u :: span.startU <= u <= span.endU ==> !Taken(db, rackId, excluded, u)
  }

  /** A lone free cell between two taken ones. */
  ghost predicate Squeezed(db: Db, rackId: int, excluded: Option<int>, span: Span) {
    span.startU == span.endU && Taken(db, rackId, excluded, span.startU - 1)
    && Taken(db, rackId, excluded, span.endU + 1)
  }

  predicate Usable(db: Db, rackId: int) {
    && rackId in db.racks && db.racks[rackId].room in db.rooms
    && db.rooms[db.racks[rackId].room].centre in db.centres
    && db.racks[rackId].status == RackInUse
    && db.rooms[db.racks[rackId].room].active
    && db.centres[db.rooms[db.racks[rackId].room].centre]
  }

  predicate InCentreOf(db: Db, assetId: int, rackId: int)
    requires assetId in db.assets && rackId in db.racks && db.racks[rackId].room in db.rooms
  {
    db.assets[assetId].centre == Some(db.rooms[db.racks[rackId].room].centre)
  }

  function Mount(db: Db, assetId: int, rackId: int, span: Span): Db
    requires assetId in db.assets && rackId in db.racks && db.racks[rackId].room in db.rooms
  {
    db.(allocations := db.allocations[assetId := Allocation(rackId, span)],
        assets := db.assets[assetId := db.assets[assetId].(centre := Some(db.rooms[db.racks[rackId].room].centre))])
  }

  // ---------- the services as functions of the tables ----------

  /** backend/assets/physical_location.py:236-332 */
  ghost function Place(db: Db, assetId: int, rackId: int, span: Span): Outcome {
    if !(assetId in db.assets && !db.assets[assetId].archived && rackId in db.racks) then RolledBack
    else
      var inPlace := assetId in db.allocations && db.allocations[assetId] == Allocation(rackId, span);
      if db.assets[assetId].status == Retired then (if inPlace then Committed(db) else RolledBack)
      else if Usable(db, rackId) && InRange(span, db.racks[rackId].totalU) && CellsFree(db, rackId, Some(assetId), span)
              && ((inPlace && InCentreOf(db, assetId, rackId)) || !Squeezed(db, rackId, Some(assetId), span))
      then Committed(Mount(db, assetId, rackId, span))
      else RolledBack
  }

  /** backend/assets/physical_location.py:335-351 */
  function SetDirect(db: Db, assetId: int, centre: Option<int>): Outcome {
    if assetId in db.assets && !db.assets[assetId].archived
       && (centre.Some? ==> centre.value in db.centres && db.centres[centre.value])
    then Committed(db.(allocations := db.allocations - {assetId},
                       assets := db.assets[assetId := db.assets[assetId].(centre := centre)]))
    else RolledBack
  }

  /** backend/assets/physical_location.py:354-359: the direct centre copy stays. */
  function Unrack(db: Db, assetId: int): Outcome {
    if assetId in db.assets then Committed(db.(allocations := db.allocations - {assetId})) else RolledBack
  }

  /** backend/assets/physical_location.py:362-373 */
  function Clear(db: Db, assetId: int): Outcome {
    if assetId in db.assets && !db.assets[assetId].archived
    then Committed(db.(allocations := db.allocations - {assetId},
                       assets := db.assets[assetId := db.assets[assetId].(centre := None)]))
    else RolledBack
  }

  /** backend/assets/rack_reservations.py:37-53 */
  ghost function Reserve(db: Db, holdId: int, rackId: int, span: Span): Outcome {
    if holdId !in db.holds && Usable(db, rackId) && InRange(span, db.racks[rackId].totalU)
       && CellsFree(db, rackId, None, span) && !Squeezed(db, rackId, None, span)
    then Committed(db.(holds := db.holds[holdId := UnitHold(rackId, Hold(Active, span), None)]))
    else RolledBack
  }

  /** backend/assets/rack_reservations.py:56-70 */
  function Release(db: Db, rackId: int, holdId: int): Outcome {
    if holdId in db.holds && db.holds[holdId].rack == rackId && db.holds[holdId].hold.status == Active
    then
      var row := db.holds[holdId];
      Committed(db.(holds := db.holds[holdId := row.(hold := row.hold.(status := Released))]))
    else RolledBack
  }

  /** backend/assets/rack_reservations.py:73-89: the whole hold or nothing. */
  function Consume(db: Db, rackId: int, holdId: int, assetId: int, span: Span): Outcome {
    if holdId in db.holds && db.holds[holdId].rack == rackId && db.holds[holdId].hold == Hold(Active, span)
    then Committed(db.(holds := db.holds[holdId := UnitHold(rackId, Hold(Consumed, span), Some(assetId))]))
    else RolledBack
  }

  /** backend/assets/asset_writes.py:619-653 */
  ghost function ChangePlacement(db: Db, assetId: int, target: Option<Allocation>, hold: Option<int>): Outcome {
    if !(assetId in db.assets && !db.assets[assetId].archived) then RolledBack
    else if hold == None && target == (if assetId in db.allocations then Some(db.allocations[assetId]) else None) then
      Committed(db)
    else match (target, hold)
         case (None, None) => Unrack(db, assetId)
         case (None, Some(_)) => RolledBack
         case (Some(t), None) => Place(db, assetId, t.rack, t.span)
         case (Some(t), Some(h)) => PlaceOnHold(db, assetId, t, h)
  }

  /** Using a hold up and placing the asset there succeed or fail together. */
  ghost function PlaceOnHold(db: Db, assetId: int, target: Allocation, holdId: int): Outcome {
    match Consume(db, target.rack, holdId, assetId, target.span)
    case RolledBack => RolledBack
    case Committed(db') => Place(db', assetId, target.rack, target.span)
  }

  function MountedIn(db: Db, rackIds: set<int>): set<int> {
    set a | a in db.allocations && db.allocations[a].rack in rackIds
  }

  function RacksOf(db: Db, roomId: int): set<int> {
    set r | r in db.racks && db.racks[r].room == roomId
  }

  function Relocated(assets: map<int, Asset>, moved: set<int>, centre: int): map<int, Asset> {
    map a | a in assets :: if a in moved then assets[a].(centre := Some(centre)) else assets[a]
  }

  predicate CodeTaken(racks: map<int, Rack>, rackId: int, room: int, code: int) {
    exists r :: r in racks && r != rackId && racks[r].room == room && racks[r].code == code
  }

  predicate NameTaken(rooms: map<int, Room>, roomId: int, centre: int, name: int) {
    exists r :: r in rooms && r != roomId && rooms[r].centre == centre && rooms[r].name == name
  }

  /** `update_rack` under the rules of the rack form (physical_location.py:469-489,
      serializers.py:3085-3117). `room` is the submitted parent, if any; the code, the height and
      the status are those after the edit. */
  function UpdateRack(db: Db, rackId: int, room: Option<int>, code: int, totalU: int, status: RackStatus): Outcome {
    if !(rackId in db.racks && 1 <= totalU) then RolledBack
    else
      var rack := db.racks[rackId];
      var target := if room.Some? then room.value else rack.room;
      if && target in db.rooms && !CodeTaken(db.racks, rackId, target, code)
         && (target != rack.room ==>
               db.rooms[target].active && db.rooms[target].centre in db.centres && db.centres[db.rooms[target].centre])
         && (forall a ::
              a in db.allocations && db.allocations[a].rack == rackId ==> db.allocations[a].span.endU <= totalU)
         && (forall h ::
              h in db.holds && db.holds[h].rack == rackId && db.holds[h].hold.status == Active ==>
                db.holds[h].hold.span.endU <= totalU)
      then
        var racks := db.racks[rackId := Rack(target, code, totalU, status)];
        Committed(db.(racks := racks,
                      assets := if target == rack.room then db.assets
                                else Relocated(db.assets, MountedIn(db, {rackId}), db.rooms[target].centre)))
      else RolledBack
  }

  predicate RoomBeingCounted(db: Db, roomId: int) {
    exists t :: t in db.tasks && db.tasks[t].room == Some(roomId) && !db.tasks[t].completed
  }

  /** `update_server_room` under the rules of the room form (physical_location.py:445-457, 492-514,
      serializers.py:1790-1804). `stocked` says whether the room has spare stock records; stock
      itself is not part of this model. */
  function UpdateRoom(db: Db, roomId: int, centre: Option<int>, name: int, active: bool, stocked: bool): Outcome {
    if !(roomId in db.rooms) then RolledBack
    else
      var room := db.rooms[roomId];
      var target := if centre.Some? then centre.value else room.centre;
      if target in db.centres && !NameTaken(db.rooms, roomId, target, name)
         && (target != room.centre ==> !stocked && !RoomBeingCounted(db, roomId) && db.centres[target])
      then
        Committed(db.(rooms := db.rooms[roomId := Room(target, name, active)],
                      assets := if target == room.centre then db.assets
                                else Relocated(db.assets, MountedIn(db, RacksOf(db, roomId)), target)))
      else RolledBack
  }

  function CreateCentre(db: Db, centreId: int): Outcome {
    if centreId in db.centres then RolledBack else Committed(db.(centres := db.centres[centreId := true]))
  }

  function SetCentreActive(db: Db, centreId: int, active: bool): Outcome {
    if centreId in db.centres then Committed(db.(centres := db.centres[centreId := active])) else RolledBack
  }

  function CreateRoom(db: Db, roomId: int, centre: int, name: int): Outcome {
    if roomId !in db.rooms && centre in db.centres && db.centres[centre] && !NameTaken(db.rooms, roomId, centre, name)
    then Committed(db.(rooms := db.rooms[roomId := Room(centre, name, true)]))
    else RolledBack
  }

  function CreateRack(db: Db, rackId: int, room: int, code: int, totalU: int, status: RackStatus): Outcome {
    if rackId !in db.racks && room in db.rooms && db.rooms[room].active && 1 <= totalU
       && db.rooms[room].centre in db.centres && db.centres[db.rooms[room].centre]
       && !CodeTaken(db.racks, rackId, room, code)
    then Committed(db.(racks := db.racks[rackId := Rack(room, code, totalU, status)]))
    else RolledBack
  }

  // ---------- every commit keeps the invariants ----------

  lemma OverlapIsTaken(db: Db, rackId: int, excluded: Option<int>, span: Span, other: Span)
    requires span.startU <= span.endU && other.startU <= other.endU && span.Overlaps(other)
    requires CellsFree(db, rackId, excluded, span)
    ensures exists u ::
              span.startU <= u <= span.endU && other.startU <= u <= other.endU && !Taken(db, rackId, excluded, u)
  {
    assert !Taken(db, rackId, excluded, Max(span.startU, other.startU));
  }

  ghost predicate ClearOf(db: Db, rackId: int, excluded: Option<int>, span: Span) {
    && (forall a :: a in db.allocations && excluded != Some(a) && db.allocations[a].rack == rackId ==>
          !db.allocations[a].span.Overlaps(span) && !span.Overlaps(db.allocations[a].span))
    && (forall h :: ActiveHold(db.holds, h) && db.holds[h].rack == rackId ==>
          !db.holds[h].hold.span.Overlaps(span) && !span.Overlaps(db.holds[h].hold.span))
  }

  lemma FreeOfRows(db: Db, rackId: int, excluded: Option<int>, span: Span)
    requires References(db) && Geometry(db.racks, db.allocations, db.holds)
    requires span.startU <= span.endU && CellsFree(db, rackId, excluded, span)
    ensures ClearOf(db, rackId, excluded, span)
  {
    forall a | a in db.allocations && excluded != Some(a) && db.allocations[a].rack == rackId
      ensures !span.Overlaps(db.allocations[a].span)
    {
      if span.Overlaps(db.allocations[a].span) { OverlapIsTaken(db, rackId, excluded, span, db.allocations[a].span); }
    }
    forall h | ActiveHold(db.holds, h) && db.holds[h].rack == rackId
      ensures !span.Overlaps(db.holds[h].hold.span)
    {
      if span.Overlaps(db.holds[h].hold.span) { OverlapIsTaken(db, rackId, excluded, span, db.holds[h].hold.span); }
    }
  }

  /** The asset rows differ at most in their centre. */
  ghost predicate OnlyCentres(before: map<int, Asset>, after: map<int, Asset>) {
    && after.Keys == before.Keys
    && forall a :: a in before ==> after[a] == before[a].(centre := after[a].centre)
  }

  ghost predicate LiveOnly(assets: map<int, Asset>, allocations: map<int, Allocation>) {
    forall a :: a in allocations ==> a in assets && !assets[a].archived && assets[a].status != Retired
  }

  lemma CentresFrame(db: Db, after: map<int, Asset>, allocations: map<int, Allocation>)
    requires OnlyCentres(db.assets, after) && LiveOnly(db.assets, allocations)
    requires FaultStatusSynced(db.assets, db.faults)
    requires RetirementFinal(db.assets, db.allocations, db.disposals)
    requires ArchivedIdle(db.assets, db.allocations, db.tasks, db.items)
    ensures FaultStatusSynced(after, db.faults)
    ensures RetirementFinal(after, allocations, db.disposals)
    ensures ArchivedIdle(after, allocations, db.tasks, db.items)
  {
    forall d | d in db.disposals && db.disposals[d] in after ensures after[db.disposals[d]].status == Retired {
      var a := db.disposals[d];
      assert db.assets[a].status == Retired && after[a] == db.assets[a].(centre := after[a].centre);
    }
    forall a | a in after && after[a].status == Retired ensures exists d :: d in db.disposals && db.disposals[d] == a {
      assert a in db.assets && db.assets[a].status == Retired;
    }
  }

  lemma MountedAreLive(db: Db)
    requires Inv(db)
    ensures LiveOnly(db.assets, db.allocations)
  {}

  lemma MountGeometry(db: Db, assetId: int, rackId: int, span: Span)
    requires Geometry(db.racks, db.allocations, db.holds) && rackId in db.racks
    requires InRange(span, db.racks[rackId].totalU) && ClearOf(db, rackId, Some(assetId), span)
    ensures Geometry(db.racks, db.allocations[assetId := Allocation(rackId, span)], db.holds)
  {}

  lemma MountReferences(db: Db, assetId: int, rackId: int, span: Span)
    requires References(db) && assetId in db.assets && rackId in db.racks
    ensures References(Mount(db, assetId, rackId, span))
  {}

  lemma MountSynced(db: Db, assetId: int, rackId: int, span: Span)
    requires References(db) && assetId in db.assets && rackId in db.racks
    requires CentresSynced(db.rooms, db.racks, db.assets, db.allocations)
    ensures var db' := Mount(db, assetId, rackId, span);
            CentresSynced(db'.rooms, db'.racks, db'.assets, db'.allocations)
  {}

  lemma MountKeepsInv(db: Db, assetId: int, rackId: int, span: Span)
    requires Inv(db) && assetId in db.assets && rackId in db.racks
    requires !db.assets[assetId].archived && db.assets[assetId].status != Retired
    requires InRange(span, db.racks[rackId].totalU) && ClearOf(db, rackId, Some(assetId), span)
    ensures Inv(Mount(db, assetId, rackId, span))
  {
    var db' := Mount(db, assetId, rackId, span);
    MountReferences(db, assetId, rackId, span);
    MountGeometry(db, assetId, rackId, span);
    MountSynced(db, assetId, rackId, span);
    MountedAreLive(db);
    CentresFrame(db, db'.assets, db'.allocations);
  }

  lemma PlaceKeepsInv(db: Db, assetId: int, rackId: int, span: Span)
    requires Inv(db)
    ensures Inv(After(db, Place(db, assetId, rackId, span)))
  {
    var outcome := Place(db, assetId, rackId, span);
    if outcome.Committed? && db.assets[assetId].status != Retired {
      FreeOfRows(db, rackId, Some(assetId), span);
      MountKeepsInv(db, assetId, rackId, span);
    }
  }

  lemma FewerAllocations(db: Db, assetId: int)
    requires Geometry(db.racks, db.allocations, db.holds)
    ensures Geometry(db.racks, db.allocations - {assetId}, db.holds)
  {}

  lemma UnmountKeepsInv(db: Db, assetId: int, after: map<int, Asset>)
    requires Inv(db) && OnlyCentres(db.assets, after)
    requires forall a :: a in db.assets && a != assetId ==> after[a] == db.assets[a]
    ensures Inv(db.(allocations := db.allocations - {assetId}, assets := after))
  {
    FewerAllocations(db, assetId);
    UnmountReferences(db, assetId, after);
    UnmountSynced(db, assetId, after);
    MountedAreLive(db);
    CentresFrame(db, after, db.allocations - {assetId});
  }

  lemma UnmountReferences(db: Db, assetId: int, after: map<int, Asset>)
    requires References(db) && after.Keys == db.assets.Keys
    ensures References(db.(allocations := db.allocations - {assetId}, assets := after))
  {}

  lemma UnmountSynced(db: Db, assetId: int, after: map<int, Asset>)
    requires CentresSynced(db.rooms, db.racks, db.assets, db.allocations) && OnlyCentres(db.assets, after)
    requires forall a :: a in db.assets && a != assetId ==> after[a] == db.assets[a]
    ensures CentresSynced(db.rooms, db.racks, after, db.allocations - {assetId})
  {}

  lemma SetDirectKeepsInv(db: Db, assetId: int, centre: Option<int>)
    requires Inv(db)
    ensures Inv(After(db, SetDirect(db, assetId, centre)))
  {
    if SetDirect(db, assetId, centre).Committed? {
      UnmountKeepsInv(db, assetId, SetDirect(db, assetId, centre).db.assets);
    }
  }

  lemma UnrackKeepsInv(db: Db, assetId: int)
    requires Inv(db)
    ensures Inv(After(db, Unrack(db, assetId)))
  {
    UnmountKeepsInv(db, assetId, db.assets);
    assert db.(allocations := db.allocations - {assetId}, assets := db.assets) ==
             db.(allocations := db.allocations - {assetId});
  }

  lemma ClearKeepsInv(db: Db, assetId: int)
    requires Inv(db)
    ensures Inv(After(db, Clear(db, assetId)))
  {
    if Clear(db, assetId).Committed? {
      UnmountKeepsInv(db, assetId, Clear(db, assetId).db.assets);
    }
  }

  lemma HoldGeometry(db: Db, holdId: int, rackId: int, span: Span)
    requires Geometry(db.racks, db.allocations, db.holds) && rackId in db.racks && holdId !in db.holds
    requires InRange(span, db.racks[rackId].totalU) && ClearOf(db, rackId, None, span)
    ensures Geometry(db.racks, db.allocations, db.holds[holdId := UnitHold(rackId, Hold(Active, span), None)])
  {
    var holds := db.holds[holdId := UnitHold(rackId, Hold(Active, span), None)];
    assert forall h :: ActiveHold(holds, h) && h != holdId ==> ActiveHold(db.holds, h);
  }

  lemma ReserveKeepsInv(db: Db, holdId: int, rackId: int, span: Span)
    requires Inv(db)
    ensures Inv(After(db, Reserve(db, holdId, rackId, span)))
  {
    if Reserve(db, holdId, rackId, span).Committed? {
      FreeOfRows(db, rackId, None, span);
      HoldGeometry(db, holdId, rackId, span);
    }
  }

  lemma EndHoldGeometry(racks: map<int, Rack>, allocations: map<int, Allocation>, holds: map<int, UnitHold>,
                        holdId: int, ended: UnitHold)
    requires Geometry(racks, allocations, holds) && ended.hold.status != Active
    ensures Geometry(racks, allocations, holds[holdId := ended])
  {
    var holds' := holds[holdId := ended];
    forall h | ActiveHold(holds', h) ensures ActiveHold(holds, h) && holds'[h] == holds[h] {}
  }

  lemma EndHoldKeepsRacks(db: Db, holdId: int, ended: UnitHold)
    requires RacksSound(db) && holdId in db.holds && ended.rack == db.holds[holdId].rack && ended.hold.status != Active
    ensures RacksSound(db.(holds := db.holds[holdId := ended]))
  {
    EndHoldGeometry(db.racks, db.allocations, db.holds, holdId, ended);
  }

  lemma EndHoldKeepsInv(db: Db, holdId: int, ended: UnitHold)
    requires Inv(db) && holdId in db.holds && ended.rack == db.holds[holdId].rack && ended.hold.status != Active
    ensures Inv(db.(holds := db.holds[holdId := ended]))
  {
    EndHoldKeepsRacks(db, holdId, ended);
  }

  lemma ReleaseKeepsInv(db: Db, rackId: int, holdId: int)
    requires Inv(db)
    ensures Inv(After(db, Release(db, rackId, holdId)))
  {
    if Release(db, rackId, holdId).Committed? {
      EndHoldKeepsInv(db, holdId, Release(db, rackId, holdId).db.holds[holdId]);
    }
  }

  lemma ConsumeKeepsInv(db: Db, rackId: int, holdId: int, assetId: int, span: Span)
    requires Inv(db)
    ensures Inv(After(db, Consume(db, rackId, holdId, assetId, span)))
  {
    if Consume(db, rackId, holdId, assetId, span).Committed? {
      EndHoldKeepsInv(db, holdId, UnitHold(rackId, Hold(Consumed, span), Some(assetId)));
    }
  }

  lemma PlaceOnHoldKeepsInv(db: Db, assetId: int, target: Allocation, holdId: int)
    requires Inv(db)
    ensures Inv(After(db, PlaceOnHold(db, assetId, target, holdId)))
  {
    var consumed := Consume(db, target.rack, holdId, assetId, target.span);
    if consumed.Committed? {
      ConsumeKeepsInv(db, target.rack, holdId, assetId, target.span);
      PlaceKeepsInv(consumed.db, assetId, target.rack, target.span);
    }
  }

  lemma ChangePlacementKeepsInv(db: Db, assetId: int, target: Option<Allocation>, hold: Option<int>)
    requires Inv(db)
    ensures Inv(After(db, ChangePlacement(db, assetId, target, hold)))
  {
    var outcome := ChangePlacement(db, assetId, target, hold);
    if outcome == RolledBack || outcome == Committed(db) {
    } else if target == None {
      assert outcome == Unrack(db, assetId);
      UnrackKeepsInv(db, assetId);
    } else if hold == None {
      assert outcome == Place(db, assetId, target.value.rack, target.value.span);
      PlaceKeepsInv(db, assetId, target.value.rack, target.value.span);
    } else {
      assert outcome == PlaceOnHold(db, assetId, target.value, hold.value);
      PlaceOnHoldKeepsInv(db, assetId, target.value, hold.value);
    }
  }

  /** Moving one rack, or one room with its racks, keeps every mounted copy in step. */
  lemma RelocationSynced(db: Db, rooms: map<int, Room>, racks: map<int, Rack>, moved: set<int>, centre: int)
    requires References(db) && CentresSynced(db.rooms, db.racks, db.assets, db.allocations)
    requires forall a ::
               a in db.allocations ==> db.allocations[a].rack in racks && racks[db.allocations[a].rack].room in rooms
    requires forall a :: a in db.allocations ==>
      var new' := rooms[racks[db.allocations[a].rack].room].centre;
      if a in moved then new' == centre else new' == db.rooms[db.racks[db.allocations[a].rack].room].centre
    ensures CentresSynced(rooms, racks, Relocated(db.assets, moved, centre), db.allocations)
  {}

  lemma ResizedGeometry(db: Db, rackId: int, rack: Rack)
    requires Geometry(db.racks, db.allocations, db.holds)
    requires rackId in db.racks
    requires forall a ::
               a in db.allocations && db.allocations[a].rack == rackId ==> db.allocations[a].span.endU <= rack.totalU
    requires forall h ::
               ActiveHold(db.holds, h) && db.holds[h].rack == rackId ==> db.holds[h].hold.span.endU <= rack.totalU
    ensures Geometry(db.racks[rackId := rack], db.allocations, db.holds)
  {}

  lemma RelocatedReferences(db: Db, rooms: map<int, Room>, racks: map<int, Rack>, assets: map<int, Asset>)
    requires References(db) && rooms.Keys == db.rooms.Keys && racks.Keys == db.racks.Keys
             && assets.Keys == db.assets.Keys
    requires forall r :: r in rooms ==> rooms[r].centre in db.centres
    requires forall r :: r in racks ==> racks[r].room in rooms && 1 <= racks[r].totalU
    ensures References(db.(rooms := rooms, racks := racks, assets := assets))
  {}

  lemma RelocationKeepsInv(db: Db, rooms: map<int, Room>, racks: map<int, Rack>, assets: map<int, Asset>)
    requires Inv(db) && OnlyCentres(db.assets, assets)
    requires References(db.(rooms := rooms, racks := racks, assets := assets))
    requires Geometry(racks, db.allocations, db.holds) && CentresSynced(rooms, racks, assets, db.allocations)
    requires NamesUnique(rooms, racks) && CountsInPlace(rooms, db.tasks)
    ensures Inv(db.(rooms := rooms, racks := racks, assets := assets))
  {
    MountedAreLive(db);
    CentresFrame(db, assets, db.allocations);
  }

  lemma RackRowSynced(db: Db, rackId: int, rack: Rack)
    requires References(db) && CentresSynced(db.rooms, db.racks, db.assets, db.allocations)
    requires rackId in db.racks && rack.room in db.rooms && 1 <= rack.totalU
    ensures var assets := if rack.room == db.racks[rackId].room then db.assets
                          else Relocated(db.assets, MountedIn(db, {rackId}), db.rooms[rack.room].centre);
            && References(db.(rooms := db.rooms, racks := db.racks[rackId := rack], assets := assets))
            && CentresSynced(db.rooms, db.racks[rackId := rack], assets, db.allocations)
            && OnlyCentres(db.assets, assets)
  {
    var racks := db.racks[rackId := rack];
    var moved := Relocated(db.assets, MountedIn(db, {rackId}), db.rooms[rack.room].centre);
    RelocatedReferences(db, db.rooms, racks, db.assets);
    RelocatedReferences(db, db.rooms, racks, moved);
    RelocationSynced(db, db.rooms, racks, MountedIn(db, {rackId}), db.rooms[rack.room].centre);
  }

  lemma RackNamed(rooms: map<int, Room>, racks: map<int, Rack>, rackId: int, rack: Rack)
    requires NamesUnique(rooms, racks) && !CodeTaken(racks, rackId, rack.room, rack.code)
    ensures NamesUnique(rooms, racks[rackId := rack])
  {
    var racks' := racks[rackId := rack];
    forall r, q ensures !CodesClash(racks', r, q) { assert !CodesClash(racks, r, q); }
  }

  lemma RoomNamed(rooms: map<int, Room>, racks: map<int, Rack>, roomId: int, room: Room)
    requires NamesUnique(rooms, racks) && !NameTaken(rooms, roomId, room.centre, room.name)
    ensures NamesUnique(rooms[roomId := room], racks)
  {
    var rooms' := rooms[roomId := room];
    forall r, q ensures !NamesClash(rooms', r, q) { assert !NamesClash(rooms, r, q); }
  }

  lemma UpdateRackKeepsInv(db: Db, rackId: int, room: Option<int>, code: int, totalU: int, status: RackStatus)
    requires Inv(db)
    ensures Inv(After(db, UpdateRack(db, rackId, room, code, totalU, status)))
  {
    var outcome := UpdateRack(db, rackId, room, code, totalU, status);
    if outcome.Committed? {
      var db' := outcome.db;
      RackNamed(db.rooms, db.racks, rackId, db'.racks[rackId]);
      ResizedGeometry(db, rackId, db'.racks[rackId]);
      RackRowSynced(db, rackId, db'.racks[rackId]);
      RelocationKeepsInv(db, db.rooms, db'.racks, db'.assets);
    }
  }

  lemma RoomRowSynced(db: Db, roomId: int, room: Room)
    requires References(db) && CentresSynced(db.rooms, db.racks, db.assets, db.allocations)
    requires roomId in db.rooms && room.centre in db.centres
    ensures var assets := if room.centre == db.rooms[roomId].centre then db.assets
                          else Relocated(db.assets, MountedIn(db, RacksOf(db, roomId)), room.centre);
            && References(db.(rooms := db.rooms[roomId := room], racks := db.racks, assets := assets))
            && CentresSynced(db.rooms[roomId := room], db.racks, assets, db.allocations)
            && OnlyCentres(db.assets, assets)
  {
    var rooms := db.rooms[roomId := room];
    var moved := Relocated(db.assets, MountedIn(db, RacksOf(db, roomId)), room.centre);
    RelocatedReferences(db, rooms, db.racks, db.assets);
    RelocatedReferences(db, rooms, db.racks, moved);
    RelocationSynced(db, rooms, db.racks, MountedIn(db, RacksOf(db, roomId)), room.centre);
  }

  /** A room row may change its centre only while no running count has the room. */
  lemma CountedRoomStays(db: Db, roomId: int, room: Room)
    requires CountsInPlace(db.rooms, db.tasks) && roomId in db.rooms
    requires room.centre != db.rooms[roomId].centre ==> !RoomBeingCounted(db, roomId)
    ensures CountsInPlace(db.rooms[roomId := room], db.tasks)
  {
    forall t | t in db.tasks && !db.tasks[t].completed ensures ScopeStands(db.rooms[roomId := room], db.tasks[t]) {
      assert ScopeStands(db.rooms, db.tasks[t]);
    }
  }

  lemma UpdateRoomKeepsInv(db: Db, roomId: int, centre: Option<int>, name: int, active: bool, stocked: bool)
    requires Inv(db)
    ensures Inv(After(db, UpdateRoom(db, roomId, centre, name, active, stocked)))
  {
    var outcome := UpdateRoom(db, roomId, centre, name, active, stocked);
    if outcome.Committed? {
      RoomNamed(db.rooms, db.racks, roomId, outcome.db.rooms[roomId]);
      RoomRowSynced(db, roomId, outcome.db.rooms[roomId]);
      CountedRoomStays(db, roomId, outcome.db.rooms[roomId]);
      RelocationKeepsInv(db, outcome.db.rooms, db.racks, outcome.db.assets);
    }
  }

  /** Keys only grow and rows keep pointing at existing rows. */
  lemma SetupReferences(db: Db, centres: map<int, bool>, rooms: map<int, Room>, racks: map<int, Rack>)
    requires References(db)
    requires db.centres.Keys <= centres.Keys && db.rooms.Keys <= rooms.Keys && db.racks.Keys <= racks.Keys
    requires forall r :: r in rooms ==> rooms[r].centre in centres
    requires forall r :: r in racks ==> racks[r].room in rooms && 1 <= racks[r].totalU
    ensures References(db.(centres := centres, rooms := rooms, racks := racks))
  {}

  lemma CentresKeepInv(db: Db, centreId: int, active: bool)
    requires Inv(db)
    ensures Inv(db.(centres := db.centres[centreId := active]))
  {
    SetupReferences(db, db.centres[centreId := active], db.rooms, db.racks);
  }

  lemma CreateRoomKeepsInv(db: Db, roomId: int, centre: int, name: int)
    requires Inv(db)
    ensures Inv(After(db, CreateRoom(db, roomId, centre, name)))
  {
    if CreateRoom(db, roomId, centre, name).Committed? {
      RoomNamed(db.rooms, db.racks, roomId, Room(centre, name, true));
      SetupReferences(db, db.centres, db.rooms[roomId := Room(centre, name, true)], db.racks);
    }
  }

  lemma CreateRackKeepsInv(db: Db, rackId: int, room: int, code: int, totalU: int, status: RackStatus)
    requires Inv(db)
    ensures Inv(After(db, CreateRack(db, rackId, room, code, totalU, status)))
  {
    if CreateRack(db, rackId, room, code, totalU, status).Committed? {
      RackNamed(db.rooms, db.racks, rackId, Rack(room, code, totalU, status));
      SetupReferences(db, db.centres, db.rooms, db.racks[rackId := Rack(room, code, totalU, status)]);
    }
  }

  // ---------- the services as steps on the store ----------

  ghost predicate DevicesOf(db: Db, rackId: int, devices: seq<Device>) {
    && (forall i :: 0 <= i < |devices| ==>
          && devices[i].assetId in db.allocations
          && db.allocations[devices[i].assetId] == Allocation(rackId, devices[i].span))
    && (forall i, j :: 0 <= i < j < |devices| ==> devices[i].assetId != devices[j].assetId)
    && (forall a ::
         a in db.allocations && db.allocations[a].rack == rackId ==> Device(a, db.allocations[a].span) in devices)
  }

  ghost predicate HoldsOf(db: Db, rackId: int, ids: seq<int>, holds: seq<Hold>) {
    && |ids| == |holds|
    && (forall i :: 0 <= i < |ids| ==>
          ids[i] in db.holds && db.holds[ids[i]].rack == rackId && db.holds[ids[i]].hold == holds[i]
          && holds[i].status == Active)
    && (forall i, j :: 0 <= i < j < |ids| ==> ids[i] != ids[j])
    && (forall h :: h in db.holds && db.holds[h].rack == rackId && db.holds[h].hold.status == Active ==> h in ids)
  }

  /** The rows of one rack, in whatever order the database returns them. */
  method RackDevices(store: Store, rackId: int) returns (devices: seq<Device>)
    ensures DevicesOf(store.View(), rackId, devices)
  {
    var todo := set a | a in store.allocations && store.allocations[a].rack == rackId;
    devices := [];
    while todo != {}
      invariant forall a :: a in todo ==> a in store.allocations && store.allocations[a].rack == rackId
      invariant forall i :: 0 <= i < |devices| ==>
        && devices[i].assetId !in todo && devices[i].assetId in store.allocations
        && store.allocations[devices[i].assetId] == Allocation(rackId, devices[i].span)
      invariant forall i, j :: 0 <= i < j < |devices| ==> devices[i].assetId != devices[j].assetId
      invariant forall a :: a in store.allocations && store.allocations[a].rack == rackId ==>
        a in todo || Device(a, store.allocations[a].span) in devices
      decreases todo
    {
      HasMember(todo);
      var a :| a in todo;
      devices := devices + [Device(a, store.allocations[a].span)];
      todo := todo - {a};
    }
  }

  method ActiveRackReservations(store: Store, rackId: int) returns (holds: seq<Hold>, ghost ids: seq<int>)
    ensures HoldsOf(store.View(), rackId, ids, holds)
  {
    var todo := set h | h in store.holds && store.holds[h].rack == rackId && store.holds[h].hold.status == Active;
    holds, ids := [], [];
    while todo != {}
      invariant forall h ::
                  h in todo ==>
                    h in store.holds && store.holds[h].rack == rackId && store.holds[h].hold.status == Active
      invariant |ids| == |holds|
      invariant forall i :: 0 <= i < |ids| ==>
        && ids[i] !in todo && ids[i] in store.holds && store.holds[ids[i]].rack == rackId
        && store.holds[ids[i]].hold == holds[i] && holds[i].status == Active
      invariant forall i, j :: 0 <= i < j < |ids| ==> ids[i] != ids[j]
      invariant forall h ::
                  h in store.holds && store.holds[h].rack == rackId && store.holds[h].hold.status == Active ==>
                    h in todo || h in ids
      decreases todo
    {
      HasMember(todo);
      var h :| h in todo;
      holds, ids := holds + [store.holds[h].hold], ids + [h];
      todo := todo - {h};
    }
  }

  lemma ConcatPlaced(a: seq<Span>, b: seq<Span>, totalU: int)
    requires WellPlaced(a, totalU) && WellPlaced(b, totalU)
    requires forall x, y :: x in a && y in b ==> !x.Overlaps(y)
    ensures WellPlaced(a + b, totalU)
  {
    var c := a + b;
    forall i, j | 0 <= i < j < |c| ensures !c[i].Overlaps(c[j]) {
      if i < |a| <= j { assert c[i] in a && c[j] in b; }
    }
  }

  lemma {:induction false} DeviceSpansPlaced(devices: seq<Device>, excluded: Option<int>, totalU: int)
    requires forall i :: 0 <= i < |devices| ==> InRange(devices[i].span, totalU)
    requires forall i, j :: 0 <= i < j < |devices| ==> !devices[i].span.Overlaps(devices[j].span)
    ensures WellPlaced(DeviceSpans(devices, excluded), totalU)
  {
    if devices != [] {
      var rest := devices[1..];
      DeviceSpansPlaced(rest, excluded, totalU);
      forall s | s in DeviceSpans(rest, excluded) ensures !devices[0].span.Overlaps(s) {
        DeviceSpanMembers(rest, excluded, s);
        var d :| d in rest && d.span == s;
        var k :| 0 <= k < |rest| && rest[k] == d;
        assert d == devices[k + 1];
      }
      if excluded != Some(devices[0].assetId) {
        ConcatPlaced([devices[0].span], DeviceSpans(rest, excluded), totalU);
      }
    }
  }

  lemma {:induction false} HoldSpansPlaced(holds: seq<Hold>, totalU: int)
    requires forall i :: 0 <= i < |holds| ==> InRange(holds[i].span, totalU)
    requires forall i, j :: 0 <= i < j < |holds| ==> !holds[i].span.Overlaps(holds[j].span)
    ensures WellPlaced(HoldSpans(holds), totalU)
  {
    if holds != [] {
      var rest := holds[1..];
      HoldSpansPlaced(rest, totalU);
      forall s | s in HoldSpans(rest) ensures !holds[0].span.Overlaps(s) {
        HoldSpanMembers(rest, s);
        var k :| 0 <= k < |rest| && rest[k].span == s;
        assert rest[k] == holds[k + 1];
      }
      if holds[0].status == Active {
        ConcatPlaced([holds[0].span], HoldSpans(rest), totalU);
      }
    }
  }

  /** What the U checks need of the tables: every rack has cells, and its rows are disjoint. */
  ghost predicate RacksSound(db: Db) {
    References(db) && Geometry(db.racks, db.allocations, db.holds)
  }

  /** The lists handed to the U checks are consistent and cover exactly the taken cells. */
  lemma RackRows(db: Db, rackId: int, devices: seq<Device>, ids: seq<int>, holds: seq<Hold>, excluded: Option<int>)
    requires RacksSound(db) && rackId in db.racks && DevicesOf(db, rackId, devices) && HoldsOf(db, rackId, ids, holds)
    ensures WellPlaced(Rows(devices, excluded, holds), db.racks[rackId].totalU)
    ensures forall u :: Covers(Rows(devices, excluded, holds), u) <==> Taken(db, rackId, excluded, u)
  {
    var totalU := db.racks[rackId].totalU;
    assert forall i :: 0 <= i < |ids| ==> ActiveHold(db.holds, ids[i]);
    DeviceSpansPlaced(devices, excluded, totalU);
    HoldSpansPlaced(holds, totalU);
    RowsOfTables(db, rackId, devices, ids, holds, excluded);
    ConcatPlaced(DeviceSpans(devices, excluded), HoldSpans(holds), totalU);
    forall u ensures Covers(Rows(devices, excluded, holds), u) <==> Taken(db, rackId, excluded, u) {
      RowsCoverTaken(db, rackId, devices, ids, holds, excluded, u);
    }
  }

  lemma RowsOfTables(db: Db, rackId: int, devices: seq<Device>, ids: seq<int>, holds: seq<Hold>, excluded: Option<int>)
    requires DevicesOf(db, rackId, devices) && HoldsOf(db, rackId, ids, holds)
    ensures forall s :: s in DeviceSpans(devices, excluded) <==>
              exists a :: a in db.allocations && excluded != Some(a) && db.allocations[a] == Allocation(rackId, s)
    ensures forall s :: s in HoldSpans(holds) <==>
              exists h :: h in db.holds && db.holds[h].rack == rackId && db.holds[h].hold == Hold(Active, s)
  {
    forall s ensures s in DeviceSpans(devices, excluded) <==>
                     exists a :: a in db.allocations && excluded != Some(a)
                         && db.allocations[a] == Allocation(rackId, s) {
      DeviceSpanMembers(devices, excluded, s);
      if exists a :: a in db.allocations && excluded != Some(a) && db.allocations[a] == Allocation(rackId, s) {
        var a :| a in db.allocations && excluded != Some(a) && db.allocations[a] == Allocation(rackId, s);
        assert Device(a, s) in devices;
      }
    }
    forall s ensures s in HoldSpans(holds) <==>
                     exists h :: h in db.holds && db.holds[h].rack == rackId && db.holds[h].hold == Hold(Active, s) {
      HoldSpanMembers(holds, s);
      if exists h :: h in db.holds && db.holds[h].rack == rackId && db.holds[h].hold == Hold(Active, s) {
        var h :| h in db.holds && db.holds[h].rack == rackId && db.holds[h].hold == Hold(Active, s);
        var i :| 0 <= i < |ids| && ids[i] == h;
        assert holds[i] in holds;
      }
    }
  }

  lemma RowsCoverTaken(db: Db, rackId: int, devices: seq<Device>, ids: seq<int>, holds: seq<Hold>,
                       excluded: Option<int>, u: int)
    requires DevicesOf(db, rackId, devices) && HoldsOf(db, rackId, ids, holds)
    ensures Covers(Rows(devices, excluded, holds), u) <==> Taken(db, rackId, excluded, u)
  {
    RowsOfTables(db, rackId, devices, ids, holds, excluded);
    if Taken(db, rackId, excluded, u) {
      if a :| a in db.allocations && excluded != Some(a) && db.allocations[a].rack == rackId
              && db.allocations[a].span.startU <= u <= db.allocations[a].span.endU {
        assert db.allocations[a] == Allocation(rackId, db.allocations[a].span);
        assert db.allocations[a].span in Rows(devices, excluded, holds);
      } else {
        var h :| h in db.holds && db.holds[h].rack == rackId && db.holds[h].hold.status == Active
                 && db.holds[h].hold.span.startU <= u <= db.holds[h].hold.span.endU;
        assert db.holds[h].hold == Hold(Active, db.holds[h].hold.span);
        assert db.holds[h].hold.span in Rows(devices, excluded, holds);
      }
    }
    if Covers(Rows(devices, excluded, holds), u) {
      var s :| s in Rows(devices, excluded, holds) && s.startU <= u <= s.endU;
      if s in DeviceSpans(devices, excluded) {
        var a :| a in db.allocations && excluded != Some(a) && db.allocations[a] == Allocation(rackId, s);
      } else {
        var h :| h in db.holds && db.holds[h].rack == rackId && db.holds[h].hold == Hold(Active, s);
      }
    }
  }

  lemma CellsAndSpans(rows: seq<Span>, totalU: int, span: Span)
    requires WellPlaced(rows, totalU) && span.startU <= span.endU
    ensures Free(rows, span) <==> forall u :: span.startU <= u <= span.endU ==> !Covers(rows, u)
  {
    if !Free(rows, span) {
      var s :| s in rows && s.Overlaps(span);
      assert Covers(rows, Max(s.startU, span.startU));
    }
  }

  /** The overlap tests against active holds and other devices (physical_location.py:268-283). */
  method OverlapsRow(store: Store, rackId: int, assetId: int, span: Span) returns (overlap: bool)
    requires RacksSound(store.View()) && rackId in store.racks && InRange(span, store.racks[rackId].totalU)
    ensures overlap <==> !CellsFree(store.View(), rackId, Some(assetId), span)
  {
    var holds, ids := ActiveRackReservations(store, rackId);
    var devices := RackDevices(store, rackId);
    ghost var rows := Rows(devices, Some(assetId), holds);
    RackRows(store.View(), rackId, devices, ids, holds, Some(assetId));
    CellsAndSpans(rows, store.racks[rackId].totalU, span);
    FreeMeansNoOverlap(devices, holds, assetId, span);
    overlap := (exists h | h in holds :: span.Overlaps(h.span))
               || (exists d | d in devices :: d.assetId != assetId && span.Overlaps(d.span));
  }

  lemma FreeMeansNoOverlap(devices: seq<Device>, holds: seq<Hold>, assetId: int, span: Span)
    requires forall h :: h in holds ==> h.status == Active
    ensures Free(Rows(devices, Some(assetId), holds), span) <==>
            && (forall h :: h in holds ==> !span.Overlaps(h.span))
            && (forall d :: d in devices && d.assetId != assetId ==> !span.Overlaps(d.span))
  {
    forall h | h in holds ensures h.span in Rows(devices, Some(assetId), holds) { HoldSpanMembers(holds, h.span); }
    forall d | d in devices && d.assetId != assetId ensures d.span in Rows(devices, Some(assetId), holds) {
      DeviceSpanMembers(devices, Some(assetId), d.span);
    }
    forall s | s in Rows(devices, Some(assetId), holds)
      ensures (exists h :: h in holds && h.span == s)
              || (exists d :: d in devices && d.assetId != assetId && d.span == s)
    {
      DeviceSpanMembers(devices, Some(assetId), s);
      HoldSpanMembers(holds, s);
    }
  }

  /** The gap test of the source (physical_location.py:305-309). */
  method MeetsGap(store: Store, rackId: int, excluded: Option<int>, span: Span) returns (meets: bool)
    requires RacksSound(store.View()) && rackId in store.racks && InRange(span, store.racks[rackId].totalU)
    requires CellsFree(store.View(), rackId, excluded, span)
    ensures meets <==> Squeezed(store.View(), rackId, excluded, span)
  {
    var totalU := store.racks[rackId].totalU;
    var holds, ids := ActiveRackReservations(store, rackId);
    var devices := RackDevices(store, rackId);
    ghost var rows := Rows(devices, excluded, holds);
    RackRows(store.View(), rackId, devices, ids, holds, excluded);
    CellsAndSpans(rows, totalU, span);
    TargetMeetsGap(rows, totalU, span);
    var ranges := RackPositionRanges(devices, totalU, excluded, holds);
    meets := exists g | g in ranges.gaps :: span.Overlaps(g);
  }

  /** `place_asset`: the tests in the source's order, then the two row updates. */
  method PlaceAsset(store: Store, assetId: int, rackId: int, span: Span) returns (ok: bool)
    requires RacksSound(store.View())
    modifies store
    ensures ok <==> Place(old(store.View()), assetId, rackId, span).Committed?
    ensures store.View() == After(old(store.View()), Place(old(store.View()), assetId, rackId, span))
  {
    if assetId !in store.assets || store.assets[assetId].archived || rackId !in store.racks { return false; }
    var asset, rack := store.assets[assetId], store.racks[rackId];
    var current := if assetId in store.allocations then Some(store.allocations[assetId]) else None;
    if asset.status == Retired {
      return current == Some(Allocation(rackId, span));
    }
    var room := store.rooms[rack.room];
    if rack.status != RackInUse || !room.active || !store.centres[room.centre] { return false; }
    if span.startU < 1 || span.endU < 1 || span.endU < span.startU || span.endU > rack.totalU { return false; }
    var overlap := OverlapsRow(store, rackId, assetId, span);
    if overlap { return false; }
    if current == Some(Allocation(rackId, span)) && asset.centre == Some(room.centre) {
      SameMount(store.View(), assetId, rackId, span);
      return true;
    }
    var meets := MeetsGap(store, rackId, Some(assetId), span);
    if meets { return false; }
    WriteMount(store, assetId, rackId, span);
    return true;
  }

  lemma SameMount(db: Db, assetId: int, rackId: int, span: Span)
    requires assetId in db.assets && rackId in db.racks && db.racks[rackId].room in db.rooms
    requires assetId in db.allocations && db.allocations[assetId] == Allocation(rackId, span)
             && InCentreOf(db, assetId, rackId)
    ensures Mount(db, assetId, rackId, span) == db
  {
    assert db.allocations[assetId := db.allocations[assetId]] == db.allocations;
    assert db.assets[assetId := db.assets[assetId]] == db.assets;
  }

  /** The two row updates at the end of a placement. */
  method WriteMount(store: Store, assetId: int, rackId: int, span: Span)
    requires assetId in store.assets && rackId in store.racks && store.racks[rackId].room in store.rooms
    modifies store`allocations, store`assets
    ensures store.View() == Mount(old(store.View()), assetId, rackId, span)
  {
    var asset, centre := store.assets[assetId], store.rooms[store.racks[rackId].room].centre;
    store.allocations := store.allocations[assetId := Allocation(rackId, span)];
    if asset.centre != Some(centre) {
      store.assets := store.assets[assetId := asset.(centre := Some(centre))];
    } else {
      assert store.assets[assetId := asset] == store.assets;
    }
  }

  method SetDirectAssetPlacement(store: Store, assetId: int, centre: Option<int>) returns (ok: bool)
    modifies store
    ensures ok <==> SetDirect(old(store.View()), assetId, centre).Committed?
    ensures store.View() == After(old(store.View()), SetDirect(old(store.View()), assetId, centre))
  {
    if assetId !in store.assets || store.assets[assetId].archived { return false; }
    if centre.Some? && (centre.value !in store.centres || !store.centres[centre.value]) { return false; }
    store.allocations := store.allocations - {assetId};
    if store.assets[assetId].centre != centre {
      store.assets := store.assets[assetId := store.assets[assetId].(centre := centre)];
    }
    assert store.assets == old(store.assets)[assetId := old(store.assets)[assetId].(centre := centre)];
    return true;
  }

  method UnrackAsset(store: Store, assetId: int) returns (ok: bool)
    modifies store
    ensures ok <==> Unrack(old(store.View()), assetId).Committed?
    ensures store.View() == After(old(store.View()), Unrack(old(store.View()), assetId))
  {
    if assetId !in store.assets { return false; }
    store.allocations := store.allocations - {assetId};
    return true;
  }

  method ClearAssetPlacement(store: Store, assetId: int) returns (ok: bool)
    modifies store
    ensures ok <==> Clear(old(store.View()), assetId).Committed?
    ensures store.View() == After(old(store.View()), Clear(old(store.View()), assetId))
  {
    if assetId !in store.assets || store.assets[assetId].archived { return false; }
    store.allocations := store.allocations - {assetId};
    if store.assets[assetId].centre.Some? {
      store.assets := store.assets[assetId := store.assets[assetId].(centre := None)];
    }
    assert store.assets == old(store.assets)[assetId := old(store.assets)[assetId].(centre := None)];
    return true;
  }

  /** A new hold must lie inside one available range of the rack. */
  method ReserveUnits(store: Store, holdId: int, rackId: int, span: Span) returns (ok: bool)
    requires RacksSound(store.View())
    modifies store
    ensures ok <==> Reserve(old(store.View()), holdId, rackId, span).Committed?
    ensures store.View() == After(old(store.View()), Reserve(old(store.View()), holdId, rackId, span))
  {
    if holdId in store.holds || rackId !in store.racks || span.endU < span.startU { return false; }
    var rack := store.racks[rackId];
    var room := store.rooms[rack.room];
    if rack.status != RackInUse || !room.active || !store.centres[room.centre] { return false; }
    var inside := FitsAvailable(store, rackId, span);
    if !inside { return false; }
    store.holds := store.holds[holdId := UnitHold(rackId, Hold(Active, span), None)];
    return true;
  }

  method FitsAvailable(store: Store, rackId: int, span: Span) returns (inside: bool)
    requires RacksSound(store.View()) && rackId in store.racks && span.startU <= span.endU
    ensures inside <==>
            && InRange(span, store.racks[rackId].totalU)
            && CellsFree(store.View(), rackId, None, span) && !Squeezed(store.View(), rackId, None, span)
  {
    var totalU := store.racks[rackId].totalU;
    var holds, ids := ActiveRackReservations(store, rackId);
    var devices := RackDevices(store, rackId);
    ghost var rows := Rows(devices, None, holds);
    RackRows(store.View(), rackId, devices, ids, holds, None);
    var ranges := RackPositionRanges(devices, totalU, None, holds);
    AvailableMeaning(rows, totalU, span);
    CellsAndSpans(rows, totalU, span);
    inside := exists s | s in ranges.available :: span.startU >= s.startU && span.endU <= s.endU;
  }

  /** A lone cell between two covered ones. */
  ghost predicate Hemmed(rows: seq<Span>, span: Span) {
    span.startU == span.endU && Covers(rows, span.startU - 1) && Covers(rows, span.endU + 1)
  }

  ghost predicate InOneRange(ranges: seq<Span>, span: Span) {
    exists s :: s in ranges && s.startU <= span.startU && span.endU <= s.endU
  }

  lemma AvailableIsFree(rows: seq<Span>, totalU: int, span: Span)
    requires WellPlaced(rows, totalU) && 0 <= totalU && span.startU <= span.endU
    requires InOneRange(Complement(1, Marks(rows), totalU), span)
    ensures InRange(span, totalU) && Free(rows, span) && !Hemmed(rows, span)
  {
    var available := Complement(1, Marks(rows), totalU);
    RangesPartition(rows, totalU);
    CellsAndSpans(rows, totalU, span);
    var s :| s in available && s.startU <= span.startU && span.endU <= s.endU;
    var i :| 0 <= i < |available| && available[i] == s;
    forall u | span.startU <= u <= span.endU ensures !Covers(rows, u) { assert Covers(available, u); }
    assert Covers(available, span.startU);
    GapsExact(rows, totalU, span.startU);
  }

  lemma FreeIsAvailable(rows: seq<Span>, totalU: int, span: Span)
    requires WellPlaced(rows, totalU) && 0 <= totalU && span.startU <= span.endU
    requires InRange(span, totalU) && Free(rows, span) && !Hemmed(rows, span)
    ensures InOneRange(Complement(1, Marks(rows), totalU), span)
  {
    var available := Complement(1, Marks(rows), totalU);
    RangesPartition(rows, totalU);
    CellsAndSpans(rows, totalU, span);
    TargetMeetsGap(rows, totalU, span);
    forall u | span.startU <= u <= span.endU ensures Covers(available, u) {
      forall g | g in GapSpans(SortBy(ByStartThenEnd, rows)) ensures !(g.startU <= u <= g.endU) {
        assert !span.Overlaps(g);
      }
    }
    RunInOneRange(available, totalU, span);
  }

  /** Lying in one available range means: in the rack, on free cells, and not a squeezed cell. */
  lemma AvailableMeaning(rows: seq<Span>, totalU: int, span: Span)
    requires WellPlaced(rows, totalU) && 0 <= totalU && span.startU <= span.endU
    ensures (exists s :: s in Complement(1, Marks(rows), totalU) && s.startU <= span.startU && span.endU <= s.endU) <==>
            InRange(span, totalU) && Free(rows, span) && !Hemmed(rows, span)
  {
    if InOneRange(Complement(1, Marks(rows), totalU), span) {
      AvailableIsFree(rows, totalU, span);
    } else if InRange(span, totalU) && Free(rows, span) && !Hemmed(rows, span) {
      FreeIsAvailable(rows, totalU, span);
    }
  }

  /** A run of available cells cannot straddle two available ranges. */
  lemma RunInOneRange(available: seq<Span>, totalU: int, span: Span)
    requires Separated(0, available, totalU) && span.startU <= span.endU
    requires forall u :: span.startU <= u <= span.endU ==> Covers(available, u)
    ensures exists s :: s in available && s.startU <= span.startU && span.endU <= s.endU
    decreases span.endU - span.startU
  {
    assert Covers(available, span.endU);
    var s :| s in available && s.startU <= span.endU <= s.endU;
    if span.startU < span.endU {
      RunInOneRange(available, totalU, Span(span.startU, span.endU - 1));
      var t :| t in available && t.startU <= span.startU && span.endU - 1 <= t.endU;
      var i, j :| 0 <= i < |available| && 0 <= j < |available| && available[i] == s && available[j] == t;
      assert i == j;
    }
  }

  method ReleaseUnits(store: Store, rackId: int, holdId: int) returns (ok: bool)
    modifies store
    ensures ok <==> Release(old(store.View()), rackId, holdId).Committed?
    ensures store.View() == After(old(store.View()), Release(old(store.View()), rackId, holdId))
  {
    if holdId !in store.holds || store.holds[holdId].rack != rackId { return false; }
    var row := store.holds[holdId];
    if row.hold.status != Active { return false; }
    store.holds := store.holds[holdId := row.(hold := row.hold.(status := Released))];
    return true;
  }

  method ConsumeUnits(store: Store, rackId: int, holdId: int, assetId: int, span: Span) returns (ok: bool)
    modifies store
    ensures ok <==> Consume(old(store.View()), rackId, holdId, assetId, span).Committed?
    ensures store.View() == After(old(store.View()), Consume(old(store.View()), rackId, holdId, assetId, span))
  {
    if holdId !in store.holds || store.holds[holdId].rack != rackId { return false; }
    var row := store.holds[holdId];
    if row.hold.status != Active || row.hold.span != span { return false; }
    store.holds := store.holds[holdId := row.(hold := row.hold.(status := Consumed), consumedBy := Some(assetId))];
    return true;
  }

  /** Consumes the hold first and places then; a refused placement takes both back. */
  method ChangeAssetPlacement(store: Store, assetId: int, target: Option<Allocation>, hold: Option<int>)
    returns (ok: bool)
    requires RacksSound(store.View())
    modifies store
    ensures ok <==> ChangePlacement(old(store.View()), assetId, target, hold).Committed?
    ensures store.View() == After(old(store.View()), ChangePlacement(old(store.View()), assetId, target, hold))
  {
    if assetId !in store.assets || store.assets[assetId].archived { return false; }
    var current := if assetId in store.allocations then Some(store.allocations[assetId]) else None;
    if current == target && hold == None { return true; }
    var saved := store.View();
    if hold.Some? {
      if target == None { return false; }
      var consumed := ConsumeUnits(store, target.value.rack, hold.value, assetId, target.value.span);
      if !consumed { return false; }
      EndHoldKeepsRacks(saved, hold.value,
                        UnitHold(target.value.rack, Hold(Consumed, target.value.span), Some(assetId)));
    }
    if target == None {
      ok := UnrackAsset(store, assetId);
    } else {
      ok := PlaceAsset(store, assetId, target.value.rack, target.value.span);
    }
    if !ok { store.Restore(saved); }
  }

  /** Rewrites the centre copy of every mounted asset whose copy differs. */
  method SynchronizeAssetLocationHierarchy(store: Store, rackIds: set<int>, centre: int)
    modifies store`assets
    ensures store.assets == Relocated(old(store.assets), MountedIn(old(store.View()), rackIds), centre)
  {
    var mounted := set a | a in store.allocations && store.allocations[a].rack in rackIds;
    var todo := mounted;
    while todo != {}
      invariant todo <= mounted
      invariant store.assets == Relocated(old(store.assets), mounted - todo, centre)
      decreases todo
    {
      HasMember(todo);
      var a :| a in todo;
      if a in store.assets && store.assets[a].centre != Some(centre) {
        store.assets := store.assets[a := store.assets[a].(centre := Some(centre))];
      }
      todo := todo - {a};
    }
    assert mounted - {} == MountedIn(old(store.View()), rackIds);
  }

  /** The refusals of the rack form. */
  method CheckRack(store: Store, rackId: int, room: Option<int>, code: int, totalU: int) returns (allowed: bool)
    requires References(store.View())
    ensures forall status :: allowed <==> UpdateRack(store.View(), rackId, room, code, totalU, status).Committed?
  {
    if rackId !in store.racks || totalU < 1 { return false; }
    var rack := store.racks[rackId];
    var target := if room.Some? then room.value else rack.room;
    if target !in store.rooms { return false; }
    if exists a | a in store.allocations ::
         store.allocations[a].rack == rackId && totalU < store.allocations[a].span.endU {
      return false;
    }
    if exists h | h in store.holds :: store.holds[h].rack == rackId && store.holds[h].hold.status == Active
                                      && totalU < store.holds[h].hold.span.endU { return false; }
    if exists r | r in store.racks :: r != rackId && store.racks[r].room == target && store.racks[r].code == code {
      return false;
    }
    return target == rack.room || (store.rooms[target].active && store.centres[store.rooms[target].centre]);
  }

  method SaveRack(store: Store, rackId: int, room: Option<int>, code: int, totalU: int, status: RackStatus)
    returns (ok: bool)
    requires References(store.View())
    modifies store
    ensures ok <==> UpdateRack(old(store.View()), rackId, room, code, totalU, status).Committed?
    ensures store.View() == After(old(store.View()), UpdateRack(old(store.View()), rackId, room, code, totalU, status))
  {
    ok := CheckRack(store, rackId, room, code, totalU);
    assert ok <==> UpdateRack(store.View(), rackId, room, code, totalU, status).Committed?;
    if !ok { return; }
    var before := store.racks[rackId].room;
    var target := if room.Some? then room.value else before;
    store.racks := store.racks[rackId := Rack(target, code, totalU, status)];
    if target != before { SynchronizeAssetLocationHierarchy(store, {rackId}, store.rooms[target].centre); }
  }

  method SaveServerRoom(store: Store, roomId: int, centre: Option<int>, name: int, active: bool, stocked: bool)
    returns (ok: bool)
    modifies store
    ensures ok <==> UpdateRoom(old(store.View()), roomId, centre, name, active, stocked).Committed?
    ensures store.View() ==
              After(old(store.View()), UpdateRoom(old(store.View()), roomId, centre, name, active, stocked))
  {
    if roomId !in store.rooms { return false; }
    var room := store.rooms[roomId];
    var target := if centre.Some? then centre.value else room.centre;
    if target !in store.centres { return false; }
    if exists r | r in store.rooms :: r != roomId && store.rooms[r].centre == target && store.rooms[r].name == name {
      return false;
    }
    if target != room.centre {
      if stocked { return false; }
      if exists t | t in store.tasks :: store.tasks[t].room == Some(roomId) && !store.tasks[t].completed {
        return false;
      }
      if !store.centres[target] { return false; }
    }
    store.rooms := store.rooms[roomId := Room(target, name, active)];
    if target != room.centre {
      var rackIds := set r | r in store.racks && store.racks[r].room == roomId;
      SynchronizeAssetLocationHierarchy(store, rackIds, target);
    }
    return true;
  }
}
