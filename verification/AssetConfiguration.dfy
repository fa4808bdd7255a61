/** An asset's row, its rack position and its person, written in one transaction.

    Models asset creation and edits (backend/assets/asset_writes.py:362-557) with the placement
    part of asset_configuration.py:162-244 and the rules of asset_write_rules.py:79-142, 201-232.
    Both are first given as the source's steps, which may fail half way and then undo everything,
    and then proved equal to one condition on the tables before the call and one change.
 */
module AssetConfiguration {
  import opened RackRanges
  import opened Records
  import opened Placement
  import opened AssetWrites

  /** A change of the person; `known` says that the target person exists and is active. */
  datatype UserChange = UserChange(action: Assignment, known: bool)

  /** What a configuration says about the position: there is no configuration, it leaves the
      position out, it names a rack position, or it blanks every field of it. */
  datatype Position = NotSubmitted | LeftOut | At(target: Allocation) | Blank

  // ---------- the services as steps ----------

  function WithRow(db: Db, assetId: int, row: Asset): Db {
    db.(assets := db.assets[assetId := row])
  }

  /** asset_configuration.py:217-244: the rack, room and centre are tested before the placement. */
  ghost function PutInRack(db: Db, assetId: int, target: Allocation): Outcome {
    if Usable(db, target.rack) then Place(db, assetId, target.rack, target.span) else RolledBack
  }

  function PlaceOf(db: Db, assetId: int): Option<Allocation> {
    if assetId in db.allocations then Some(db.allocations[assetId]) else None
  }

  /** A configuration without a position states the present one again
      (asset_write_rules.py:114-132). */
  ghost function ApplyPosition(db: Db, assetId: int, position: Position): Outcome {
    match position
    case NotSubmitted => Committed(db)
    case LeftOut =>
      if PlaceOf(db, assetId).Some? then PutInRack(db, assetId, PlaceOf(db, assetId).value) else Unrack(db, assetId)
    case At(target) => PutInRack(db, assetId, target)
    case Blank => Unrack(db, assetId)
  }

  function ApplyUser(db: Db, assetId: int, user: Option<UserChange>): Outcome {
    if user == None then Committed(db) else ChangeAssignment(db, assetId, user.value.action, user.value.known)
  }

  /** The position and then the person. */
  ghost function ApplyBoth(db: Db, assetId: int, position: Position, user: Option<UserChange>): Outcome {
    match ApplyPosition(db, assetId, position)
    case RolledBack => RolledBack
    case Committed(db') => ApplyUser(db', assetId, user)
  }

  /** The centre of the rack's room, or the one given when there is no rack position. */
  function HomeCentre(db: Db, centre: Option<int>, place: Option<Allocation>): Option<int> {
    if place.Some? && place.value.rack in db.racks && db.racks[place.value.rack].room in db.rooms
    then Some(db.rooms[db.racks[place.value.rack].room].centre)
    else centre
  }

  function NewRow(db: Db, status: AssetStatus, centre: Option<int>, target: Option<Allocation>): Asset {
    Asset(status, None, None, false, HomeCentre(db, centre, target))
  }

  /** A new asset without a rack position has nothing to unmount. */
  function Requested(target: Option<Allocation>): Position {
    if target == None then Blank else At(target.value)
  }

  predicate CreationAllowed(db: Db, assetId: int, status: AssetStatus, centre: Option<int>) {
    assetId !in db.assets && Restorable(status)
    && (centre.Some? ==> centre.value in db.centres && db.centres[centre.value])
  }

  /** asset_writes.py:399-463 */
  ghost function CreateAsset(db: Db, assetId: int, status: AssetStatus, centre: Option<int>,
                             target: Option<Allocation>, user: Option<UserChange>): Outcome {
    if CreationAllowed(db, assetId, status, centre)
    then ApplyBoth(WithRow(db, assetId, NewRow(db, status, centre, target)), assetId, Requested(target), user)
    else RolledBack
  }

  /** A direct centre must exist and be active or unchanged (asset_writes.py:506-516). */
  predicate CentreSelectable(db: Db, assetId: int, centre: Option<int>)
    requires assetId in db.assets
  {
    centre.Some? ==> centre.value in db.centres && (db.centres[centre.value] || centre == db.assets[assetId].centre)
  }

  /** A direct centre cannot contradict the rack position (asset_write_rules.py:135-142). */
  predicate CentreFitsRack(db: Db, assetId: int, centre: Option<int>) {
    centre == HomeCentre(db, centre, PlaceOf(db, assetId))
  }

  /** The position is left to itself. */
  predicate Untouched(position: Position) {
    position.NotSubmitted? || position.LeftOut?
  }

  predicate CentreAllowed(db: Db, assetId: int, centre: Option<int>, position: Position)
    requires assetId in db.assets
  {
    CentreSelectable(db, assetId, centre) && (Untouched(position) ==> CentreFitsRack(db, assetId, centre))
  }

  predicate StatusAllowed(db: Db, assetId: int, status: AssetStatus, user: Option<UserChange>)
    requires assetId in db.assets
  {
    && DirectTransition(db.assets[assetId].status, status, HasOpenFault(db.faults, assetId))
    && (user.Some? && user.value.action.Transfer? ==> status == db.assets[assetId].status)
  }

  /** The fields of an edit; None for a field that was not submitted. */
  predicate EditAllowed(db: Db, assetId: int, status: Option<AssetStatus>, centre: Option<Option<int>>,
                        position: Position, user: Option<UserChange>) {
    && Current(db, assetId)
    && (centre.Some? ==> CentreAllowed(db, assetId, centre.value, position))
    && (status.Some? ==> StatusAllowed(db, assetId, status.value, user))
  }

  function EditedRow(asset: Asset, status: Option<AssetStatus>, centre: Option<Option<int>>): Asset {
    asset.(status := if status.Some? then status.value else asset.status,
           centre := if centre.Some? then centre.value else asset.centre)
  }

  /** asset_writes.py:466-557: the row, then the position, then the person, or nothing. */
  ghost function EditAsset(db: Db, assetId: int, status: Option<AssetStatus>, centre: Option<Option<int>>,
                           position: Position, user: Option<UserChange>): Outcome {
    if EditAllowed(db, assetId, status, centre, position, user)
    then ApplyBoth(WithRow(db, assetId, EditedRow(db.assets[assetId], status, centre)), assetId, position, user)
    else RolledBack
  }

  // ---------- one condition, one change ----------

  function NextPlace(db: Db, assetId: int, position: Position): Option<Allocation> {
    match position
    case At(target) => Some(target)
    case Blank => None
    case _ => PlaceOf(db, assetId)
  }

  /** The position can be taken by an asset with this row, read off the tables before the call.
      A kept position is only asked whether its rack is still in use. */
  ghost predicate PositionFits(db: Db, assetId: int, row: Asset, position: Position) {
    match position
    case NotSubmitted => true
    case LeftOut => assetId in db.allocations ==> Usable(db, db.allocations[assetId].rack)
    case At(target) => TargetFits(db, assetId, row, target)
    case Blank => true
  }

  ghost predicate TargetFits(db: Db, assetId: int, row: Asset, target: Allocation) {
    && row.status != Retired
    && Usable(db, target.rack)
    && InRange(target.span, db.racks[target.rack].totalU)
    && CellsFree(db, target.rack, Some(assetId), target.span)
    && ((PlaceOf(db, assetId) == Some(target) && row.centre == HomeCentre(db, None, Some(target)))
        || !Squeezed(db, target.rack, Some(assetId), target.span))
  }

  predicate UserFits(row: Asset, openFault: bool, user: Option<UserChange>) {
    user.Some? ==> Assignable(row, openFault, user.value.action, user.value.known)
  }

  function UserRow(row: Asset, user: Option<UserChange>): Asset {
    if user == None then row else Assigned(row, user.value.action)
  }

  /** One asset's row and position replaced, and nothing else. */
  function Configured(db: Db, assetId: int, row: Asset, place: Option<Allocation>): Db {
    db.(assets := db.assets[assetId := row],
        allocations := if place.Some? then db.allocations[assetId := place.value] else db.allocations - {assetId})
  }

  function Homed(db: Db, row: Asset, place: Option<Allocation>): Asset {
    row.(centre := HomeCentre(db, row.centre, place))
  }

  function FinalRow(db: Db, row: Asset, place: Option<Allocation>, user: Option<UserChange>): Asset {
    UserRow(Homed(db, row, place), user)
  }

  // ---------- the steps are that change ----------

  lemma SameCells(db: Db, assetId: int, row: Asset, rackId: int, span: Span)
    ensures CellsFree(WithRow(db, assetId, row), rackId, Some(assetId), span) ==
            CellsFree(db, rackId, Some(assetId), span)
    ensures Squeezed(WithRow(db, assetId, row), rackId, Some(assetId), span) ==
            Squeezed(db, rackId, Some(assetId), span)
  {
    forall u
      ensures Taken(WithRow(db, assetId, row), rackId, Some(assetId), u) == Taken(db, rackId, Some(assetId), u)
    {}
  }

  lemma TargetApplied(db: Db, assetId: int, row: Asset, target: Allocation)
    requires !row.archived && (row.status == Retired ==> assetId !in db.allocations)
    ensures PutInRack(WithRow(db, assetId, row), assetId, target) ==
            if TargetFits(db, assetId, row, target)
            then Committed(Configured(db, assetId, row.(centre := HomeCentre(db, None, Some(target))), Some(target)))
            else RolledBack
  {
    SameCells(db, assetId, row, target.rack, target.span);
    if Usable(db, target.rack) {
      var placed := row.(centre := HomeCentre(db, None, Some(target)));
      assert db.assets[assetId := row][assetId := placed] == db.assets[assetId := placed];
    }
  }

  /** What stands in a rack has its own cells for itself. */
  lemma OwnCells(db: Db, assetId: int)
    requires Inv(db) && assetId in db.allocations
    ensures InRange(db.allocations[assetId].span, db.racks[db.allocations[assetId].rack].totalU)
    ensures CellsFree(db, db.allocations[assetId].rack, Some(assetId), db.allocations[assetId].span)
  {
    var here := db.allocations[assetId];
    forall u | here.span.startU <= u <= here.span.endU ensures !Taken(db, here.rack, Some(assetId), u) {
      OwnCell(db, assetId, u);
    }
  }

  lemma OwnCell(db: Db, assetId: int, u: int)
    requires Geometry(db.racks, db.allocations, db.holds) && assetId in db.allocations
    requires db.allocations[assetId].span.startU <= u <= db.allocations[assetId].span.endU
    ensures !Taken(db, db.allocations[assetId].rack, Some(assetId), u)
  {
    var here := db.allocations[assetId];
    if h :| h in db.holds && db.holds[h].rack == here.rack && db.holds[h].hold.status == Active
            && db.holds[h].hold.span.startU <= u <= db.holds[h].hold.span.endU {
      assert ActiveHold(db.holds, h) && here.span.Overlaps(db.holds[h].hold.span);
      assert false;
    }
  }

  /** A configuration that leaves the position out writes nothing but may be refused. */
  lemma KeptApplied(db: Db, assetId: int, row: Asset)
    requires Inv(db) && !row.archived && (row.status == Retired ==> assetId !in db.allocations)
    requires CentreFitsRack(db, assetId, row.centre)
    ensures ApplyPosition(WithRow(db, assetId, row), assetId, LeftOut) ==
            if PositionFits(db, assetId, row, LeftOut)
            then Committed(Configured(db, assetId, row, PlaceOf(db, assetId))) else RolledBack
  {
    if assetId in db.allocations {
      OwnCells(db, assetId);
      TargetApplied(db, assetId, row, db.allocations[assetId]);
    }
  }

  lemma SamePlace(db: Db, assetId: int, row: Asset)
    ensures Configured(db, assetId, row, PlaceOf(db, assetId)) == WithRow(db, assetId, row)
  {
    if assetId in db.allocations {
      assert db.allocations[assetId := db.allocations[assetId]] == db.allocations;
    } else {
      assert db.allocations - {assetId} == db.allocations;
    }
  }

  lemma PositionApplied(db: Db, assetId: int, row: Asset, position: Position)
    requires Inv(db) && !row.archived && (row.status == Retired ==> assetId !in db.allocations)
    requires Untouched(position) ==> CentreFitsRack(db, assetId, row.centre)
    ensures var place := NextPlace(db, assetId, position);
            ApplyPosition(WithRow(db, assetId, row), assetId, position) ==
            if PositionFits(db, assetId, row, position)
            then Committed(Configured(db, assetId, Homed(db, row, place), place)) else RolledBack
  {
    match position
    case NotSubmitted => SamePlace(db, assetId, row);
    case LeftOut => KeptApplied(db, assetId, row);
    case At(target) => TargetApplied(db, assetId, row, target);
    case Blank =>
  }

  lemma UserApplied(db: Db, assetId: int, row: Asset, place: Option<Allocation>, user: Option<UserChange>)
    requires !row.archived
    ensures ApplyUser(Configured(db, assetId, Homed(db, row, place), place), assetId, user) ==
            if UserFits(row, HasOpenFault(db.faults, assetId), user)
            then Committed(Configured(db, assetId, FinalRow(db, row, place, user), place)) else RolledBack
  {
    var next := FinalRow(db, row, place, user);
    assert db.assets[assetId := Homed(db, row, place)][assetId := next] == db.assets[assetId := next];
  }

  lemma BothApplied(db: Db, assetId: int, row: Asset, position: Position, user: Option<UserChange>)
    requires Inv(db) && !row.archived && (row.status == Retired ==> assetId !in db.allocations)
    requires Untouched(position) ==> CentreFitsRack(db, assetId, row.centre)
    ensures var place := NextPlace(db, assetId, position);
            ApplyBoth(WithRow(db, assetId, row), assetId, position, user) ==
            if PositionFits(db, assetId, row, position) && UserFits(row, HasOpenFault(db.faults, assetId), user)
            then Committed(Configured(db, assetId, FinalRow(db, row, place, user), place)) else RolledBack
  {
    PositionApplied(db, assetId, row, position);
    UserApplied(db, assetId, row, NextPlace(db, assetId, position), user);
  }

  /** A creation commits exactly when the row, the target position and the person are each
      acceptable, read off the tables before the call, and then inserts one row and one position. */
  lemma CreateIsOneInsert(db: Db, assetId: int, status: AssetStatus, centre: Option<int>,
                          target: Option<Allocation>, user: Option<UserChange>)
    requires Inv(db)
    ensures var row := NewRow(db, status, centre, target);
            CreateAsset(db, assetId, status, centre, target, user) ==
            if && CreationAllowed(db, assetId, status, centre)
               && (target.Some? ==> TargetFits(db, assetId, row, target.value))
               && UserFits(row, false, user)
            then Committed(Configured(db, assetId, UserRow(row, user), target)) else RolledBack
  {
    if CreationAllowed(db, assetId, status, centre) {
      assert !HasOpenFault(db.faults, assetId);
      BothApplied(db, assetId, NewRow(db, status, centre, target), Requested(target), user);
    }
  }

  lemma PresentCentreFits(db: Db, assetId: int)
    requires Inv(db) && assetId in db.assets
    ensures CentreFitsRack(db, assetId, db.assets[assetId].centre)
  {}

  /** An edit commits exactly when its fields, its position and its person are each acceptable,
      and then replaces one row and one position. */
  lemma EditIsOneChange(db: Db, assetId: int, status: Option<AssetStatus>, centre: Option<Option<int>>,
                        position: Position, user: Option<UserChange>)
    requires Inv(db)
    ensures EditAsset(db, assetId, status, centre, position, user) ==
            if EditAllowed(db, assetId, status, centre, position, user)
            then
              var row := EditedRow(db.assets[assetId], status, centre);
              var place := NextPlace(db, assetId, position);
              if PositionFits(db, assetId, row, position) && UserFits(row, HasOpenFault(db.faults, assetId), user)
              then Committed(Configured(db, assetId, FinalRow(db, row, place, user), place)) else RolledBack
            else RolledBack
  {
    if EditAllowed(db, assetId, status, centre, position, user) {
      PresentCentreFits(db, assetId);
      BothApplied(db, assetId, EditedRow(db.assets[assetId], status, centre), position, user);
    }
  }

  /** An edit of supporting fields alone changes no table here, and the asset's own rack position
      can refuse it: exactly when the rack, its room or its centre is no longer in use. */
  lemma SupportingEdit(db: Db, assetId: int)
    requires Inv(db)
    ensures EditAsset(db, assetId, None, None, LeftOut, None) ==
            if Current(db, assetId) && (assetId in db.allocations ==> Usable(db, db.allocations[assetId].rack))
            then Committed(db) else RolledBack
  {
    EditIsOneChange(db, assetId, None, None, LeftOut, None);
    if Current(db, assetId) {
      PresentCentreFits(db, assetId);
      SamePlace(db, assetId, db.assets[assetId]);
      assert db.assets[assetId := db.assets[assetId]] == db.assets;
    }
  }

  // ---------- every commit keeps the invariants ----------

  lemma NewRowFits(db: Db, assetId: int, row: Asset)
    requires References(db) && assetId !in db.assets && Restorable(row.status) && row.beforeRepair == None
    requires FaultStatusSynced(db.assets, db.faults) && RetirementFinal(db.assets, db.allocations, db.disposals)
    requires CentresSynced(db.rooms, db.racks, db.assets, db.allocations)
    ensures FaultStatusSynced(db.assets[assetId := row], db.faults)
    ensures RetirementFinal(db.assets[assetId := row], db.allocations, db.disposals)
    ensures CentresSynced(db.rooms, db.racks, db.assets[assetId := row], db.allocations)
  {
    assert !HasOpenFault(db.faults, assetId);
  }

  lemma NewRowKeepsInv(db: Db, assetId: int, row: Asset)
    requires Inv(db) && assetId !in db.assets && Restorable(row.status) && row.beforeRepair == None && !row.archived
    ensures Inv(WithRow(db, assetId, row))
  {
    AssetRowReferences(db, assetId, row);
    AssetRowArchive(db, assetId, row);
    NewRowFits(db, assetId, row);
  }

  /** The place, if any, is inside its rack and clear of everything else, and the row's centre is
      its centre. */
  ghost predicate PlaceSound(db: Db, assetId: int, row: Asset, place: Option<Allocation>) {
    place.Some? ==>
      && row.status != Retired
      && place.value.rack in db.racks && db.racks[place.value.rack].room in db.rooms
      && InRange(place.value.span, db.racks[place.value.rack].totalU)
      && ClearOf(db, place.value.rack, Some(assetId), place.value.span)
      && row.centre == Some(db.rooms[db.racks[place.value.rack].room].centre)
  }

  /** With this row and some centre the asset stays consistent where it is. */
  ghost predicate RowSound(db: Db, assetId: int, row: Asset, centre: Option<int>) {
    Inv(WithRow(db, assetId, row.(centre := centre))) && !row.archived
  }

  lemma MountedKeepsInv(db: Db, assetId: int, row: Asset, centre: Option<int>, place: Allocation)
    requires RowSound(db, assetId, row, centre) && PlaceSound(db, assetId, row, Some(place))
    ensures Inv(Configured(db, assetId, row, Some(place)))
  {
    var written := WithRow(db, assetId, row.(centre := centre));
    assert written.assets[assetId := row] == db.assets[assetId := row];
    MountKeepsInv(written, assetId, place.rack, place.span);
    assert Mount(written, assetId, place.rack, place.span) == Configured(db, assetId, row, Some(place));
  }

  lemma UnmountedKeepsInv(db: Db, assetId: int, row: Asset, centre: Option<int>)
    requires RowSound(db, assetId, row, centre)
    ensures Inv(Configured(db, assetId, row, None))
  {
    var written := WithRow(db, assetId, row.(centre := centre));
    var assets := db.assets[assetId := row];
    assert OnlyCentres(written.assets, assets);
    UnmountKeepsInv(written, assetId, assets);
    assert written.(allocations := written.allocations - {assetId}, assets := assets) ==
           Configured(db, assetId, row, None);
  }

  /** The row is written first with a centre that agrees with the old position, then moved. */
  lemma ConfiguredKeepsInv(db: Db, assetId: int, row: Asset, centre: Option<int>, place: Option<Allocation>)
    requires RowSound(db, assetId, row, centre) && PlaceSound(db, assetId, row, place)
    ensures Inv(Configured(db, assetId, row, place))
  {
    if place.Some? {
      MountedKeepsInv(db, assetId, row, centre, place.value);
    } else {
      UnmountedKeepsInv(db, assetId, row, centre);
    }
  }

  lemma FitsIsSound(db: Db, assetId: int, row: Asset, position: Position, user: Option<UserChange>)
    requires Inv(db) && PositionFits(db, assetId, row, position)
    requires UserFits(row, HasOpenFault(db.faults, assetId), user)
    requires row.status == Retired ==> assetId !in db.allocations
    ensures var place := NextPlace(db, assetId, position);
            PlaceSound(db, assetId, FinalRow(db, row, place, user), place)
  {
    var place := NextPlace(db, assetId, position);
    if place.Some? {
      if Untouched(position) { OwnCells(db, assetId); }
      FreeOfRows(db, place.value.rack, Some(assetId), place.value.span);
    }
  }

  lemma SettledKeepsInv(db: Db, assetId: int, row: Asset, centre: Option<int>, position: Position,
                        user: Option<UserChange>)
    requires Inv(db) && (row.status == Retired ==> assetId !in db.allocations)
    requires PositionFits(db, assetId, row, position) && UserFits(row, HasOpenFault(db.faults, assetId), user)
    requires RowSound(db, assetId, FinalRow(db, row, NextPlace(db, assetId, position), user), centre)
    ensures var place := NextPlace(db, assetId, position);
            Inv(Configured(db, assetId, FinalRow(db, row, place, user), place))
  {
    var place := NextPlace(db, assetId, position);
    FitsIsSound(db, assetId, row, position, user);
    ConfiguredKeepsInv(db, assetId, FinalRow(db, row, place, user), centre, place);
  }

  lemma CreateAssetKeepsInv(db: Db, assetId: int, status: AssetStatus, centre: Option<int>, target: Option<Allocation>,
                            user: Option<UserChange>)
    requires Inv(db)
    ensures Inv(After(db, CreateAsset(db, assetId, status, centre, target, user)))
  {
    var row := NewRow(db, status, centre, target);
    CreateIsOneInsert(db, assetId, status, centre, target, user);
    if CreateAsset(db, assetId, status, centre, target, user).Committed? {
      assert !HasOpenFault(db.faults, assetId);
      NewRowKeepsInv(db, assetId, UserRow(row, user));
      SettledKeepsInv(db, assetId, row, row.centre, Requested(target), user);
    }
  }

  /** A change of the row that crosses none of the borders drawn by faults and disposals. */
  predicate SameStanding(before: Asset, after: Asset) {
    && after.beforeRepair == before.beforeRepair && after.archived == before.archived
    && (after.status == Repair <==> before.status == Repair)
    && (after.status == Retired <==> before.status == Retired)
    && (after.status == Retired ==> after.person == before.person)
  }

  lemma EditedStanding(asset: Asset, openFault: bool, status: Option<AssetStatus>, centre: Option<Option<int>>)
    requires status.Some? ==> DirectTransition(asset.status, status.value, openFault)
    ensures SameStanding(asset, EditedRow(asset, status, centre))
  {}

  lemma FinalStanding(db: Db, row: Asset, openFault: bool, place: Option<Allocation>, user: Option<UserChange>)
    requires UserFits(row, openFault, user) && (row.status == Retired ==> row.person == None)
    ensures SameStanding(row, FinalRow(db, row, place, user))
  {}

  lemma StandingIsSound(db: Db, assetId: int, row: Asset)
    requires Inv(db) && Current(db, assetId) && SameStanding(db.assets[assetId], row)
    ensures RowSound(db, assetId, row, db.assets[assetId].centre)
  {
    AssetRowKeepsInv(db, assetId, row.(centre := db.assets[assetId].centre));
  }

  lemma EditedStands(db: Db, assetId: int, status: Option<AssetStatus>, centre: Option<Option<int>>,
                     position: Position, user: Option<UserChange>)
    requires Inv(db) && EditAllowed(db, assetId, status, centre, position, user)
    requires UserFits(EditedRow(db.assets[assetId], status, centre), HasOpenFault(db.faults, assetId), user)
    ensures SameStanding(db.assets[assetId], EditedRow(db.assets[assetId], status, centre))
    ensures SameStanding(db.assets[assetId], FinalRow(db, EditedRow(db.assets[assetId], status, centre),
                                                      NextPlace(db, assetId, position), user))
  {
    var row := EditedRow(db.assets[assetId], status, centre);
    EditedStanding(db.assets[assetId], HasOpenFault(db.faults, assetId), status, centre);
    FinalStanding(db, row, HasOpenFault(db.faults, assetId), NextPlace(db, assetId, position), user);
  }

  lemma EditedSound(db: Db, assetId: int, status: Option<AssetStatus>, centre: Option<Option<int>>,
                    position: Position, user: Option<UserChange>)
    requires Inv(db) && EditAllowed(db, assetId, status, centre, position, user)
    requires UserFits(EditedRow(db.assets[assetId], status, centre), HasOpenFault(db.faults, assetId), user)
    ensures var row := EditedRow(db.assets[assetId], status, centre);
            && (row.status == Retired ==> assetId !in db.allocations)
            && RowSound(db, assetId, FinalRow(db, row, NextPlace(db, assetId, position), user),
                        db.assets[assetId].centre)
  {
    EditedStands(db, assetId, status, centre, position, user);
    StandingIsSound(db, assetId, FinalRow(db, EditedRow(db.assets[assetId], status, centre),
                                          NextPlace(db, assetId, position), user));
  }

  lemma EditedKeepsInv(db: Db, assetId: int, status: Option<AssetStatus>, centre: Option<Option<int>>,
                       position: Position, user: Option<UserChange>)
    requires Inv(db) && EditAllowed(db, assetId, status, centre, position, user)
    requires PositionFits(db, assetId, EditedRow(db.assets[assetId], status, centre), position)
    requires UserFits(EditedRow(db.assets[assetId], status, centre), HasOpenFault(db.faults, assetId), user)
    ensures var place := NextPlace(db, assetId, position);
            Inv(Configured(db, assetId, FinalRow(db, EditedRow(db.assets[assetId], status, centre), place, user),
                           place))
  {
    EditedSound(db, assetId, status, centre, position, user);
    SettledKeepsInv(db, assetId, EditedRow(db.assets[assetId], status, centre), db.assets[assetId].centre, position,
                    user);
  }

  lemma EditAssetKeepsInv(db: Db, assetId: int, status: Option<AssetStatus>, centre: Option<Option<int>>,
                          position: Position, user: Option<UserChange>)
    requires Inv(db)
    ensures Inv(After(db, EditAsset(db, assetId, status, centre, position, user)))
  {
    EditIsOneChange(db, assetId, status, centre, position, user);
    if EditAsset(db, assetId, status, centre, position, user).Committed? {
      EditedKeepsInv(db, assetId, status, centre, position, user);
    }
  }

  // ---------- the services, step by step ----------

  /** `_apply_assignment` */
  method ApplyUserChange(store: Store, assetId: int, user: Option<UserChange>) returns (ok: bool)
    modifies store
    ensures ok <==> ApplyUser(old(store.View()), assetId, user).Committed?
    ensures store.View() == After(old(store.View()), ApplyUser(old(store.View()), assetId, user))
  {
    if user == None { return true; }
    ok := ChangeAssetAssignment(store, assetId, user.value.action, user.value.known);
  }

  /** The placement part of `configure_asset`. */
  method ConfigurePosition(store: Store, assetId: int, position: Position) returns (ok: bool)
    requires RacksSound(store.View())
    modifies store
    ensures ok <==> ApplyPosition(old(store.View()), assetId, position).Committed?
    ensures store.View() == After(old(store.View()), ApplyPosition(old(store.View()), assetId, position))
  {
    if position.NotSubmitted? { return true; }
    var target: Option<Allocation> := None;
    if position.At? {
      target := Some(position.target);
    } else if position.LeftOut? && assetId in store.allocations {
      target := Some(store.allocations[assetId]);
    }
    if target == None {
      ok := UnrackAsset(store, assetId);
      return;
    }
    if target.value.rack !in store.racks { return false; }
    var rack := store.racks[target.value.rack];
    var room := store.rooms[rack.room];
    if !store.centres[room.centre] || !room.active || rack.status != RackInUse { return false; }
    ok := PlaceAsset(store, assetId, target.value.rack, target.value.span);
  }

  lemma RowKeepsRacks(db: Db, assetId: int, row: Asset)
    requires RacksSound(db)
    ensures RacksSound(WithRow(db, assetId, row))
  {}

  /** The rest of the transaction once the row is saved; `saved` is what a rollback brings back. */
  method SaveConfiguration(store: Store, saved: Db, assetId: int, position: Position, user: Option<UserChange>)
    returns (ok: bool)
    requires RacksSound(store.View())
    modifies store
    ensures ok <==> ApplyBoth(old(store.View()), assetId, position, user).Committed?
    ensures store.View() == After(saved, ApplyBoth(old(store.View()), assetId, position, user))
  {
    ok := ConfigurePosition(store, assetId, position);
    if ok { ok := ApplyUserChange(store, assetId, user); }
    if !ok { store.Restore(saved); }
  }

  /** The checks before the insert; a missing rack is refused here already. */
  method CheckCreation(store: Store, assetId: int, status: AssetStatus, centre: Option<int>,
                       target: Option<Allocation>)
    returns (allowed: bool, home: Option<int>)
    requires RacksSound(store.View())
    ensures allowed <==> CreationAllowed(store.View(), assetId, status, centre)
                         && (target.Some? ==> target.value.rack in store.racks)
    ensures home == if allowed then HomeCentre(store.View(), centre, target) else None
  {
    if assetId in store.assets || status == Repair || status == Retired { return false, None; }
    if centre.Some? && (centre.value !in store.centres || !store.centres[centre.value]) { return false, None; }
    if target == None { return true, centre; }
    if target.value.rack !in store.racks { return false, None; }
    return true, Some(store.rooms[store.racks[target.value.rack].room].centre);
  }

  lemma RackMustExist(db: Db, assetId: int, status: AssetStatus, centre: Option<int>, target: Option<Allocation>,
                      user: Option<UserChange>)
    requires !CreationAllowed(db, assetId, status, centre) || (target.Some? && target.value.rack !in db.racks)
    ensures CreateAsset(db, assetId, status, centre, target, user) == RolledBack
  {}

  method AddAsset(store: Store, assetId: int, status: AssetStatus, centre: Option<int>, target: Option<Allocation>,
                  user: Option<UserChange>)
    returns (ok: bool)
    requires RacksSound(store.View())
    modifies store
    ensures ok <==> CreateAsset(old(store.View()), assetId, status, centre, target, user).Committed?
    ensures store.View() ==
              After(old(store.View()), CreateAsset(old(store.View()), assetId, status, centre, target, user))
  {
    var allowed, home := CheckCreation(store, assetId, status, centre, target);
    if !allowed {
      RackMustExist(store.View(), assetId, status, centre, target, user);
      return false;
    }
    var saved := store.View();
    store.assets := store.assets[assetId := Asset(status, None, None, false, home)];
    assert store.View() == WithRow(saved, assetId, NewRow(saved, status, centre, target));
    RowKeepsRacks(saved, assetId, NewRow(saved, status, centre, target));
    ok := SaveConfiguration(store, saved, assetId, if target == None then Blank else At(target.value), user);
  }

  method CheckCentre(store: Store, assetId: int, centre: Option<int>, position: Position) returns (allowed: bool)
    requires assetId in store.assets
    ensures allowed <==> CentreAllowed(store.View(), assetId, centre, position)
  {
    if centre.Some? {
      if centre.value !in store.centres { return false; }
      if !store.centres[centre.value] && centre != store.assets[assetId].centre { return false; }
    }
    if !(position.NotSubmitted? || position.LeftOut?) || assetId !in store.allocations { return true; }
    var rackId := store.allocations[assetId].rack;
    if rackId !in store.racks || store.racks[rackId].room !in store.rooms { return true; }
    return centre == Some(store.rooms[store.racks[rackId].room].centre);
  }

  method CheckStatus(store: Store, assetId: int, status: AssetStatus, user: Option<UserChange>) returns (allowed: bool)
    requires assetId in store.assets
    ensures allowed <==> StatusAllowed(store.View(), assetId, status, user)
  {
    var current := store.assets[assetId].status;
    if status == current { return true; }
    if user.Some? && user.value.action.Transfer? { return false; }
    if status == Retired || current == Retired || current == Repair || status == Repair { return false; }
    if exists f | f in store.faults :: store.faults[f].asset == assetId && !store.faults[f].closed { return false; }
    return true;
  }

  method CheckEdit(store: Store, assetId: int, status: Option<AssetStatus>, centre: Option<Option<int>>,
                   position: Position, user: Option<UserChange>)
    returns (allowed: bool)
    ensures allowed <==> EditAllowed(store.View(), assetId, status, centre, position, user)
  {
    if assetId !in store.assets || store.assets[assetId].archived { return false; }
    if centre.Some? {
      allowed := CheckCentre(store, assetId, centre.value, position);
      if !allowed { return; }
    }
    if status == None { return true; }
    allowed := CheckStatus(store, assetId, status.value, user);
  }

  method UpdateAssetRow(store: Store, assetId: int, status: Option<AssetStatus>, centre: Option<Option<int>>,
                        position: Position, user: Option<UserChange>)
    returns (ok: bool)
    requires RacksSound(store.View())
    modifies store
    ensures ok <==> EditAsset(old(store.View()), assetId, status, centre, position, user).Committed?
    ensures store.View() ==
              After(old(store.View()), EditAsset(old(store.View()), assetId, status, centre, position, user))
  {
    var allowed := CheckEdit(store, assetId, status, centre, position, user);
    if !allowed { return false; }
    var saved := store.View();
    var asset := store.assets[assetId];
    if status.Some? { asset := asset.(status := status.value); }
    if centre.Some? { asset := asset.(centre := centre.value); }
    store.assets := store.assets[assetId := asset];
    assert store.View() == WithRow(saved, assetId, EditedRow(saved.assets[assetId], status, centre));
    RowKeepsRacks(saved, assetId, EditedRow(saved.assets[assetId], status, centre));
    ok := SaveConfiguration(store, saved, assetId, position, user);
  }
}
