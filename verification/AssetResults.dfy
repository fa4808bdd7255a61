/** What a committed asset write leaves behind, said of the asset's row and position alone, and when
    a current asset can be assigned, disposed of or archived.

    Covers backend/assets/asset_writes.py:131-364, 399-616 and lifecycle.py:58-218.
 */
module AssetResults {
  import opened RackRanges
  import opened Records
  import opened Placement
  import opened Repairs
  import opened AssetWrites
  import opened AssetConfiguration

  // ---------- responsibility ----------

  /** The row once the person was changed. */
  predicate PersonChanged(before: Asset, action: Assignment, after: Asset) {
    && after == before.(person := after.person, status := after.status)
    && match action
       case Assign(person) => after.person == Some(person) && after.status == InUse
       case Return => after.person == None && after.status == InStock
       case Transfer(person) => after.person == Some(person) && after.status == before.status
  }

  /** The action fits who holds the asset now. */
  predicate Fitting(asset: Asset, action: Assignment, known: bool) {
    match action
    case Assign(_) => asset.person == None && asset.status != Retired && known
    case Return => asset.person.Some?
    case Transfer(person) => asset.person.Some? && asset.person.value != person && known
  }

  /** A person is changed exactly on a current asset that is not in repair, if the action fits, and
      then on this asset alone. */
  lemma AssignmentChanges(db: Db, assetId: int, action: Assignment, known: bool)
    requires Inv(db)
    ensures var outcome := ChangeAssignment(db, assetId, action, known);
            && (outcome.Committed? <==>
                 Current(db, assetId) && db.assets[assetId].status != AssetStatus.Repair
                 && Fitting(db.assets[assetId], action, known))
            && (outcome.Committed? ==>
                 assetId in outcome.db.assets
                 && outcome.db == db.(assets := db.assets[assetId := outcome.db.assets[assetId]])
                 && PersonChanged(db.assets[assetId], action, outcome.db.assets[assetId]))
  {}

  // ---------- creation and edits ----------

  /** The asset stands where the position says, or where it stood. */
  ghost predicate Stands(db: Db, assetId: int, position: Position, after: map<int, Allocation>) {
    match position
    case At(target) => after == db.allocations[assetId := target]
    case Blank => after == db.allocations - {assetId}
    case _ => after == db.allocations
  }

  /** The row after an edit: each field is the submitted one, or the present one, unless the change
      of the person or the rack decides it. */
  predicate RowEdited(before: Asset, status: Option<AssetStatus>, user: Option<UserChange>, after: Asset) {
    && after.beforeRepair == before.beforeRepair && after.archived == before.archived
    && (user == None ==> after.person == before.person)
    && (user.Some? ==> PersonChanged(before.(status := after.status), user.value.action,
                                     after.(beforeRepair := before.beforeRepair, centre := before.centre)))
    && (user == None || user.value.action.Transfer? ==> status.Some? ==> after.status == status.value)
    && (user == None || user.value.action.Transfer? ==> status == None ==> after.status == before.status)
  }

  /** The centre after an edit: that of the rack, or the submitted one, or the present one. */
  ghost predicate CentreEdited(db: Db, assetId: int, centre: Option<Option<int>>, after: Db) {
    assetId in db.assets && assetId in after.assets &&
    if assetId in after.allocations then
      && after.allocations[assetId].rack in db.racks && db.racks[after.allocations[assetId].rack].room in db.rooms
      && after.assets[assetId].centre == Some(db.rooms[db.racks[after.allocations[assetId].rack].room].centre)
    else after.assets[assetId].centre == (if centre.Some? then centre.value else db.assets[assetId].centre)
  }

  lemma AssetEdited(db: Db, assetId: int, status: Option<AssetStatus>, centre: Option<Option<int>>, position: Position,
                    user: Option<UserChange>)
    requires Inv(db) && EditAsset(db, assetId, status, centre, position, user).Committed?
    ensures var after := EditAsset(db, assetId, status, centre, position, user).db;
            && assetId in db.assets && assetId in after.assets
            && after == db.(assets := db.assets[assetId := after.assets[assetId]], allocations := after.allocations)
            && Stands(db, assetId, position, after.allocations)
            && RowEdited(db.assets[assetId], status, user, after.assets[assetId])
            && CentreEdited(db, assetId, centre, after)
  {
    EditIsOneChange(db, assetId, status, centre, position, user);
    SamePlace(db, assetId, db.assets[assetId]);
  }

  /** A new asset has the submitted status or that of its user, stands at the target, and belongs to
      the centre of its rack or the one submitted. */
  lemma AssetCreated(db: Db, assetId: int, status: AssetStatus, centre: Option<int>, target: Option<Allocation>,
                     user: Option<UserChange>)
    requires Inv(db) && CreateAsset(db, assetId, status, centre, target, user).Committed?
    ensures var after := CreateAsset(db, assetId, status, centre, target, user).db;
            && assetId !in db.assets && assetId in after.assets
            && after == db.(assets := db.assets[assetId := after.assets[assetId]], allocations := after.allocations)
            && after.allocations == (if target.Some? then db.allocations[assetId := target.value] else db.allocations)
            && after.assets[assetId] ==
               (if user == None then Asset(status, None, None, false, after.assets[assetId].centre)
                else Asset(InUse, None, Some(user.value.action.person), false, after.assets[assetId].centre))
            && (target == None ==> after.assets[assetId].centre == centre)
            && (target.Some? ==>
                  target.value.rack in db.racks && db.racks[target.value.rack].room in db.rooms
                  && after.assets[assetId].centre == Some(db.rooms[db.racks[target.value.rack].room].centre))
  {
    CreateIsOneInsert(db, assetId, status, centre, target, user);
    SamePlace(db, assetId, NewRow(db, status, centre, target));
  }

  /** A rack in use, in an active room of an active centre. */
  predicate InService(db: Db, rackId: int) {
    && rackId in db.racks && db.racks[rackId].status == RackInUse
    && db.racks[rackId].room in db.rooms && db.rooms[db.racks[rackId].room].active
    && db.rooms[db.racks[rackId].room].centre in db.centres && db.centres[db.rooms[db.racks[rackId].room].centre]
  }

  /** The cells can be taken by the asset: inside a rack in service, free of everyone else, and no
      squeezed single cell. */
  ghost predicate CanStand(db: Db, assetId: int, target: Allocation) {
    && InService(db, target.rack) && InRange(target.span, db.racks[target.rack].totalU)
    && CellsFree(db, target.rack, Some(assetId), target.span)
    && !Squeezed(db, target.rack, Some(assetId), target.span)
  }

  predicate CentreExists(db: Db, centre: Option<int>, present: Option<int>) {
    centre.Some? ==> centre.value in db.centres && (db.centres[centre.value] || centre == present)
  }

  /** A creation is accepted exactly for a new key, a status that needs no history, an active centre,
      a position that can be taken, and a person who can be given the asset. */
  lemma AssetCreateIff(db: Db, assetId: int, status: AssetStatus, centre: Option<int>, target: Option<Allocation>,
                       user: Option<UserChange>)
    requires Inv(db)
    ensures CreateAsset(db, assetId, status, centre, target, user).Committed? <==>
            && assetId !in db.assets && status != AssetStatus.Repair && status != Retired
            && (centre.Some? ==> centre.value in db.centres && db.centres[centre.value])
            && (target.Some? ==> CanStand(db, assetId, target.value))
            && (user.Some? ==> user.value.action.Assign? && user.value.known)
  {
    CreateIsOneInsert(db, assetId, status, centre, target, user);
    if target.Some? { InServiceIsUsable(db, target.value.rack); }
  }

  lemma InServiceIsUsable(db: Db, rackId: int)
    ensures InService(db, rackId) == Usable(db, rackId)
  {}

  /** The edit's own fields: a status that needs no fault and no disposal, and not together with a
      transfer; a centre that exists and does not contradict a position that stays. */
  predicate FieldsAccepted(db: Db, assetId: int, status: Option<AssetStatus>, centre: Option<Option<int>>,
                           position: Position, user: Option<UserChange>)
    requires assetId in db.assets
  {
    var asset := db.assets[assetId];
    && (status.Some? && status.value != asset.status ==>
          Restorable(status.value) && Restorable(asset.status)
          && !(user.Some? && user.value.action.Transfer?))
    && (centre.Some? ==>
          CentreExists(db, centre.value, asset.centre)
          && ((position.NotSubmitted? || position.LeftOut?) && assetId in db.allocations ==>
                centre.value == asset.centre))
  }

  /** The position: one that is left out is stated again and needs its rack in service; a new one
      must be free, and the present one is kept even if it is a squeezed cell. */
  ghost predicate PositionAccepted(db: Db, assetId: int, status: Option<AssetStatus>, centre: Option<Option<int>>,
                                   position: Position)
    requires assetId in db.assets
  {
    && (position.LeftOut? && assetId in db.allocations ==> InService(db, db.allocations[assetId].rack))
    && (position.At? ==>
          var target := position.target;
          && db.assets[assetId].status != Retired
          && (CanStand(db, assetId, target)
              || (InService(db, target.rack) && assetId in db.allocations && db.allocations[assetId] == target
                  && (centre == None || centre.value == db.assets[assetId].centre))))
  }

  /** An edit is accepted exactly when the asset is current and its fields, its position and its
      person are each acceptable. */
  lemma AssetEditIff(db: Db, assetId: int, status: Option<AssetStatus>, centre: Option<Option<int>>, position: Position,
                     user: Option<UserChange>)
    requires Inv(db)
    ensures EditAsset(db, assetId, status, centre, position, user).Committed? <==>
            && Current(db, assetId)
            && FieldsAccepted(db, assetId, status, centre, position, user)
            && PositionAccepted(db, assetId, status, centre, position)
            && (user.Some? ==>
                 db.assets[assetId].status != AssetStatus.Repair
                 && Fitting(db.assets[assetId], user.value.action, user.value.known))
  {
    EditIsOneChange(db, assetId, status, centre, position, user);
    if Current(db, assetId) {
      FieldsAre(db, assetId, status, centre, position, user);
      if FieldsAccepted(db, assetId, status, centre, position, user) {
        PositionIs(db, assetId, status, centre, position);
        UserIs(db, assetId, status, centre, user);
      }
    }
  }

  lemma FieldsAre(db: Db, assetId: int, status: Option<AssetStatus>, centre: Option<Option<int>>, position: Position,
                  user: Option<UserChange>)
    requires Inv(db) && Current(db, assetId)
    ensures EditAllowed(db, assetId, status, centre, position, user) <==>
            FieldsAccepted(db, assetId, status, centre, position, user)
  {
    PresentCentreFits(db, assetId);
  }

  lemma PositionIs(db: Db, assetId: int, status: Option<AssetStatus>, centre: Option<Option<int>>, position: Position)
    requires Inv(db) && assetId in db.assets
    requires status.Some? && status.value != db.assets[assetId].status ==>
               Restorable(status.value) && Restorable(db.assets[assetId].status)
    ensures PositionFits(db, assetId, EditedRow(db.assets[assetId], status, centre), position) <==>
            PositionAccepted(db, assetId, status, centre, position)
  {
    if position.At? {
      InServiceIsUsable(db, position.target.rack);
      if assetId in db.allocations && db.allocations[assetId] == position.target {
        OwnCells(db, assetId);
        PresentCentreFits(db, assetId);
      }
    } else if assetId in db.allocations {
      InServiceIsUsable(db, db.allocations[assetId].rack);
    }
  }

  lemma UserIs(db: Db, assetId: int, status: Option<AssetStatus>, centre: Option<Option<int>>, user: Option<UserChange>)
    requires Inv(db) && assetId in db.assets
    requires status.Some? && status.value != db.assets[assetId].status ==>
               Restorable(status.value) && Restorable(db.assets[assetId].status)
    ensures UserFits(EditedRow(db.assets[assetId], status, centre), HasOpenFault(db.faults, assetId), user) <==>
            (user.Some? ==>
               db.assets[assetId].status != AssetStatus.Repair
               && Fitting(db.assets[assetId], user.value.action, user.value.known))
  {}

  // ---------- disposal and archival ----------

  /** An asset can be disposed of exactly when it is current, neither retired nor in repair, with
      nobody and in no rack; then it is retired under one new record. */
  lemma DisposalIff(db: Db, assetId: int, disposalId: int)
    requires Inv(db) && assetId in db.assets
    ensures Dispose(db, assetId, disposalId) ==
            if !db.assets[assetId].archived && db.assets[assetId].status != Retired
               && db.assets[assetId].status != AssetStatus.Repair && db.assets[assetId].person == None
               && assetId !in db.allocations && disposalId !in db.disposals
            then Committed(db.(assets := db.assets[assetId := db.assets[assetId].(status := Retired)],
                               disposals := db.disposals[disposalId := assetId]))
            else RolledBack
  {
    HeldIff(db, assetId);
  }

  /** What blocks disposal and archival shows in the row and the position alone. */
  lemma HeldIff(db: Db, assetId: int)
    requires Inv(db) && assetId in db.assets
    ensures StillHeld(db, assetId) <==>
            db.assets[assetId].person.Some? || assetId in db.allocations
            || db.assets[assetId].status == AssetStatus.Repair
  {
    if HasUnfinishedRound(db.faults, db.rounds, assetId) { UnfinishedRoundMeansRepair(db, assetId); }
  }

  /** An asset can be archived exactly when it is current, not in repair, with nobody, in no rack and
      in no running count; restoring it gives the ledger back, and only archived assets change. */
  lemma ArchivalIff(db: Db, assetId: int)
    requires Inv(db) && assetId in db.assets
    ensures Archive(db, assetId) ==
            if !db.assets[assetId].archived && db.assets[assetId].status != AssetStatus.Repair
               && db.assets[assetId].person == None && assetId !in db.allocations
               && (forall k :: k in db.items && k.asset == assetId && k.task in db.tasks ==> db.tasks[k.task].completed)
            then Committed(db.(assets := db.assets[assetId := db.assets[assetId].(archived := true)]))
            else RolledBack
    ensures Archive(db, assetId).Committed? ==> Unarchive(Archive(db, assetId).db, assetId) == Committed(db)
    ensures Unarchive(db, assetId) ==
            Committed(db.(assets := db.assets[assetId := db.assets[assetId].(archived := false)]))
  {
    HeldIff(db, assetId);
    ArchivedBack(db.assets, assetId);
    assert BeingCounted(db.tasks, db.items, assetId) <==>
      !(forall k :: k in db.items && k.asset == assetId && k.task in db.tasks ==> db.tasks[k.task].completed);
  }

  lemma ArchivedBack(assets: map<int, Asset>, assetId: int)
    requires assetId in assets
    ensures var archived := assets[assetId := assets[assetId].(archived := true)];
            !assets[assetId].archived ==> archived[assetId := archived[assetId].(archived := false)] == assets
  {}
}
