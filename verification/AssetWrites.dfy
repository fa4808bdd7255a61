/** The asset row itself: lifecycle, responsibility, disposal and archival.

    Models backend/assets/lifecycle.py:58-218 and asset_writes.py:131-364, 560-616. Request
    details that only fill text columns (reasons, methods, snapshots) are left out.
 */
module AssetWrites {
  import opened RackRanges
  import opened Records
  import opened Repairs

  // ---------- the lifecycle policy ----------

  /** `validate_asset_status_transition` for an ordinary edit (lifecycle.py:99-185). */
  predicate DirectTransition(current: AssetStatus, target: AssetStatus, openFault: bool) {
    current == target || (Restorable(current) && Restorable(target) && !openFault)
  }

  /** What the edit form offers (lifecycle.py:76-96); None stands for an asset not saved yet. */
  method AllowedAssetStatusValues(current: Option<AssetStatus>, openFault: bool, retirable: bool)
    returns (allowed: set<AssetStatus>)
    ensures current == None ==> forall s :: s in allowed <==> Restorable(s)
    ensures current.Some? ==> forall s :: s in allowed <==> DirectTransition(current.value, s, openFault)
  {
    var initial := {InStock, InUse, Idle};
    if current == None { return initial; }
    allowed := if Restorable(current.value) then initial else {current.value};
    if Restorable(current.value) && openFault {
      allowed := {current.value};
    } else if current.value != Retired && Retired in allowed {
      if !retirable { allowed := allowed - {Retired}; }
    }
  }

  /** The facts that `validate_asset_retirement` refuses (lifecycle.py:58-73). */
  predicate StillHeld(db: Db, assetId: int)
    requires assetId in db.assets
  {
    || db.assets[assetId].person.Some?
    || assetId in db.allocations
    || HasOpenFault(db.faults, assetId)
    || HasUnfinishedRound(db.faults, db.rounds, assetId)
  }

  predicate BeingCounted(tasks: map<int, Task>, items: map<ItemKey, Item>, assetId: int) {
    exists k :: k in items && k.asset == assetId && k.task in tasks && !tasks[k.task].completed
  }

  predicate Current(db: Db, assetId: int) {
    assetId in db.assets && !db.assets[assetId].archived
  }

  // ---------- the services as functions of the tables ----------

  datatype Assignment = Assign(person: int) | Return | Transfer(person: int)

  /** `_change_asset_assignment` on one row; `known` says that the target person exists and is
      active. */
  predicate Assignable(asset: Asset, openFault: bool, action: Assignment, known: bool) {
    && asset.status != Repair && !openFault && (asset.status == Retired ==> action == Return)
    && match action
       case Assign(_) => asset.person == None && known
       case Return => asset.person.Some?
       case Transfer(person) => asset.person.Some? && known && asset.person != Some(person)
  }

  function Assigned(asset: Asset, action: Assignment): Asset {
    match action
    case Assign(person) => asset.(person := Some(person), status := InUse)
    case Return => asset.(person := None, status := if asset.status == Retired then Retired else InStock)
    case Transfer(person) => asset.(person := Some(person))
  }

  function ChangeAssignment(db: Db, assetId: int, action: Assignment, known: bool): Outcome {
    if Current(db, assetId) && Assignable(db.assets[assetId], HasOpenFault(db.faults, assetId), action, known)
    then Committed(db.(assets := db.assets[assetId := Assigned(db.assets[assetId], action)])) else RolledBack
  }

  /** asset_writes.py:283-364 with lifecycle.py:209-218 */
  function Dispose(db: Db, assetId: int, disposalId: int): Outcome {
    if && Current(db, assetId) && db.assets[assetId].status != Retired
       && disposalId !in db.disposals && (forall d :: d in db.disposals ==> db.disposals[d] != assetId)
       && !StillHeld(db, assetId)
    then Committed(db.(assets := db.assets[assetId := db.assets[assetId].(status := Retired)],
                       disposals := db.disposals[disposalId := assetId]))
    else RolledBack
  }

  /** asset_writes.py:560-600 */
  function Archive(db: Db, assetId: int): Outcome {
    if Current(db, assetId) && !StillHeld(db, assetId) && !BeingCounted(db.tasks, db.items, assetId)
    then Committed(db.(assets := db.assets[assetId := db.assets[assetId].(archived := true)]))
    else RolledBack
  }

  /** asset_writes.py:603-616 */
  function Unarchive(db: Db, assetId: int): Outcome {
    if assetId in db.assets
    then Committed(db.(assets := db.assets[assetId := db.assets[assetId].(archived := false)])) else RolledBack
  }

  // ---------- every commit keeps the invariants ----------

  /** A changed row may not cross the borders that other tables depend on. */
  ghost predicate RowAllowed(db: Db, assetId: int, row: Asset)
    requires assetId in db.assets
  {
    var old' := db.assets[assetId];
    && row.beforeRepair == old'.beforeRepair
    && (row.status == Repair <==> old'.status == Repair)
    && (row.status == Retired <==> old'.status == Retired)
    && (row.status == Retired ==> row.person == None)
    && (row.centre != old'.centre ==> assetId !in db.allocations)
    && (row.archived ==>
         row.person == None && row.status != Repair && assetId !in db.allocations
         && !BeingCounted(db.tasks, db.items, assetId))
  }

  lemma AssetRowReferences(db: Db, assetId: int, row: Asset)
    requires References(db)
    ensures References(db.(assets := db.assets[assetId := row]))
  {}

  lemma AssetRowArchive(db: Db, assetId: int, row: Asset)
    requires ArchivedIdle(db.assets, db.allocations, db.tasks, db.items)
    requires row.archived ==>
               row.person == None && row.status != Repair && assetId !in db.allocations
               && !BeingCounted(db.tasks, db.items, assetId)
    ensures ArchivedIdle(db.assets[assetId := row], db.allocations, db.tasks, db.items)
  {
    var assets := db.assets[assetId := row];
    forall k | k in db.items && k.asset in assets && assets[k.asset].archived && k.task in db.tasks
      ensures db.tasks[k.task].completed
    {
      assert k.asset != assetId ==> db.assets[k.asset].archived;
    }
  }

  lemma AssetRowStatus(db: Db, assetId: int, row: Asset)
    requires assetId in db.assets && FaultStatusSynced(db.assets, db.faults)
    requires row.beforeRepair == db.assets[assetId].beforeRepair
             && (row.status == Repair <==> db.assets[assetId].status == Repair)
    ensures FaultStatusSynced(db.assets[assetId := row], db.faults)
  {}

  lemma AssetRowCentre(db: Db, assetId: int, row: Asset)
    requires assetId in db.assets && CentresSynced(db.rooms, db.racks, db.assets, db.allocations)
    requires row.centre != db.assets[assetId].centre ==> assetId !in db.allocations
    ensures CentresSynced(db.rooms, db.racks, db.assets[assetId := row], db.allocations)
  {}

  lemma AssetRowRetirement(db: Db, assetId: int, row: Asset)
    requires assetId in db.assets && RetirementFinal(db.assets, db.allocations, db.disposals)
    requires (row.status == Retired <==> db.assets[assetId].status == Retired)
             && (row.status == Retired ==> row.person == None)
    ensures RetirementFinal(db.assets[assetId := row], db.allocations, db.disposals)
  {}

  lemma AssetRowKeepsInv(db: Db, assetId: int, row: Asset)
    requires Inv(db) && assetId in db.assets && RowAllowed(db, assetId, row)
    ensures Inv(db.(assets := db.assets[assetId := row]))
  {
    AssetRowReferences(db, assetId, row);
    AssetRowStatus(db, assetId, row);
    AssetRowCentre(db, assetId, row);
    AssetRowRetirement(db, assetId, row);
    AssetRowArchive(db, assetId, row);
  }

  lemma ChangeAssignmentKeepsInv(db: Db, assetId: int, action: Assignment, known: bool)
    requires Inv(db)
    ensures Inv(After(db, ChangeAssignment(db, assetId, action, known)))
  {
    var outcome := ChangeAssignment(db, assetId, action, known);
    if outcome.Committed? { AssetRowKeepsInv(db, assetId, outcome.db.assets[assetId]); }
  }

  lemma DisposeKeepsInv(db: Db, assetId: int, disposalId: int)
    requires Inv(db)
    ensures Inv(After(db, Dispose(db, assetId, disposalId)))
  {
    if Dispose(db, assetId, disposalId).Committed? {
      var row := db.assets[assetId].(status := Retired);
      AssetRowReferences(db, assetId, row);
      AssetRowStatus(db, assetId, row);
      AssetRowCentre(db, assetId, row);
      AssetRowArchive(db, assetId, row);
      DisposalRecorded(db, assetId, disposalId);
    }
  }

  lemma DisposalRecorded(db: Db, assetId: int, disposalId: int)
    requires RetirementFinal(db.assets, db.allocations, db.disposals) && assetId in db.assets
             && disposalId !in db.disposals
    requires db.assets[assetId].person == None && assetId !in db.allocations
    requires forall d :: d in db.disposals ==> db.disposals[d] != assetId
    ensures RetirementFinal(db.assets[assetId := db.assets[assetId].(status := Retired)], db.allocations,
                            db.disposals[disposalId := assetId])
  {
    var assets := db.assets[assetId := db.assets[assetId].(status := Retired)];
    var disposals := db.disposals[disposalId := assetId];
    forall a | a in assets && assets[a].status == Retired ensures exists d :: d in disposals && disposals[d] == a {
      if a == assetId {
        assert disposals[disposalId] == a;
      } else {
        var d :| d in db.disposals && db.disposals[d] == a;
        assert disposals[d] == a;
      }
    }
  }

  lemma ArchiveKeepsInv(db: Db, assetId: int)
    requires Inv(db)
    ensures Inv(After(db, Archive(db, assetId)))
  {
    if Archive(db, assetId).Committed? { AssetRowKeepsInv(db, assetId, db.assets[assetId].(archived := true)); }
  }

  lemma UnarchiveKeepsInv(db: Db, assetId: int)
    requires Inv(db)
    ensures Inv(After(db, Unarchive(db, assetId)))
  {
    if assetId in db.assets { AssetRowKeepsInv(db, assetId, db.assets[assetId].(archived := false)); }
  }

  /** What retirement means in every consistent state. */
  lemma RetiredHoldsNothing(db: Db, assetId: int)
    requires Inv(db) && assetId in db.assets
    ensures db.assets[assetId].status == Retired ==> !StillHeld(db, assetId)
    ensures db.assets[assetId].status == Retired <==> exists d :: d in db.disposals && db.disposals[d] == assetId
    ensures forall d, e ::
              d in db.disposals && e in db.disposals && db.disposals[d] == assetId && db.disposals[e] == assetId ==>
                d == e
  {
    if HasUnfinishedRound(db.faults, db.rounds, assetId) { UnfinishedRoundMeansRepair(db, assetId); }
  }

  // ---------- the services, step by step ----------

  /** The facts that block retirement and archival, looked up one table after the other. */
  method BlockingFacts(store: Store, assetId: int) returns (blocked: bool)
    requires assetId in store.assets
    ensures blocked <==> StillHeld(store.View(), assetId)
  {
    if store.assets[assetId].person.Some? { return true; }
    if assetId in store.allocations { return true; }
    if exists f | f in store.faults :: store.faults[f].asset == assetId && !store.faults[f].closed { return true; }
    if exists r | r in store.rounds :: store.rounds[r].finishedAt == None && store.rounds[r].fault in store.faults
                                       && store.faults[store.rounds[r].fault].asset == assetId { return true; }
    return false;
  }

  method ChangeAssetAssignment(store: Store, assetId: int, action: Assignment, known: bool) returns (ok: bool)
    modifies store
    ensures ok <==> ChangeAssignment(old(store.View()), assetId, action, known).Committed?
    ensures store.View() == After(old(store.View()), ChangeAssignment(old(store.View()), assetId, action, known))
  {
    if assetId !in store.assets || store.assets[assetId].archived { return false; }
    var asset := store.assets[assetId];
    if asset.status == Retired && !action.Return? { return false; }
    if asset.status == Repair { return false; }
    if exists f | f in store.faults :: store.faults[f].asset == assetId && !store.faults[f].closed { return false; }
    match action {
      case Assign(person) =>
        if asset.person.Some? || !known { return false; }
        if asset.status != InUse { asset := asset.(status := InUse); }
        asset := asset.(person := Some(person));
      case Return =>
        if asset.person == None { return false; }
        if asset.status != Retired { asset := asset.(status := InStock); }
        asset := asset.(person := None);
      case Transfer(person) =>
        if asset.person == None || !known || person == asset.person.value { return false; }
        asset := asset.(person := Some(person));
    }
    store.assets := store.assets[assetId := asset];
    return true;
  }

  method DisposeAsset(store: Store, assetId: int, disposalId: int) returns (ok: bool)
    modifies store
    ensures ok <==> Dispose(old(store.View()), assetId, disposalId).Committed?
    ensures store.View() == After(old(store.View()), Dispose(old(store.View()), assetId, disposalId))
  {
    if assetId !in store.assets || store.assets[assetId].archived || disposalId in store.disposals { return false; }
    if store.assets[assetId].status == Retired { return false; }
    if exists d | d in store.disposals :: store.disposals[d] == assetId { return false; }
    var blocked := BlockingFacts(store, assetId);
    if blocked { return false; }
    store.assets := store.assets[assetId := store.assets[assetId].(status := Retired)];
    store.disposals := store.disposals[disposalId := assetId];
    return true;
  }

  method ArchiveAsset(store: Store, assetId: int) returns (ok: bool)
    modifies store
    ensures ok <==> Archive(old(store.View()), assetId).Committed?
    ensures store.View() == After(old(store.View()), Archive(old(store.View()), assetId))
  {
    if assetId !in store.assets || store.assets[assetId].archived { return false; }
    var blocked := BlockingFacts(store, assetId);
    if blocked { return false; }
    if exists k | k in store.items :: k.asset == assetId && k.task in store.tasks && !store.tasks[k.task].completed {
      return false;
    }
    store.assets := store.assets[assetId := store.assets[assetId].(archived := true)];
    return true;
  }

  method RestoreAsset(store: Store, assetId: int) returns (ok: bool)
    modifies store
    ensures ok <==> Unarchive(old(store.View()), assetId).Committed?
    ensures store.View() == After(old(store.View()), Unarchive(old(store.View()), assetId))
  {
    if assetId !in store.assets { return false; }
    if store.assets[assetId].archived {
      store.assets := store.assets[assetId := store.assets[assetId].(archived := false)];
    }
    assert store.assets == old(store.assets)[assetId := old(store.assets)[assetId].(archived := false)];
    return true;
  }
}
