/** A closed rack over whole runs: it can only empty. */
module RackRuns {
  import opened RackRanges
  import opened Records
  import opened Placement
  import opened Repairs
  import opened AssetWrites
  import opened AssetConfiguration
  import opened Inventory
  import opened PlacementResults
  import opened AssetResults
  import RepairResults
  import CountResults
  import opened Runs

  /** What stands in the rack or is held there was so before. */
  ghost predicate NoNewRows(before: Db, after: Db, rackId: int) {
    && (forall a :: a in after.allocations && after.allocations[a].rack == rackId ==>
          a in before.allocations && before.allocations[a] == after.allocations[a])
    && (forall h :: ActiveHold(after.holds, h) && after.holds[h].rack == rackId ==>
          ActiveHold(before.holds, h) && before.holds[h] == after.holds[h])
  }

  /** Positions and holds are untouched. */
  ghost predicate SamePlaces(before: Db, after: Db) {
    after.allocations == before.allocations && after.holds == before.holds
  }

  lemma SameTables(before: Db, after: Db, rackId: int)
    requires SamePlaces(before, after)
    ensures NoNewRows(before, after, rackId)
  {}

  lemma PlaceElsewhere(db: Db, assetId: int, target: int, span: Span, rackId: int)
    requires Inv(db) && Closed(db, rackId)
    ensures NoNewRows(db, After(db, Place(db, assetId, target, span)), rackId)
  {
    ClosedRackRefuses(db, rackId);
    if Place(db, assetId, target, span).Committed? { PlacedThere(db, assetId, target, span); }
  }

  lemma DirectEmpties(db: Db, assetId: int, centre: Option<int>, rackId: int)
    ensures NoNewRows(db, After(db, SetDirect(db, assetId, centre)), rackId)
  {}

  lemma UnrackEmpties(db: Db, assetId: int, rackId: int)
    ensures NoNewRows(db, After(db, Unrack(db, assetId)), rackId)
  {}

  lemma MoveElsewhere(db: Db, assetId: int, target: Option<Allocation>, hold: Option<int>, rackId: int)
    requires Inv(db) && Closed(db, rackId)
    ensures NoNewRows(db, After(db, ChangePlacement(db, assetId, target, hold)), rackId)
  {
    var outcome := ChangePlacement(db, assetId, target, hold);
    if outcome.Committed? {
      MovedAsAsked(db, assetId, target, hold);
      if target.Some? && target.value.rack == rackId {
        MoveIff(db, assetId, target, hold);
        ClosedRackRefuses(db, rackId);
        assert target.value == Allocation(rackId, target.value.span);
        MovedRows(db, assetId, target, hold, outcome.db, rackId);
      } else {
        MovedRows(db, assetId, target, hold, outcome.db, rackId);
      }
    }
  }

  lemma MovedRows(db: Db, assetId: int, target: Option<Allocation>, hold: Option<int>, after: Db, rackId: int)
    requires assetId in db.assets && (hold.Some? ==> target.Some?) && MovedTo(db, assetId, target, hold, after)
    requires target.Some? && target.value.rack == rackId ==>
               assetId in db.allocations && db.allocations[assetId] == target.value
    ensures NoNewRows(db, after, rackId)
  {}

  lemma ReserveElsewhere(db: Db, holdId: int, target: int, span: Span, rackId: int)
    requires Inv(db) && Closed(db, rackId)
    ensures NoNewRows(db, After(db, Reserve(db, holdId, target, span)), rackId)
  {
    ClosedRackRefuses(db, rackId);
    HoldRows(db, holdId, target, 0, span);
  }

  lemma ReleaseEmpties(db: Db, target: int, holdId: int, rackId: int)
    ensures NoNewRows(db, After(db, Release(db, target, holdId)), rackId)
  {
    HoldRows(db, holdId, target, 0, Span(0, 0));
  }

  lemma LocationNoNewRows(db: Db, op: PlacementOp, rackId: int)
    requires Inv(db) && Closed(db, rackId)
    ensures NoNewRows(db, After(db, LocationStep(db, op)), rackId)
  {
    match op
    case PlaceIt(asset, rack, span) => PlaceElsewhere(db, asset, rack, span, rackId);
    case PlaceDirect(asset, where) => DirectEmpties(db, asset, where, rackId);
    case UnrackIt(asset) => UnrackEmpties(db, asset, rackId);
    case ClearIt(asset) =>
      DirectPlacement(db, asset, None);
      DirectEmpties(db, asset, None, rackId);
    case Move(asset, target, onHold) => MoveElsewhere(db, asset, target, onHold, rackId);
    case ReserveIt(hold, rack, span) => ReserveElsewhere(db, hold, rack, span, rackId);
    case ReleaseIt(rack, hold) => ReleaseEmpties(db, rack, hold, rackId);
  }

  lemma SetupNoNewRows(db: Db, op: SetupOp, rackId: int)
    ensures NoNewRows(db, After(db, SetupStep(db, op)), rackId)
  {
    SameTables(db, After(db, SetupStep(db, op)), rackId);
  }

  lemma CreateElsewhere(db: Db, assetId: int, status: AssetStatus, centre: Option<int>, target: Option<Allocation>,
                        user: Option<UserChange>, rackId: int)
    requires Inv(db) && Closed(db, rackId)
    ensures NoNewRows(db, After(db, CreateAsset(db, assetId, status, centre, target, user)), rackId)
  {
    if CreateAsset(db, assetId, status, centre, target, user).Committed? {
      AssetCreateIff(db, assetId, status, centre, target, user);
      AssetCreated(db, assetId, status, centre, target, user);
    }
  }

  lemma EditElsewhere(db: Db, assetId: int, status: Option<AssetStatus>, centre: Option<Option<int>>,
                      position: Position, user: Option<UserChange>, rackId: int)
    requires Inv(db) && Closed(db, rackId)
    ensures NoNewRows(db, After(db, EditAsset(db, assetId, status, centre, position, user)), rackId)
  {
    if EditAsset(db, assetId, status, centre, position, user).Committed? {
      AssetEditIff(db, assetId, status, centre, position, user);
      AssetEdited(db, assetId, status, centre, position, user);
    }
  }

  lemma RowKeepsPlaces(db: Db, op: AssetOp)
    requires op.ChangeUser? || op.DisposeIt? || op.ArchiveIt? || op.UnarchiveIt?
    ensures SamePlaces(db, After(db, AssetStep(db, op)))
  {}

  lemma AssetNoNewRows(db: Db, op: AssetOp, rackId: int)
    requires Inv(db) && Closed(db, rackId)
    ensures NoNewRows(db, After(db, AssetStep(db, op)), rackId)
  {
    match op
    case NewAsset(asset, status, centre, target, user) =>
      CreateElsewhere(db, asset, status, centre, target, user, rackId);
    case Edit(asset, newStatus, newCentre, position, user) =>
      EditElsewhere(db, asset, newStatus, newCentre, position, user, rackId);
    case _ =>
      RowKeepsPlaces(db, op);
      SameTables(db, After(db, AssetStep(db, op)), rackId);
  }

  lemma FaultKeepsPlaces(db: Db, op: RepairOp)
    requires Inv(db) && RepairStep(db, op).Committed? && (op.NewFault? || op.EditFault? || op.DropFault?)
    ensures SamePlaces(db, RepairStep(db, op).db)
  {
    match op
    case NewFault(fault, asset, occurredAt, reportedAt) =>
      RepairResults.FaultCreated(db, fault, asset, occurredAt, reportedAt);
    case EditFault(fault, patch) => RepairResults.FaultEdited(db, fault, patch);
    case DropFault(fault) => RepairResults.FaultDeleted(db, fault);
  }

  lemma RoundKeepsPlaces(db: Db, op: RepairOp)
    requires Inv(db) && RepairStep(db, op).Committed? && (op.NewRepair? || op.EditRepair? || op.ReopenIt?)
    ensures SamePlaces(db, RepairStep(db, op).db)
  {
    match op
    case NewRepair(fault, round, startedAt, finishedAt) =>
      RepairResults.RoundCreated(db, fault, round, startedAt, finishedAt);
    case EditRepair(round, patch) => RepairResults.RoundEdited(db, round, patch);
    case ReopenIt(round, successor) => RepairResults.RoundReopened(db, round, successor);
  }

  lemma RepairKeepsPlaces(db: Db, op: RepairOp)
    requires Inv(db) && RepairStep(db, op).Committed?
    ensures SamePlaces(db, RepairStep(db, op).db)
  {
    match op
    case DropRepair(round) => RepairResults.RoundDeleted(db, round);
    case UseUpParts(fault, round) => RepairResults.PartsUsed(db, fault, round);
    case _ =>
      if op.NewFault? || op.EditFault? || op.DropFault? {
        FaultKeepsPlaces(db, op);
      } else {
        RoundKeepsPlaces(db, op);
      }
  }

  lemma CorrectElsewhere(db: Db, assetId: int, seen: Sighting, rackId: int)
    requires Inv(db) && Closed(db, rackId)
    ensures NoNewRows(db, After(db, Correct(db, assetId, seen)), rackId)
  {
    match seen
    case Mounted(rack, span, _, _) => PlaceElsewhere(db, assetId, rack, span, rackId);
    case AtCentre(centre) => DirectEmpties(db, assetId, Some(centre), rackId);
    case Unlocated => DirectEmpties(db, assetId, None, rackId);
    case Unclear =>
  }

  lemma SettledPlaces(db: Db, key: ItemKey, action: Action, noted: bool)
    requires Inventory.Resolve(db, key, action, noted).Committed?
    ensures var after := Inventory.Resolve(db, key, action, noted).db;
            key in db.items
            && (SamePlaces(db, after)
                || (Correct(db, key.asset, db.items[key].seen).Committed?
                    && SamePlaces(Correct(db, key.asset, db.items[key].seen).db, after)))
  {}

  lemma SettleElsewhere(db: Db, key: ItemKey, action: Action, noted: bool, rackId: int)
    requires Inv(db) && Closed(db, rackId)
    ensures NoNewRows(db, After(db, Inventory.Resolve(db, key, action, noted)), rackId)
  {
    var outcome := Inventory.Resolve(db, key, action, noted);
    if outcome.Committed? {
      SettledPlaces(db, key, action, noted);
      CorrectElsewhere(db, key.asset, db.items[key].seen, rackId);
    } else {
      SameTables(db, db, rackId);
    }
  }

  lemma ItemKeepsPlaces(db: Db, op: CountOp)
    requires CountStep(db, op).Committed? && (op.Confirm? || op.Record? || op.SubmitBatch?)
    ensures SamePlaces(db, CountStep(db, op).db)
  {
    match op
    case Confirm(key, requirePending) => CountResults.Confirmed(db, key, requirePending);
    case Record(key, submitted, where, notesChanged) =>
      CountResults.ObservationRecorded(db, key, submitted, where, notesChanged);
    case SubmitBatch(keys, bulk, noted) => BatchStopsAtArchived(db, keys, bulk, noted);
  }

  lemma TaskKeepsPlaces(db: Db, op: CountOp)
    requires Inv(db) && CountStep(db, op).Committed?
    requires op.NewTask? || op.FinishTask? || op.ReopenTaskOf? || op.DropTask?
    ensures SamePlaces(db, CountStep(db, op).db)
  {
    match op
    case NewTask(task, scope) => CountResults.TaskCreated(db, task, scope);
    case FinishTask(task) => CountResults.TaskLife(db, task);
    case ReopenTaskOf(task) => CountResults.TaskLife(db, task);
    case DropTask(task) => CountResults.TaskDeleted(db, task);
  }

  lemma CountNoNewRows(db: Db, op: CountOp, rackId: int)
    requires Inv(db) && Closed(db, rackId)
    ensures NoNewRows(db, After(db, CountStep(db, op)), rackId)
  {
    if op.Settle? {
      SettleElsewhere(db, op.key, op.action, op.noted, rackId);
    } else if CountStep(db, op).Committed? {
      if op.Confirm? || op.Record? || op.SubmitBatch? { ItemKeepsPlaces(db, op); } else { TaskKeepsPlaces(db, op); }
      SameTables(db, CountStep(db, op).db, rackId);
    } else {
      SameTables(db, db, rackId);
    }
  }

  lemma RepairNoNewRows(db: Db, op: RepairOp, rackId: int)
    requires Inv(db)
    ensures NoNewRows(db, After(db, RepairStep(db, op)), rackId)
  {
    if RepairStep(db, op).Committed? { RepairKeepsPlaces(db, op); }
    SameTables(db, After(db, RepairStep(db, op)), rackId);
  }

  /** No step puts anything into a closed rack. */
  lemma StepNoNewRows(db: Db, op: Op, rackId: int)
    requires Inv(db) && Closed(db, rackId)
    ensures NoNewRows(db, Step(db, op), rackId)
  {
    match op
    case SetUp(s) => SetupNoNewRows(db, s, rackId);
    case Locate(l) => LocationNoNewRows(db, l, rackId);
    case OnAsset(a) => AssetNoNewRows(db, a, rackId);
    case OnFault(r) => RepairNoNewRows(db, r, rackId);
    case OnCount(c) => CountNoNewRows(db, c, rackId);
  }

  /** The rack is closed in every state that the run leaves. */
  ghost predicate ClosedThroughout(db: Db, ops: seq<Op>, rackId: int) {
    forall i :: 0 <= i < |ops| ==> Closed(Run(db, ops[..i]), rackId)
  }

  lemma NoNewRowsChain(before: Db, middle: Db, after: Db, rackId: int)
    requires NoNewRows(before, middle, rackId) && NoNewRows(middle, after, rackId)
    ensures NoNewRows(before, after, rackId)
  {}

  lemma {:induction false} RowsOverRun(db: Db, ops: seq<Op>, rackId: int)
    requires Inv(db) && ClosedThroughout(db, ops, rackId)
    ensures NoNewRows(db, Run(db, ops), rackId)
  {
    if ops == [] {
      SameTables(db, db, rackId);
    } else {
      var init := ops[..|ops| - 1];
      assert ClosedThroughout(db, init, rackId) by {
        forall i | 0 <= i < |init| ensures Closed(Run(db, init[..i]), rackId) { assert init[..i] == ops[..i]; }
      }
      RowsOverRun(db, init, rackId);
      RunKeepsInv(db, init);
      StepNoNewRows(Run(db, init), ops[|ops| - 1], rackId);
      NoNewRowsChain(db, Run(db, init), Run(db, ops), rackId);
    }
  }

  /** Over any run in which a rack stays closed, whatever closes it, no cell of it becomes taken. */
  lemma ClosedRackOnlyEmpties(db: Db, ops: seq<Op>, rackId: int, u: int)
    requires Inv(db) && ClosedThroughout(db, ops, rackId)
    ensures Taken(Run(db, ops), rackId, None, u) ==> Taken(db, rackId, None, u)
  {
    RowsOverRun(db, ops, rackId);
    CellsOfRows(db, Run(db, ops), rackId, u);
  }

  lemma CellsOfRows(before: Db, after: Db, rackId: int, u: int)
    requires NoNewRows(before, after, rackId)
    ensures Taken(after, rackId, None, u) ==> Taken(before, rackId, None, u)
  {
    if h :| h in after.holds && after.holds[h].rack == rackId && after.holds[h].hold.status == Active
            && after.holds[h].hold.span.startU <= u <= after.holds[h].hold.span.endU {
      assert ActiveHold(after.holds, h);
    }
  }
}
