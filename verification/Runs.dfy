/** Whole runs of the write services, from the empty ledger. */
module Runs {
  import opened RackRanges
  import opened Records
  import opened Placement
  import opened Repairs
  import opened AssetWrites
  import opened AssetConfiguration
  import opened Inventory

  datatype SetupOp =
    | AddCentre(centre: int)
    | SetCentre(centre: int, active: bool)
    | AddRoom(room: int, centre: int, name: int)
    | AddRack(rack: int, room: int, code: int, totalU: int, status: RackStatus)
    | SaveRackRow(rack: int, newRoom: Option<int>, code: int, totalU: int, status: RackStatus)
    | SaveRoomRow(room: int, newCentre: Option<int>, name: int, active: bool, stocked: bool)

  datatype PlacementOp =
    | PlaceIt(asset: int, rack: int, span: Span)
    | PlaceDirect(asset: int, where: Option<int>)
    | UnrackIt(asset: int)
    | ClearIt(asset: int)
    | Move(asset: int, target: Option<Allocation>, onHold: Option<int>)
    | ReserveIt(hold: int, rack: int, span: Span)
    | ReleaseIt(rack: int, hold: int)

  datatype AssetOp =
    | NewAsset(asset: int, status: AssetStatus, centre: Option<int>, target: Option<Allocation>,
               user: Option<UserChange>)
    | Edit(asset: int, newStatus: Option<AssetStatus>, newCentre: Option<Option<int>>, position: Position,
           user: Option<UserChange>)
    | ChangeUser(asset: int, action: Assignment, known: bool)
    | DisposeIt(asset: int, disposal: int)
    | ArchiveIt(asset: int)
    | UnarchiveIt(asset: int)

  datatype RepairOp =
    | NewFault(fault: int, asset: int, occurredAt: int, reportedAt: Option<int>)
    | EditFault(fault: int, faultPatch: FaultPatch)
    | DropFault(fault: int)
    | NewRepair(fault: int, round: int, startedAt: Option<int>, finishedAt: Option<int>)
    | EditRepair(round: int, roundPatch: RoundPatch)
    | ReopenIt(round: int, successor: int)
    | DropRepair(round: int)
    | UseUpParts(fault: int, round: int)

  datatype CountOp =
    | NewTask(task: int, scope: Scope)
    | Confirm(key: ItemKey, requirePending: bool)
    | Record(key: ItemKey, submitted: Option<ItemStatus>, where: Option<Reported>, notesChanged: bool)
    | Settle(key: ItemKey, action: Action, noted: bool)
    | FinishTask(task: int)
    | ReopenTaskOf(task: int)
    | DropTask(task: int)
    | SubmitBatch(keys: seq<ItemKey>, bulk: Option<Action>, noted: bool)

  datatype Op =
    | SetUp(setup: SetupOp)
    | Locate(location: PlacementOp)
    | OnAsset(assetOp: AssetOp)
    | OnFault(repair: RepairOp)
    | OnCount(count: CountOp)

  function SetupStep(db: Db, op: SetupOp): Outcome {
    match op
    case AddCentre(centre) => CreateCentre(db, centre)
    case SetCentre(centre, active) => SetCentreActive(db, centre, active)
    case AddRoom(room, centre, name) => CreateRoom(db, room, centre, name)
    case AddRack(rack, room, code, totalU, status) => CreateRack(db, rack, room, code, totalU, status)
    case SaveRackRow(rack, newRoom, code, totalU, status) => UpdateRack(db, rack, newRoom, code, totalU, status)
    case SaveRoomRow(room, newCentre, name, active, stocked) => UpdateRoom(db, room, newCentre, name, active, stocked)
  }

  ghost function LocationStep(db: Db, op: PlacementOp): Outcome {
    match op
    case PlaceIt(asset, rack, span) => Place(db, asset, rack, span)
    case PlaceDirect(asset, where) => SetDirect(db, asset, where)
    case UnrackIt(asset) => Unrack(db, asset)
    case ClearIt(asset) => Clear(db, asset)
    case Move(asset, target, onHold) => ChangePlacement(db, asset, target, onHold)
    case ReserveIt(hold, rack, span) => Reserve(db, hold, rack, span)
    case ReleaseIt(rack, hold) => Release(db, rack, hold)
  }

  ghost function AssetStep(db: Db, op: AssetOp): Outcome {
    match op
    case NewAsset(asset, status, centre, target, user) => CreateAsset(db, asset, status, centre, target, user)
    case Edit(asset, newStatus, newCentre, position, user) =>
      EditAsset(db, asset, newStatus, newCentre, position, user)
    case ChangeUser(asset, action, known) => ChangeAssignment(db, asset, action, known)
    case DisposeIt(asset, disposal) => Dispose(db, asset, disposal)
    case ArchiveIt(asset) => Archive(db, asset)
    case UnarchiveIt(asset) => Unarchive(db, asset)
  }

  function RepairStep(db: Db, op: RepairOp): Outcome {
    match op
    case NewFault(fault, asset, occurredAt, reportedAt) => CreateFault(db, fault, asset, occurredAt, reportedAt)
    case EditFault(fault, patch) => UpdateFault(db, fault, patch)
    case DropFault(fault) => DeleteFault(db, fault)
    case NewRepair(fault, round, startedAt, finishedAt) => CreateRepair(db, fault, round, startedAt, finishedAt)
    case EditRepair(round, patch) => UpdateRepair(db, round, patch)
    case ReopenIt(round, successor) => ReopenRepair(db, round, successor)
    case DropRepair(round) => DeleteRepair(db, round)
    case UseUpParts(fault, round) => UseParts(db, fault, round)
  }

  ghost function CountStep(db: Db, op: CountOp): Outcome {
    match op
    case NewTask(task, scope) => CreateTask(db, task, scope)
    case Confirm(key, requirePending) => ConfirmNormal(db, key, requirePending)
    case Record(key, submitted, where, notesChanged) => Observe(db, key, submitted, where, notesChanged)
    case Settle(key, action, noted) => Inventory.Resolve(db, key, action, noted)
    case FinishTask(task) => CompleteTask(db, task)
    case ReopenTaskOf(task) => ReopenTask(db, task)
    case DropTask(task) => DeleteTask(db, task)
    case SubmitBatch(keys, bulk, noted) =>
      if BatchAdmissible(db.items, keys, bulk, noted) then Committed(Batch(db, keys, bulk, noted).db) else RolledBack
  }

  /** One service call, committed or rolled back. */
  ghost function Step(db: Db, op: Op): Db {
    match op
    case SetUp(s) => After(db, SetupStep(db, s))
    case Locate(l) => After(db, LocationStep(db, l))
    case OnAsset(a) => After(db, AssetStep(db, a))
    case OnFault(r) => After(db, RepairStep(db, r))
    case OnCount(c) => After(db, CountStep(db, c))
  }

  ghost function Run(db: Db, ops: seq<Op>): Db {
    if ops == [] then db else Step(Run(db, ops[..|ops| - 1]), ops[|ops| - 1])
  }

  // ---------- the invariants over whole runs ----------

  lemma AddStepKeepsInv(db: Db, op: SetupOp)
    requires Inv(db) && (op.AddCentre? || op.SetCentre? || op.AddRoom? || op.AddRack?)
    ensures Inv(After(db, SetupStep(db, op)))
  {
    match op
    case AddCentre(centre) => CentresKeepInv(db, centre, true);
    case SetCentre(centre, active) => CentresKeepInv(db, centre, active);
    case AddRoom(room, centre, name) =>
      assert SetupStep(db, op) == CreateRoom(db, room, centre, name);
      CreateRoomKeepsInv(db, room, centre, name);
    case AddRack(rack, room, code, totalU, status) =>
      assert SetupStep(db, op) == CreateRack(db, rack, room, code, totalU, status);
      CreateRackKeepsInv(db, rack, room, code, totalU, status);
  }

  lemma SetupStepKeepsInv(db: Db, op: SetupOp)
    requires Inv(db)
    ensures Inv(After(db, SetupStep(db, op)))
  {
    match op
    case SaveRackRow(rack, newRoom, code, totalU, status) =>
      UpdateRackKeepsInv(db, rack, newRoom, code, totalU, status);
    case SaveRoomRow(room, newCentre, name, active, stocked) =>
      UpdateRoomKeepsInv(db, room, newCentre, name, active, stocked);
    case _ => AddStepKeepsInv(db, op);
  }

  lemma UnmountStepKeepsInv(db: Db, op: PlacementOp)
    requires Inv(db) && (op.PlaceDirect? || op.UnrackIt? || op.ClearIt?)
    ensures Inv(After(db, LocationStep(db, op)))
  {
    match op
    case PlaceDirect(asset, where) => SetDirectKeepsInv(db, asset, where);
    case UnrackIt(asset) => UnrackKeepsInv(db, asset);
    case ClearIt(asset) => ClearKeepsInv(db, asset);
  }

  lemma HoldStepKeepsInv(db: Db, op: PlacementOp)
    requires Inv(db) && (op.ReserveIt? || op.ReleaseIt?)
    ensures Inv(After(db, LocationStep(db, op)))
  {
    match op
    case ReserveIt(hold, rack, span) =>
      assert LocationStep(db, op) == Reserve(db, hold, rack, span);
      ReserveKeepsInv(db, hold, rack, span);
    case ReleaseIt(rack, hold) =>
      assert LocationStep(db, op) == Release(db, rack, hold);
      ReleaseKeepsInv(db, rack, hold);
  }

  lemma LocationStepKeepsInv(db: Db, op: PlacementOp)
    requires Inv(db)
    ensures Inv(After(db, LocationStep(db, op)))
  {
    match op
    case PlaceIt(asset, rack, span) => PlaceKeepsInv(db, asset, rack, span);
    case Move(asset, target, onHold) => ChangePlacementKeepsInv(db, asset, target, onHold);
    case ReserveIt(_, _, _) => HoldStepKeepsInv(db, op);
    case ReleaseIt(_, _) => HoldStepKeepsInv(db, op);
    case _ => UnmountStepKeepsInv(db, op);
  }

  lemma AssetStepKeepsInv(db: Db, op: AssetOp)
    requires Inv(db)
    ensures Inv(After(db, AssetStep(db, op)))
  {
    match op
    case NewAsset(asset, status, centre, target, user) =>
      CreateAssetKeepsInv(db, asset, status, centre, target, user);
    case Edit(asset, newStatus, newCentre, position, user) =>
      EditAssetKeepsInv(db, asset, newStatus, newCentre, position, user);
    case ChangeUser(asset, action, known) => ChangeAssignmentKeepsInv(db, asset, action, known);
    case DisposeIt(asset, disposal) => DisposeKeepsInv(db, asset, disposal);
    case ArchiveIt(asset) => ArchiveKeepsInv(db, asset);
    case UnarchiveIt(asset) => UnarchiveKeepsInv(db, asset);
  }

  lemma FaultStepKeepsInv(db: Db, op: RepairOp)
    requires Inv(db) && (op.NewFault? || op.EditFault? || op.DropFault? || op.UseUpParts?)
    ensures Inv(After(db, RepairStep(db, op)))
  {
    match op
    case NewFault(fault, asset, occurredAt, reportedAt) =>
      assert RepairStep(db, op) == CreateFault(db, fault, asset, occurredAt, reportedAt);
      CreateFaultKeepsInv(db, fault, asset, occurredAt, reportedAt);
    case EditFault(fault, patch) =>
      assert RepairStep(db, op) == UpdateFault(db, fault, patch);
      UpdateFaultKeepsInv(db, fault, patch);
    case DropFault(fault) =>
      assert RepairStep(db, op) == DeleteFault(db, fault);
      DeleteFaultKeepsInv(db, fault);
    case UseUpParts(fault, round) =>
      assert RepairStep(db, op) == UseParts(db, fault, round);
      UsePartsKeepsInv(db, fault, round);
  }

  lemma RoundStepKeepsInv(db: Db, op: RepairOp)
    requires Inv(db) && (op.NewRepair? || op.EditRepair? || op.ReopenIt? || op.DropRepair?)
    ensures Inv(After(db, RepairStep(db, op)))
  {
    match op
    case NewRepair(fault, round, startedAt, finishedAt) =>
      assert RepairStep(db, op) == CreateRepair(db, fault, round, startedAt, finishedAt);
      CreateRepairKeepsInv(db, fault, round, startedAt, finishedAt);
    case EditRepair(round, patch) =>
      assert RepairStep(db, op) == UpdateRepair(db, round, patch);
      UpdateRepairKeepsInv(db, round, patch);
    case ReopenIt(round, successor) =>
      assert RepairStep(db, op) == ReopenRepair(db, round, successor);
      ReopenRepairKeepsInv(db, round, successor);
    case DropRepair(round) =>
      assert RepairStep(db, op) == DeleteRepair(db, round);
      DeleteRepairKeepsInv(db, round);
  }

  lemma RepairStepKeepsInv(db: Db, op: RepairOp)
    requires Inv(db)
    ensures Inv(After(db, RepairStep(db, op)))
  {
    if op.NewFault? || op.EditFault? || op.DropFault? || op.UseUpParts? {
      FaultStepKeepsInv(db, op);
    } else {
      RoundStepKeepsInv(db, op);
    }
  }

  lemma ItemStepKeepsInv(db: Db, op: CountOp)
    requires Inv(db) && (op.Confirm? || op.Record? || op.Settle?)
    ensures Inv(After(db, CountStep(db, op)))
  {
    match op
    case Confirm(key, requirePending) => ConfirmNormalKeepsInv(db, key, requirePending);
    case Record(key, submitted, where, notesChanged) => ObserveKeepsInv(db, key, submitted, where, notesChanged);
    case Settle(key, action, noted) => ResolveKeepsInv(db, key, action, noted);
  }

  lemma NewTaskKeepsInv(db: Db, op: CountOp)
    requires Inv(db) && op.NewTask?
    ensures Inv(After(db, CountStep(db, op)))
  {
    CreateTaskKeepsInv(db, op.task, op.scope);
  }

  lemma TaskStepKeepsInv(db: Db, op: CountOp)
    requires Inv(db) && (op.FinishTask? || op.ReopenTaskOf? || op.DropTask?)
    ensures Inv(After(db, CountStep(db, op)))
  {
    match op
    case FinishTask(task) =>
      assert CountStep(db, op) == CompleteTask(db, task);
      CompleteTaskKeepsInv(db, task);
    case ReopenTaskOf(task) =>
      assert CountStep(db, op) == ReopenTask(db, task);
      ReopenTaskKeepsInv(db, task);
    case DropTask(task) =>
      assert CountStep(db, op) == DeleteTask(db, task);
      DeleteTaskKeepsInv(db, task);
  }

  lemma CountStepKeepsInv(db: Db, op: CountOp)
    requires Inv(db)
    ensures Inv(After(db, CountStep(db, op)))
  {
    if op.SubmitBatch? {
      BatchKeepsInv(db, op.keys, op.bulk, op.noted);
    } else if op.Confirm? || op.Record? || op.Settle? {
      ItemStepKeepsInv(db, op);
    } else if op.NewTask? {
      NewTaskKeepsInv(db, op);
    } else {
      TaskStepKeepsInv(db, op);
    }
  }

  lemma StepKeepsInv(db: Db, op: Op)
    requires Inv(db)
    ensures Inv(Step(db, op))
  {
    match op
    case SetUp(s) => SetupStepKeepsInv(db, s);
    case Locate(l) => LocationStepKeepsInv(db, l);
    case OnAsset(a) => AssetStepKeepsInv(db, a);
    case OnFault(r) => RepairStepKeepsInv(db, r);
    case OnCount(c) => CountStepKeepsInv(db, c);
  }

  lemma {:induction false} RunKeepsInv(db: Db, ops: seq<Op>)
    requires Inv(db)
    ensures Inv(Run(db, ops))
  {
    if ops != [] {
      RunKeepsInv(db, ops[..|ops| - 1]);
      StepKeepsInv(Run(db, ops[..|ops| - 1]), ops[|ops| - 1]);
    }
  }

  /** Every reachable state of the ledger satisfies every invariant. */
  lemma {:induction false} ReachableIsConsistent(ops: seq<Op>)
    ensures Inv(Run(EMPTY, ops))
  {
    assert Inv(EMPTY);
    RunKeepsInv(EMPTY, ops);
  }

  /** In every reachable state a running count can be completed exactly when everything in it is
      counted: the room of its scope never moved to another centre meanwhile. */
  lemma {:induction false} RunningCountNeedsOnlyResults(ops: seq<Op>, taskId: int)
    requires taskId in Run(EMPTY, ops).tasks && !Run(EMPTY, ops).tasks[taskId].completed
    ensures CompleteTask(Run(EMPTY, ops), taskId).Committed? <==> AllCounted(Run(EMPTY, ops).items, taskId)
  {
    ReachableIsConsistent(ops);
  }

  // ---------- the life of one asset over a run ----------

  /** How one step may move an asset's status: retired is final, and repair is entered with
      the status held saved, kept with the same saved status, and left to that status. */
  ghost predicate LifeStep(before: Asset, after: Asset) {
    && (before.status == Retired ==> after.status == Retired)
    && (before.status != Repair && after.status == Repair ==>
         after.beforeRepair == Some(before.status) || after.beforeRepair == before.beforeRepair)
    && (before.status == Repair && after.status == Repair ==> after.beforeRepair == before.beforeRepair)
    && (before.status == Repair && after.status != Repair ==> before.beforeRepair == Some(after.status))
  }

  ghost predicate LivesOn(before: map<int, Asset>, after: map<int, Asset>) {
    forall a :: a in before ==> a in after && LifeStep(before[a], after[a])
  }

  lemma SetupLife(db: Db, op: SetupOp)
    ensures LivesOn(db.assets, After(db, SetupStep(db, op)).assets)
  {}

  lemma PlaceLife(db: Db, assetId: int, rackId: int, span: Span)
    ensures LivesOn(db.assets, After(db, Place(db, assetId, rackId, span)).assets)
  {}

  lemma PlaceOnHoldLife(db: Db, assetId: int, target: Allocation, holdId: int)
    ensures LivesOn(db.assets, After(db, PlaceOnHold(db, assetId, target, holdId)).assets)
  {
    var consumed := Consume(db, target.rack, holdId, assetId, target.span);
    if consumed.Committed? { PlaceLife(consumed.db, assetId, target.rack, target.span); }
  }

  lemma UnrackLife(db: Db, assetId: int)
    ensures LivesOn(db.assets, After(db, Unrack(db, assetId)).assets)
  {}

  lemma SameOutcomeLife(db: Db, outcome: Outcome, other: Outcome)
    requires outcome == RolledBack || outcome == Committed(db) || outcome == other
    requires LivesOn(db.assets, After(db, other).assets)
    ensures LivesOn(db.assets, After(db, outcome).assets)
  {}

  lemma ChangePlacementLife(db: Db, assetId: int, target: Option<Allocation>, hold: Option<int>)
    ensures LivesOn(db.assets, After(db, ChangePlacement(db, assetId, target, hold)).assets)
  {
    var outcome := ChangePlacement(db, assetId, target, hold);
    if target == None {
      UnrackLife(db, assetId);
      SameOutcomeLife(db, outcome, Unrack(db, assetId));
    } else if hold == None {
      PlaceLife(db, assetId, target.value.rack, target.value.span);
      SameOutcomeLife(db, outcome, Place(db, assetId, target.value.rack, target.value.span));
    } else {
      PlaceOnHoldLife(db, assetId, target.value, hold.value);
      SameOutcomeLife(db, outcome, PlaceOnHold(db, assetId, target.value, hold.value));
    }
  }

  lemma OneRowLife(assets: map<int, Asset>, assetId: int, row: Asset)
    requires assetId in assets ==> LifeStep(assets[assetId], row)
    ensures LivesOn(assets, assets[assetId := row])
  {}

  lemma DirectLife(db: Db, assetId: int, centre: Option<int>)
    ensures LivesOn(db.assets, After(db, SetDirect(db, assetId, centre)).assets)
  {
    if assetId in db.assets { OneRowLife(db.assets, assetId, db.assets[assetId].(centre := centre)); }
  }

  lemma ClearLife(db: Db, assetId: int)
    ensures LivesOn(db.assets, After(db, Clear(db, assetId)).assets)
  {
    if assetId in db.assets { OneRowLife(db.assets, assetId, db.assets[assetId].(centre := None)); }
  }

  lemma LocationLife(db: Db, op: PlacementOp)
    ensures LivesOn(db.assets, After(db, LocationStep(db, op)).assets)
  {
    match op
    case PlaceIt(asset, rack, span) => PlaceLife(db, asset, rack, span);
    case PlaceDirect(asset, where) => DirectLife(db, asset, where);
    case UnrackIt(asset) => UnrackLife(db, asset);
    case ClearIt(asset) => ClearLife(db, asset);
    case Move(asset, target, onHold) => ChangePlacementLife(db, asset, target, onHold);
    case ReserveIt(_, _, _) =>
    case ReleaseIt(_, _) =>
  }

  lemma CreateLife(db: Db, assetId: int, status: AssetStatus, centre: Option<int>, target: Option<Allocation>,
                   user: Option<UserChange>)
    requires Inv(db)
    ensures LivesOn(db.assets, After(db, CreateAsset(db, assetId, status, centre, target, user)).assets)
  {
    CreateIsOneInsert(db, assetId, status, centre, target, user);
    var outcome := CreateAsset(db, assetId, status, centre, target, user);
    if outcome.Committed? { OneRowLife(db.assets, assetId, outcome.db.assets[assetId]); }
  }

  lemma StandingLife(before: Asset, after: Asset)
    requires SameStanding(before, after)
    ensures LifeStep(before, after)
  {}

  lemma ConfiguredLife(db: Db, assetId: int, row: Asset, place: Option<Allocation>)
    requires assetId in db.assets && SameStanding(db.assets[assetId], row)
    ensures LivesOn(db.assets, Configured(db, assetId, row, place).assets)
  {
    StandingLife(db.assets[assetId], row);
  }

  lemma EditLife(db: Db, assetId: int, status: Option<AssetStatus>, centre: Option<Option<int>>, position: Position,
                 user: Option<UserChange>)
    requires Inv(db)
    ensures LivesOn(db.assets, After(db, EditAsset(db, assetId, status, centre, position, user)).assets)
  {
    EditIsOneChange(db, assetId, status, centre, position, user);
    if EditAsset(db, assetId, status, centre, position, user).Committed? {
      var place := NextPlace(db, assetId, position);
      EditedStands(db, assetId, status, centre, position, user);
      ConfiguredLife(db, assetId, FinalRow(db, EditedRow(db.assets[assetId], status, centre), place, user), place);
    }
  }

  lemma AssignmentLife(db: Db, assetId: int, action: Assignment, known: bool)
    ensures LivesOn(db.assets, After(db, ChangeAssignment(db, assetId, action, known)).assets)
  {
    var outcome := ChangeAssignment(db, assetId, action, known);
    if outcome.Committed? { OneRowLife(db.assets, assetId, outcome.db.assets[assetId]); }
  }

  /** Only an asset without an open fault can be disposed of, so none in repair. */
  lemma DisposeLife(db: Db, assetId: int, disposalId: int)
    requires FaultStatusSynced(db.assets, db.faults)
    ensures LivesOn(db.assets, After(db, Dispose(db, assetId, disposalId)).assets)
  {
    var outcome := Dispose(db, assetId, disposalId);
    if outcome.Committed? { OneRowLife(db.assets, assetId, outcome.db.assets[assetId]); }
  }

  lemma ArchivalLife(db: Db, assetId: int, archived: bool)
    requires assetId in db.assets
    ensures LivesOn(db.assets, db.assets[assetId := db.assets[assetId].(archived := archived)])
  {}

  lemma AssetLife(db: Db, op: AssetOp)
    requires Inv(db)
    ensures LivesOn(db.assets, After(db, AssetStep(db, op)).assets)
  {
    match op
    case NewAsset(asset, status, centre, target, user) => CreateLife(db, asset, status, centre, target, user);
    case Edit(asset, newStatus, newCentre, position, user) =>
      EditLife(db, asset, newStatus, newCentre, position, user);
    case ChangeUser(asset, action, known) => AssignmentLife(db, asset, action, known);
    case DisposeIt(asset, disposal) => DisposeLife(db, asset, disposal);
    case ArchiveIt(asset) => if asset in db.assets { ArchivalLife(db, asset, true); }
    case UnarchiveIt(asset) => if asset in db.assets { ArchivalLife(db, asset, false); }
  }

  lemma SyncLife(db: Db, faults: map<int, Fault>, rounds: map<int, Round>, assetId: int, faultId: Option<int>)
    ensures LivesOn(db.assets, After(db, SyncAsset(db.(faults := faults, rounds := rounds), assetId, faultId)).assets)
  {}

  lemma CompleteLife(db: Db, rounds: map<int, Round>, faultId: int, finishedAt: Option<int>)
    requires faultId in db.faults
    ensures LivesOn(db.assets, After(db, Repairs.Complete(db.(rounds := rounds), faultId, finishedAt)).assets)
  {
    SyncLife(db, Repairs.Resolve(db.faults, faultId, finishedAt), rounds, db.faults[faultId].asset, Some(faultId));
  }

  lemma SaveRoundLife(db: Db, roundId: int, round: Round)
    requires round.fault in db.faults
    ensures LivesOn(db.assets, After(db, SaveRound(db, roundId, round)).assets)
  {
    CompleteLife(db, db.rounds[roundId := round], round.fault, round.finishedAt);
  }

  lemma FaultLife(db: Db, op: RepairOp)
    requires op.NewFault? || op.EditFault? || op.DropFault?
    ensures LivesOn(db.assets, After(db, RepairStep(db, op)).assets)
  {
    var outcome := RepairStep(db, op);
    if outcome.Committed? {
      match op {
        case NewFault(fault, asset, _, _) => SyncLife(db, outcome.db.faults, db.rounds, asset, Some(fault));
        case EditFault(fault, _) => SyncLife(db, outcome.db.faults, db.rounds, db.faults[fault].asset, None);
        case DropFault(fault) => SyncLife(db, outcome.db.faults, db.rounds, db.faults[fault].asset, None);
        case _ =>
      }
    }
  }

  lemma NewRepairLife(db: Db, faultId: int, roundId: int, startedAt: Option<int>, finishedAt: Option<int>)
    ensures LivesOn(db.assets, After(db, CreateRepair(db, faultId, roundId, startedAt, finishedAt)).assets)
  {
    if faultId in db.faults {
      if !HasRounds(db.rounds, faultId) {
        SaveRoundLife(db, roundId, Round(faultId, 1, None, Recorded, startedAt, finishedAt, false));
      } else if roundId in db.rounds && db.rounds[roundId].fault == faultId {
        SaveRoundLife(db, roundId,
                      db.rounds[roundId].(origin := Recorded, startedAt := startedAt, finishedAt := finishedAt));
      }
    }
  }

  lemma EditRepairLife(db: Db, roundId: int, patch: RoundPatch)
    ensures LivesOn(db.assets, After(db, UpdateRepair(db, roundId, patch)).assets)
  {
    if roundId in db.rounds && db.rounds[roundId].fault in db.faults {
      SaveRoundLife(db, roundId, PatchedRound(db.rounds[roundId], patch));
    }
  }

  lemma ReopenLife(db: Db, roundId: int, successorId: int)
    ensures LivesOn(db.assets, After(db, ReopenRepair(db, roundId, successorId)).assets)
  {
    if roundId in db.rounds && db.rounds[roundId].fault in db.faults {
      CompleteLife(db, db.rounds[successorId := Successor(db.rounds, roundId)], db.rounds[roundId].fault, None);
    }
  }

  lemma DropRepairLife(db: Db, roundId: int)
    ensures LivesOn(db.assets, After(db, DeleteRepair(db, roundId)).assets)
  {
    if roundId in db.rounds && db.rounds[roundId].fault in db.faults {
      CompleteLife(db, db.rounds - {roundId}, db.rounds[roundId].fault, None);
    }
  }

  lemma UsePartsKeepsAssets(db: Db, faultId: int, roundId: int)
    ensures After(db, UseParts(db, faultId, roundId)).assets == db.assets
  {
    var outcome := UseParts(db, faultId, roundId);
    if outcome.Committed? {
      assert outcome.db ==
             db.(faults := outcome.db.faults, rounds := db.rounds[roundId := outcome.db.rounds[roundId]]);
    }
  }

  lemma UsePartsLife(db: Db, faultId: int, roundId: int)
    ensures LivesOn(db.assets, After(db, UseParts(db, faultId, roundId)).assets)
  {
    UsePartsKeepsAssets(db, faultId, roundId);
    SameLife(db);
  }

  lemma RoundLife(db: Db, op: RepairOp)
    requires op.NewRepair? || op.EditRepair? || op.ReopenIt? || op.DropRepair? || op.UseUpParts?
    ensures LivesOn(db.assets, After(db, RepairStep(db, op)).assets)
  {
    match op
    case NewRepair(fault, round, startedAt, finishedAt) => NewRepairLife(db, fault, round, startedAt, finishedAt);
    case EditRepair(round, patch) => EditRepairLife(db, round, patch);
    case ReopenIt(round, successor) => ReopenLife(db, round, successor);
    case DropRepair(round) => DropRepairLife(db, round);
    case UseUpParts(fault, round) => UsePartsLife(db, fault, round);
  }

  lemma CorrectLife(db: Db, assetId: int, seen: Sighting)
    ensures LivesOn(db.assets, After(db, Correct(db, assetId, seen)).assets)
  {
    match seen
    case Mounted(rack, span, _, _) => PlaceLife(db, assetId, rack, span);
    case AtCentre(centre) => DirectLife(db, assetId, Some(centre));
    case Unlocated => DirectLife(db, assetId, None);
    case Unclear =>
  }

  lemma ResolvedLife(db: Db, key: ItemKey, action: Action, corrected: Outcome)
    requires key in db.items && LivesOn(db.assets, After(db, corrected).assets)
    ensures LivesOn(db.assets, After(db, ResolvedWith(db, key, action, corrected)).assets)
  {}

  lemma SameLife(db: Db)
    ensures LivesOn(db.assets, db.assets)
  {}

  lemma SettleLife(db: Db, key: ItemKey, action: Action, noted: bool)
    ensures LivesOn(db.assets, After(db, Inventory.Resolve(db, key, action, noted)).assets)
  {
    SameLife(db);
    if action == UpdateAsset && key in db.items {
      CorrectLife(db, key.asset, db.items[key].seen);
      ResolvedLife(db, key, action, Correct(db, key.asset, db.items[key].seen));
    }
  }

  lemma NewTaskKeepsAssets(db: Db, taskId: int, scope: Scope)
    ensures After(db, CreateTask(db, taskId, scope)).assets == db.assets
  {}

  lemma ConfirmKeepsAssets(db: Db, key: ItemKey, requirePending: bool)
    ensures After(db, ConfirmNormal(db, key, requirePending)).assets == db.assets
  {}

  lemma RecordKeepsAssets(db: Db, key: ItemKey, submitted: Option<ItemStatus>, where: Option<Reported>,
                          notesChanged: bool)
    ensures After(db, Observe(db, key, submitted, where, notesChanged)).assets == db.assets
  {
    if Countable(db, key) {
      var status := if submitted.Some? then submitted.value else db.items[key].status;
      if status == Normal {
        ConfirmKeepsAssets(db, key, false);
      } else {
        ObservedKeepsAssets(db, key, status, SeenNow(db, db.items[key], status, where), notesChanged);
      }
    }
  }

  lemma ObservedKeepsAssets(db: Db, key: ItemKey, status: ItemStatus, seen: Option<Sighting>, notesChanged: bool)
    requires key in db.items
    ensures After(db, ObserveAs(db, key, status, seen, notesChanged)).assets == db.assets
  {}

  lemma BatchKeepsAssets(db: Db, keys: seq<ItemKey>, bulk: Option<Action>, noted: bool)
    ensures Batch(db, keys, bulk, noted).db.assets == db.assets
  {
    BatchStopsAtArchived(db, keys, bulk, noted);
  }

  lemma CountLife(db: Db, op: CountOp)
    ensures LivesOn(db.assets, After(db, CountStep(db, op)).assets)
  {
    SameLife(db);
    match op
    case NewTask(task, scope) => NewTaskKeepsAssets(db, task, scope);
    case Confirm(key, requirePending) => ConfirmKeepsAssets(db, key, requirePending);
    case Record(key, submitted, where, notesChanged) => RecordKeepsAssets(db, key, submitted, where, notesChanged);
    case Settle(key, action, noted) => SettleLife(db, key, action, noted);
    case SubmitBatch(keys, bulk, noted) => BatchKeepsAssets(db, keys, bulk, noted);
    case _ =>
  }

  lemma StepLife(db: Db, op: Op)
    requires Inv(db)
    ensures LivesOn(db.assets, Step(db, op).assets)
  {
    match op
    case SetUp(s) => SetupLife(db, s);
    case Locate(l) => LocationLife(db, l);
    case OnAsset(a) => AssetLife(db, a);
    case OnFault(r) => if r.NewFault? || r.EditFault? || r.DropFault? { FaultLife(db, r); } else { RoundLife(db, r); }
    case OnCount(c) => CountLife(db, c);
  }

  /** Once retired, always retired, and never again in use, mounted, broken or under repair. */
  lemma {:induction false} RetiredForever(db: Db, ops: seq<Op>, assetId: int)
    requires Inv(db) && assetId in db.assets && db.assets[assetId].status == Retired
    ensures var later := Run(db, ops);
            && assetId in later.assets && later.assets[assetId].status == Retired
            && !StillHeld(later, assetId)
            && exists d :: d in later.disposals && later.disposals[d] == assetId
  {
    if ops != [] {
      var init := ops[..|ops| - 1];
      RetiredForever(db, init, assetId);
      RunKeepsInv(db, init);
      StepLife(Run(db, init), ops[|ops| - 1]);
    }
    RunKeepsInv(db, ops);
    RetiredHoldsNothing(Run(db, ops), assetId);
  }

  // ---------- what is final ----------

  /** The round keeps its place among the rounds of its fault, and every field once finished: a
      finished round is already recorded in a consistent ledger. */
  predicate KeepsPlace(before: Round, after: Round) {
    && after.fault == before.fault && after.number == before.number && after.previous == before.previous
    && (before.pinned ==> after.pinned)
    && (before.finishedAt.Some? ==> after == before || after == before.(origin := Recorded))
  }

  /** A round that is finished, that follows another one, or that parts were used for. */
  predicate OnRecord(round: Round) {
    round.finishedAt.Some? || round.previous.Some? || round.pinned
  }

  /** Rounds on record keep their place, and ended holds and disposal records are unchanged. */
  ghost predicate FinalRowsStay(before: Db, after: Db) {
    && (forall r ::
         r in before.rounds && OnRecord(before.rounds[r]) ==>
           r in after.rounds && KeepsPlace(before.rounds[r], after.rounds[r]))
    && (forall h ::
         h in before.holds && before.holds[h].hold.status != Active ==>
           h in after.holds && after.holds[h] == before.holds[h])
    && (forall d :: d in before.disposals ==> d in after.disposals && after.disposals[d] == before.disposals[d])
  }

  lemma SetupFinal(db: Db, op: SetupOp)
    ensures FinalRowsStay(db, After(db, SetupStep(db, op)))
  {}

  lemma PlaceFinal(db: Db, assetId: int, rackId: int, span: Span)
    ensures var after := After(db, Place(db, assetId, rackId, span));
            after.rounds == db.rounds && after.holds == db.holds && after.disposals == db.disposals
  {}

  lemma ChangePlacementFinal(db: Db, assetId: int, target: Option<Allocation>, hold: Option<int>)
    ensures FinalRowsStay(db, After(db, ChangePlacement(db, assetId, target, hold)))
  {
    var outcome := ChangePlacement(db, assetId, target, hold);
    if outcome.Committed? && outcome != Committed(db) && target.Some? {
      var t := target.value;
      if hold == None {
        PlaceFinal(db, assetId, t.rack, t.span);
      } else {
        PlaceFinal(Consume(db, t.rack, hold.value, assetId, t.span).db, assetId, t.rack, t.span);
      }
    }
  }

  lemma ActiveHoldWritten(db: Db, holdId: int, row: UnitHold)
    requires holdId in db.holds ==> db.holds[holdId].hold.status == Active
    ensures FinalRowsStay(db, db.(holds := db.holds[holdId := row]))
  {}

  lemma NothingWritten(db: Db)
    ensures FinalRowsStay(db, db)
  {}

  lemma ReserveFinal(db: Db, holdId: int, rackId: int, span: Span)
    ensures FinalRowsStay(db, After(db, Reserve(db, holdId, rackId, span)))
  {
    NothingWritten(db);
    if holdId !in db.holds { ActiveHoldWritten(db, holdId, UnitHold(rackId, Hold(Active, span), None)); }
  }

  lemma ReleaseFinal(db: Db, rackId: int, holdId: int)
    ensures FinalRowsStay(db, After(db, Release(db, rackId, holdId)))
  {
    NothingWritten(db);
    var outcome := Release(db, rackId, holdId);
    if outcome.Committed? {
      ActiveHoldWritten(db, holdId, outcome.db.holds[holdId]);
      assert outcome.db == db.(holds := db.holds[holdId := outcome.db.holds[holdId]]);
    }
  }

  lemma UnmountFinal(db: Db, op: PlacementOp)
    requires op.PlaceDirect? || op.UnrackIt? || op.ClearIt?
    ensures var after := After(db, LocationStep(db, op));
            after.rounds == db.rounds && after.holds == db.holds && after.disposals == db.disposals
  {}

  lemma LocationFinal(db: Db, op: PlacementOp)
    ensures FinalRowsStay(db, After(db, LocationStep(db, op)))
  {
    match op
    case PlaceIt(asset, rack, span) => PlaceFinal(db, asset, rack, span);
    case Move(asset, target, onHold) => ChangePlacementFinal(db, asset, target, onHold);
    case ReserveIt(hold, rack, span) => ReserveFinal(db, hold, rack, span);
    case ReleaseIt(rack, hold) => ReleaseFinal(db, rack, hold);
    case _ => UnmountFinal(db, op);
  }

  /** A step that leaves rounds and holds alone and at most adds a disposal record. */
  ghost predicate OnlyAdds(before: Db, after: Db) {
    && after.rounds == before.rounds && after.holds == before.holds
    && forall d :: d in before.disposals ==> d in after.disposals && after.disposals[d] == before.disposals[d]
  }

  lemma RowAdds(db: Db, assets: map<int, Asset>)
    ensures OnlyAdds(db, db.(assets := assets))
  {}

  lemma PositionAdds(db: Db, assetId: int, position: Position)
    ensures OnlyAdds(db, After(db, ApplyPosition(db, assetId, position)))
  {
    match position
    case NotSubmitted =>
    case LeftOut =>
      if assetId in db.allocations {
        PlaceFinal(db, assetId, db.allocations[assetId].rack, db.allocations[assetId].span);
      }
    case At(target) => PlaceFinal(db, assetId, target.rack, target.span);
    case Blank =>
  }

  lemma UserAdds(db: Db, assetId: int, user: Option<UserChange>)
    ensures OnlyAdds(db, After(db, ApplyUser(db, assetId, user)))
  {
    if user.Some? { AssignmentAdds(db, assetId, user.value.action, user.value.known); }
  }

  lemma AddsTwice(before: Db, middle: Db, after: Db)
    requires OnlyAdds(before, middle) && OnlyAdds(middle, after)
    ensures OnlyAdds(before, after)
  {}

  lemma BothAdd(db: Db, assetId: int, position: Position, user: Option<UserChange>)
    ensures OnlyAdds(db, After(db, ApplyBoth(db, assetId, position, user)))
  {
    var placed := ApplyPosition(db, assetId, position);
    PositionAdds(db, assetId, position);
    if placed.Committed? {
      UserAdds(placed.db, assetId, user);
      AddsTwice(db, placed.db, After(placed.db, ApplyUser(placed.db, assetId, user)));
    }
  }

  lemma WrittenAdds(db: Db, assetId: int, row: Asset, position: Position, user: Option<UserChange>)
    ensures OnlyAdds(db, After(db, ApplyBoth(WithRow(db, assetId, row), assetId, position, user)))
  {
    BothAdd(WithRow(db, assetId, row), assetId, position, user);
  }

  lemma NewAssetAdds(db: Db, assetId: int, status: AssetStatus, centre: Option<int>, target: Option<Allocation>,
                     user: Option<UserChange>)
    ensures OnlyAdds(db, After(db, CreateAsset(db, assetId, status, centre, target, user)))
  {
    WrittenAdds(db, assetId, NewRow(db, status, centre, target), Requested(target), user);
  }

  lemma EditAdds(db: Db, assetId: int, status: Option<AssetStatus>, centre: Option<Option<int>>, position: Position,
                 user: Option<UserChange>)
    ensures OnlyAdds(db, After(db, EditAsset(db, assetId, status, centre, position, user)))
  {
    if assetId in db.assets { WrittenAdds(db, assetId, EditedRow(db.assets[assetId], status, centre), position, user); }
  }

  lemma ArchiveAdds(db: Db, assetId: int)
    ensures OnlyAdds(db, After(db, Archive(db, assetId)))
  {
    var after := After(db, Archive(db, assetId));
    assert after == db.(assets := after.assets);
    RowAdds(db, after.assets);
  }

  lemma UnarchiveAdds(db: Db, assetId: int)
    ensures OnlyAdds(db, After(db, Unarchive(db, assetId)))
  {}

  lemma AssignmentAdds(db: Db, assetId: int, action: Assignment, known: bool)
    ensures OnlyAdds(db, After(db, ChangeAssignment(db, assetId, action, known)))
  {}

  lemma DisposeAdds(db: Db, assetId: int, disposalId: int)
    ensures OnlyAdds(db, After(db, Dispose(db, assetId, disposalId)))
  {}

  lemma AssetAdds(db: Db, op: AssetOp)
    ensures OnlyAdds(db, After(db, AssetStep(db, op)))
  {
    match op
    case NewAsset(asset, status, centre, target, user) => NewAssetAdds(db, asset, status, centre, target, user);
    case Edit(asset, newStatus, newCentre, position, user) =>
      EditAdds(db, asset, newStatus, newCentre, position, user);
    case ChangeUser(asset, action, known) => AssignmentAdds(db, asset, action, known);
    case DisposeIt(asset, disposal) => DisposeAdds(db, asset, disposal);
    case ArchiveIt(asset) => ArchiveAdds(db, asset);
    case UnarchiveIt(asset) => UnarchiveAdds(db, asset);
  }

  lemma CompleteFinal(db: Db, faultId: int, finishedAt: Option<int>)
    requires faultId in db.faults
    ensures var after := After(db, Repairs.Complete(db, faultId, finishedAt));
            after.rounds == db.rounds && after.holds == db.holds && after.disposals == db.disposals
  {}

  lemma SaveRoundFinal(db: Db, roundId: int, round: Round)
    requires round.fault in db.faults && (roundId in db.rounds ==> KeepsPlace(db.rounds[roundId], round))
    ensures FinalRowsStay(db, After(db, SaveRound(db, roundId, round)))
  {
    CompleteFinal(db.(rounds := db.rounds[roundId := round]), round.fault, round.finishedAt);
  }

  lemma SyncAdds(db: Db, faults: map<int, Fault>, assetId: int, faultId: Option<int>)
    ensures OnlyAdds(db, After(db, SyncAsset(db.(faults := faults), assetId, faultId)))
  {}

  lemma FaultAdds(db: Db, op: RepairOp)
    requires op.NewFault? || op.EditFault? || op.DropFault?
    ensures OnlyAdds(db, After(db, RepairStep(db, op)))
  {
    var outcome := RepairStep(db, op);
    if outcome.Committed? {
      match op {
        case NewFault(fault, asset, _, _) => SyncAdds(db, outcome.db.faults, asset, Some(fault));
        case EditFault(fault, _) => SyncAdds(db, outcome.db.faults, db.faults[fault].asset, None);
        case DropFault(fault) => SyncAdds(db, outcome.db.faults, db.faults[fault].asset, None);
        case _ =>
      }
    }
  }

  lemma UsePartsFinal(db: Db, faultId: int, roundId: int)
    ensures FinalRowsStay(db, After(db, UseParts(db, faultId, roundId)))
  {
    var outcome := UseParts(db, faultId, roundId);
    if outcome.Committed? {
      UnfinishedWritten(db, outcome.db.faults, roundId, outcome.db.rounds[roundId]);
      assert outcome.db == db.(faults := outcome.db.faults, rounds := db.rounds[roundId := outcome.db.rounds[roundId]]);
    }
  }

  lemma UnfinishedWritten(db: Db, faults: map<int, Fault>, roundId: int, round: Round)
    requires roundId in db.rounds ==> KeepsPlace(db.rounds[roundId], round)
    ensures FinalRowsStay(db, db.(faults := faults, rounds := db.rounds[roundId := round]))
  {}

  lemma NewRepairFinal(db: Db, faultId: int, roundId: int, startedAt: Option<int>, finishedAt: Option<int>)
    ensures FinalRowsStay(db, After(db, CreateRepair(db, faultId, roundId, startedAt, finishedAt)))
  {
    if CreateRepair(db, faultId, roundId, startedAt, finishedAt).Committed? {
      if HasRounds(db.rounds, faultId) {
        SaveRoundFinal(db, roundId,
                       db.rounds[roundId].(origin := Recorded, startedAt := startedAt, finishedAt := finishedAt));
      } else {
        SaveRoundFinal(db, roundId, Round(faultId, 1, None, Recorded, startedAt, finishedAt, false));
      }
    }
  }

  lemma EditRepairFinal(db: Db, roundId: int, patch: RoundPatch)
    ensures FinalRowsStay(db, After(db, UpdateRepair(db, roundId, patch)))
  {
    if RoundEditable(db, roundId, patch) { SaveRoundFinal(db, roundId, PatchedRound(db.rounds[roundId], patch)); }
  }

  lemma RoundFinal(db: Db, op: RepairOp)
    requires op.NewRepair? || op.EditRepair?
    ensures FinalRowsStay(db, After(db, RepairStep(db, op)))
  {
    if op.NewRepair? {
      NewRepairFinal(db, op.fault, op.round, op.startedAt, op.finishedAt);
    } else {
      EditRepairFinal(db, op.round, op.roundPatch);
    }
  }

  lemma ReopenOrDropFinal(db: Db, op: RepairOp)
    requires op.ReopenIt? || op.DropRepair?
    ensures FinalRowsStay(db, After(db, RepairStep(db, op)))
  {
    if RepairStep(db, op).Committed? {
      if op.ReopenIt? {
        CompleteFinal(db.(rounds := db.rounds[op.successor := Successor(db.rounds, op.round)]),
                      db.rounds[op.round].fault, None);
      } else {
        CompleteFinal(db.(rounds := db.rounds - {op.round}), db.rounds[op.round].fault, None);
      }
    }
  }

  lemma CorrectAdds(db: Db, assetId: int, seen: Sighting)
    ensures OnlyAdds(db, After(db, Correct(db, assetId, seen)))
  {
    if seen.Mounted? { PlaceFinal(db, assetId, seen.rack, seen.span); }
  }

  lemma SettleAdds(db: Db, key: ItemKey, action: Action, noted: bool)
    ensures OnlyAdds(db, After(db, Inventory.Resolve(db, key, action, noted)))
  {
    if key in db.items { CorrectAdds(db, key.asset, db.items[key].seen); }
  }

  lemma ConfirmAdds(db: Db, key: ItemKey, requirePending: bool)
    ensures OnlyAdds(db, After(db, ConfirmNormal(db, key, requirePending)))
  {}

  lemma RecordAdds(db: Db, key: ItemKey, submitted: Option<ItemStatus>, where: Option<Reported>, notesChanged: bool)
    ensures OnlyAdds(db, After(db, Observe(db, key, submitted, where, notesChanged)))
  {
    ConfirmAdds(db, key, false);
  }

  lemma NewTaskAdds(db: Db, taskId: int, scope: Scope)
    ensures OnlyAdds(db, After(db, CreateTask(db, taskId, scope)))
  {
    var outcome := CreateTask(db, taskId, scope);
    if outcome.Committed? { assert outcome.db == db.(tasks := outcome.db.tasks, items := outcome.db.items); }
  }

  lemma FinishAdds(db: Db, taskId: int)
    ensures OnlyAdds(db, After(db, CompleteTask(db, taskId)))
  {}

  lemma ReopenAdds(db: Db, taskId: int)
    ensures OnlyAdds(db, After(db, ReopenTask(db, taskId)))
  {}

  lemma DropAdds(db: Db, taskId: int)
    ensures OnlyAdds(db, After(db, DeleteTask(db, taskId)))
  {}

  lemma CountAdds(db: Db, op: CountOp)
    ensures OnlyAdds(db, After(db, CountStep(db, op)))
  {
    match op
    case Confirm(key, requirePending) => ConfirmAdds(db, key, requirePending);
    case Record(key, submitted, where, notesChanged) => RecordAdds(db, key, submitted, where, notesChanged);
    case Settle(key, action, noted) => SettleAdds(db, key, action, noted);
    case NewTask(task, scope) => NewTaskAdds(db, task, scope);
    case FinishTask(task) => FinishAdds(db, task);
    case ReopenTaskOf(task) => ReopenAdds(db, task);
    case DropTask(task) => DropAdds(db, task);
    case SubmitBatch(keys, bulk, noted) => BatchStopsAtArchived(db, keys, bulk, noted);
  }

  lemma RepairFinal(db: Db, op: RepairOp)
    ensures FinalRowsStay(db, After(db, RepairStep(db, op)))
  {
    if op.NewFault? || op.EditFault? || op.DropFault? {
      FaultAdds(db, op);
    } else if op.NewRepair? || op.EditRepair? {
      RoundFinal(db, op);
    } else if op.UseUpParts? {
      UsePartsFinal(db, op.fault, op.round);
    } else {
      ReopenOrDropFinal(db, op);
    }
  }

  lemma StepFinal(db: Db, op: Op)
    ensures FinalRowsStay(db, Step(db, op))
  {
    match op
    case SetUp(s) => SetupFinal(db, s);
    case Locate(l) => LocationFinal(db, l);
    case OnAsset(a) => AssetAdds(db, a);
    case OnFault(r) => RepairFinal(db, r);
    case OnCount(c) => CountAdds(db, c);
  }

  /** Over any run, finished repair rounds are history: nothing edits, replaces or deletes them,
      reopening included. A reopened round's successor and a round with parts used may still be
      edited but never leave their place. Released and consumed holds and disposal records are
      as final. */
  lemma {:induction false} HistoryIsFinal(db: Db, ops: seq<Op>)
    ensures FinalRowsStay(db, Run(db, ops))
  {
    if ops != [] {
      HistoryIsFinal(db, ops[..|ops| - 1]);
      StepFinal(Run(db, ops[..|ops| - 1]), ops[|ops| - 1]);
    }
  }

  /** From a consistent ledger on, a finished round is the same in every field for good. */
  lemma FinishedForever(db: Db, ops: seq<Op>, roundId: int)
    requires Inv(db) && roundId in db.rounds && db.rounds[roundId].finishedAt.Some?
    ensures roundId in Run(db, ops).rounds && Run(db, ops).rounds[roundId] == db.rounds[roundId]
  {
    HistoryIsFinal(db, ops);
    assert RoundWellFormed(db.faults, db.rounds, roundId);
  }

  /** The states a run passes through, as the status rules see them. */
  ghost predicate History(states: seq<Db>) {
    && (forall i :: 0 <= i < |states| ==> FaultStatusSynced(states[i].assets, states[i].faults))
    && (forall i :: 0 <= i < |states| - 1 ==> LivesOn(states[i].assets, states[i + 1].assets))
  }

  ghost function States(db: Db, ops: seq<Op>): (states: seq<Db>)
    ensures |states| == |ops| + 1 && states[|ops|] == Run(db, ops)
  {
    if ops == [] then [db] else States(db, ops[..|ops| - 1]) + [Run(db, ops)]
  }

  lemma LongerHistory(states: seq<Db>, next: Db)
    requires History(states) && states != [] && FaultStatusSynced(next.assets, next.faults)
    requires LivesOn(states[|states| - 1].assets, next.assets)
    ensures History(states + [next])
  {}

  lemma SyncedAfterRun(db: Db, ops: seq<Op>)
    requires Inv(db)
    ensures FaultStatusSynced(Run(db, ops).assets, Run(db, ops).faults)
  {
    RunKeepsInv(db, ops);
  }

  lemma LastStepLife(db: Db, ops: seq<Op>)
    requires Inv(db) && ops != []
    ensures LivesOn(Run(db, ops[..|ops| - 1]).assets, Run(db, ops).assets)
  {
    RunKeepsInv(db, ops[..|ops| - 1]);
    StepLife(Run(db, ops[..|ops| - 1]), ops[|ops| - 1]);
  }

  lemma {:induction false} RunIsHistory(db: Db, ops: seq<Op>)
    requires Inv(db)
    ensures History(States(db, ops))
  {
    SyncedAfterRun(db, ops);
    if ops != [] {
      RunIsHistory(db, ops[..|ops| - 1]);
      LastStepLife(db, ops);
      LongerHistory(States(db, ops[..|ops| - 1]), Run(db, ops));
    }
  }

  /** The asset has an open fault in the states from..to-1. */
  ghost predicate BrokenBetween(states: seq<Db>, assetId: int, from: int, to: int) {
    forall i :: from <= i < to && 0 <= i < |states| ==> HasOpenFault(states[i].faults, assetId)
  }

  lemma EntersRepair(before: map<int, Asset>, faults: map<int, Fault>, after: map<int, Asset>, faults': map<int, Fault>,
                     assetId: int)
    requires FaultStatusSynced(before, faults) && FaultStatusSynced(after, faults') && LivesOn(before, after)
    requires assetId in before && !HasOpenFault(faults, assetId) && HasOpenFault(faults', assetId)
    ensures after[assetId].beforeRepair == Some(before[assetId].status)
  {}

  lemma StaysOrLeaves(before: map<int, Asset>, faults: map<int, Fault>, after: map<int, Asset>,
                      faults': map<int, Fault>, assetId: int)
    requires FaultStatusSynced(before, faults) && FaultStatusSynced(after, faults') && LivesOn(before, after)
    requires assetId in before && HasOpenFault(faults, assetId)
    ensures HasOpenFault(faults', assetId) ==> after[assetId].beforeRepair == before[assetId].beforeRepair
    ensures !HasOpenFault(faults', assetId) ==> before[assetId].beforeRepair == Some(after[assetId].status)
  {}

  /** While faults overlap, the saved status stays that of the moment the first one opened. */
  lemma {:induction false} SavedStatusKept(states: seq<Db>, assetId: int, n: nat)
    requires History(states) && 1 <= n < |states| && assetId in states[0].assets
             && !HasOpenFault(states[0].faults, assetId)
    requires BrokenBetween(states, assetId, 1, n + 1)
    ensures assetId in states[n].assets
            && states[n].assets[assetId].beforeRepair == Some(states[0].assets[assetId].status)
    decreases n
  {
    if n == 1 {
      EntersRepair(states[0].assets, states[0].faults, states[1].assets, states[1].faults, assetId);
    } else {
      SavedStatusKept(states, assetId, n - 1);
      StaysOrLeaves(states[n - 1].assets, states[n - 1].faults, states[n].assets, states[n].faults, assetId);
    }
  }

  /** Closing or deleting the last open fault restores the very status held when the first
      of them opened, however they overlap and whatever else happens in between. */
  lemma {:induction false} LastFaultRestoresFirstStatus(db: Db, ops: seq<Op>, assetId: int)
    requires Inv(db) && assetId in db.assets && !HasOpenFault(db.faults, assetId) && |ops| >= 2
    requires BrokenBetween(States(db, ops), assetId, 1, |ops|) && !HasOpenFault(Run(db, ops).faults, assetId)
    ensures assetId in Run(db, ops).assets && Run(db, ops).assets[assetId].status == db.assets[assetId].status
  {
    RunIsHistory(db, ops);
    FirstState(db, ops);
    RestoredAt(States(db, ops), assetId, |ops|);
  }

  lemma {:induction false} FirstState(db: Db, ops: seq<Op>)
    ensures States(db, ops)[0] == db
  {
    if ops != [] { FirstState(db, ops[..|ops| - 1]); }
  }

  lemma RestoredAt(states: seq<Db>, assetId: int, n: nat)
    requires History(states) && 2 <= n < |states| && assetId in states[0].assets
             && !HasOpenFault(states[0].faults, assetId)
    requires BrokenBetween(states, assetId, 1, n) && !HasOpenFault(states[n].faults, assetId)
    ensures assetId in states[n].assets && states[n].assets[assetId].status == states[0].assets[assetId].status
  {
    SavedStatusKept(states, assetId, n - 1);
    StaysOrLeaves(states[n - 1].assets, states[n - 1].faults, states[n].assets, states[n].faults, assetId);
  }
}
