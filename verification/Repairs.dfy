/** Faults, repair rounds and the asset status they drive.

    Models backend/assets/repair_writes.py:39-406 with the time rules of fault_timeline.py
    and the `fault` transitions of lifecycle.py:139-155. A write that the final status
    synchronization refuses is rolled back as a whole.
 */
module Repairs {
  import opened RackRanges
  import opened Records
  import opened FaultTimeline

  // ---------- status synchronization ----------

  /** `sync_asset_fault_status` on one asset row (repair_writes.py:146-179); None is a refusal. */
  function SyncedAsset(asset: Asset, hasOpen: bool, otherOpen: bool): Option<Asset> {
    if hasOpen then
      if asset.status == Retired then None
      else if asset.status == Repair then Some(asset)
      else
        var before := if !otherOpen && asset.beforeRepair == None then Some(asset.status) else asset.beforeRepair;
        Some(asset.(status := Repair, beforeRepair := before))
    else if asset.status == Repair then
      if asset.beforeRepair.Some? && Restorable(asset.beforeRepair.value)
      then Some(asset.(status := asset.beforeRepair.value, beforeRepair := None))
      else Some(asset)
    else Some(asset.(beforeRepair := None))
  }

  function SyncAsset(db: Db, assetId: int, faultId: Option<int>): Outcome {
    if !(assetId in db.assets && !db.assets[assetId].archived) then RolledBack
    else
      var others := if faultId.Some? then db.faults - {faultId.value} else db.faults;
      match SyncedAsset(db.assets[assetId], HasOpenFault(db.faults, assetId), HasOpenFault(others, assetId))
      case None => RolledBack
      case Some(asset) => Committed(db.(assets := db.assets[assetId := asset]))
  }

  /** `sync_fault_completion` (repair_writes.py:195-233). */
  function Complete(db: Db, faultId: int, finishedAt: Option<int>): Outcome
    requires faultId in db.faults
  {
    var fault := db.faults[faultId].(closed := finishedAt.Some?, resolvedAt := finishedAt);
    SyncAsset(db.(faults := db.faults[faultId := fault]), fault.asset, Some(faultId))
  }

  // ---------- the services as functions of the tables ----------

  /** repair_writes.py:305-313 with the form rule that reporting does not precede the fault. */
  function CreateFault(db: Db, faultId: int, assetId: int, occurredAt: int, reportedAt: Option<int>): Outcome {
    if faultId !in db.faults && assetId in db.assets && !db.assets[assetId].archived
       && NotBefore(reportedAt, occurredAt)
    then SyncAsset(db.(faults := db.faults[faultId := Fault(assetId, occurredAt, reportedAt, false, None, false)]),
                   assetId, Some(faultId))
    else RolledBack
  }

  predicate FaultTimesOk(rounds: map<int, Round>, faultId: int, occurredAt: int, reportedAt: Option<int>) {
    && NotBefore(reportedAt, occurredAt)
    && forall r :: r in rounds && rounds[r].fault == faultId ==>
         NotBefore(rounds[r].startedAt, occurredAt) && NotBefore(rounds[r].finishedAt, occurredAt)
  }

  /** The writable fields of a fault in a PATCH; None for one that was not submitted. `others`
      says that a text field was. */
  datatype FaultPatch = FaultPatch(occurredAt: Option<int>, reportedAt: Option<Option<int>>, others: bool)

  const NO_FAULT_FIELDS := FaultPatch(None, None, false)

  function PatchedFault(fault: Fault, patch: FaultPatch): Fault {
    fault.(occurredAt := if patch.occurredAt.Some? then patch.occurredAt.value else fault.occurredAt,
           reportedAt := if patch.reportedAt.Some? then patch.reportedAt.value else fault.reportedAt)
  }

  predicate FaultEditable(db: Db, faultId: int, patch: FaultPatch) {
    && faultId in db.faults
    && (db.faults[faultId].closed ==> patch == NO_FAULT_FIELDS)
    && var fault := PatchedFault(db.faults[faultId], patch);
       FaultTimesOk(db.rounds, faultId, fault.occurredAt, fault.reportedAt)
  }

  /** repair_writes.py:39-63, 316-326: no field of a closed fault can be submitted; the times fit
      every round. */
  function UpdateFault(db: Db, faultId: int, patch: FaultPatch): Outcome {
    if FaultEditable(db, faultId, patch)
    then
      var fault := PatchedFault(db.faults[faultId], patch);
      SyncAsset(db.(faults := db.faults[faultId := fault]), fault.asset, None)
    else RolledBack
  }

  /** repair_writes.py:329-343 */
  function DeleteFault(db: Db, faultId: int): Outcome {
    if faultId in db.faults && !db.faults[faultId].closed && !HasRounds(db.rounds, faultId)
       && !db.faults[faultId].pinned
    then SyncAsset(db.(faults := db.faults - {faultId}), db.faults[faultId].asset, None)
    else RolledBack
  }

  /** `validate_repair_write` on the resulting row (repair_writes.py:66-96, fault_timeline.py:20-29). */
  predicate RoundTimesOk(faults: map<int, Fault>, rounds: map<int, Round>, round: Round)
    requires round.fault in faults
  {
    && NotBefore(round.startedAt, faults[round.fault].occurredAt)
    && NotBefore(round.finishedAt, faults[round.fault].occurredAt)
    && (round.startedAt.Some? ==> NotBefore(round.finishedAt, round.startedAt.value))
    && (round.previous.Some? && round.previous.value in rounds && rounds[round.previous.value].finishedAt.Some? ==>
          && NotBefore(round.startedAt, rounds[round.previous.value].finishedAt.value)
          && NotBefore(round.finishedAt, rounds[round.previous.value].finishedAt.value))
  }

  predicate AssetArchived(db: Db, faultId: int)
    requires faultId in db.faults
  {
    db.faults[faultId].asset in db.assets && db.assets[db.faults[faultId].asset].archived
  }

  /** Writes one round and derives the fault's closure and the asset's status from it. */
  function SaveRound(db: Db, roundId: int, round: Round): Outcome
    requires round.fault in db.faults
  {
    if AssetArchived(db, round.fault) || !RoundTimesOk(db.faults, db.rounds, round) then RolledBack
    else Complete(db.(rounds := db.rounds[roundId := round]), round.fault, round.finishedAt)
  }

  /** repair_writes.py:355-373: the first round, or the draft that a part usage opened.
      `roundId` is the row written: a new key, or the current draft. */
  function CreateRepair(db: Db, faultId: int, roundId: int, startedAt: Option<int>, finishedAt: Option<int>): Outcome {
    if faultId !in db.faults then RolledBack
    else if !HasRounds(db.rounds, faultId) then
      if roundId in db.rounds then RolledBack
      else SaveRound(db, roundId, Round(faultId, 1, None, Recorded, startedAt, finishedAt, false))
    else if IsCurrentRound(db.rounds, roundId) && db.rounds[roundId].fault == faultId
            && db.rounds[roundId].origin == UsageStarted && db.rounds[roundId].finishedAt == None
    then SaveRound(db, roundId,
                   db.rounds[roundId].(origin := Recorded, startedAt := startedAt, finishedAt := finishedAt))
    else RolledBack
  }

  datatype RoundPatch = RoundPatch(startedAt: Option<Option<int>>, finishedAt: Option<Option<int>>, others: bool)

  const NO_ROUND_FIELDS := RoundPatch(None, None, false)

  /** A draft that is saved counts as recorded (repair_writes.py:383). */
  function PatchedRound(round: Round, patch: RoundPatch): Round {
    round.(origin := Recorded,
           startedAt := if patch.startedAt.Some? then patch.startedAt.value else round.startedAt,
           finishedAt := if patch.finishedAt.Some? then patch.finishedAt.value else round.finishedAt)
  }

  predicate RoundEditable(db: Db, roundId: int, patch: RoundPatch) {
    && IsCurrentRound(db.rounds, roundId) && db.rounds[roundId].fault in db.faults
    && (db.rounds[roundId].finishedAt.Some? ==> patch == NO_ROUND_FIELDS)
  }

  /** repair_writes.py:376-390: no field can be submitted but those of the unfinished current round. */
  function UpdateRepair(db: Db, roundId: int, patch: RoundPatch): Outcome {
    if RoundEditable(db, roundId, patch)
    then SaveRound(db, roundId, PatchedRound(db.rounds[roundId], patch)) else RolledBack
  }

  /** repair_writes.py:246-269: reopening adds a blank successor. */
  function ReopenRepair(db: Db, roundId: int, successorId: int): Outcome {
    if IsCurrentRound(db.rounds, roundId) && db.rounds[roundId].finishedAt.Some?
       && db.rounds[roundId].fault in db.faults
       && successorId !in db.rounds
    then
      Complete(db.(rounds := db.rounds[successorId := Successor(db.rounds, roundId)]), db.rounds[roundId].fault, None)
    else RolledBack
  }

  /** repair_writes.py:393-406 */
  function DeleteRepair(db: Db, roundId: int): Outcome {
    if roundId in db.rounds && db.rounds[roundId].finishedAt == None && db.rounds[roundId].previous == None
       && !db.rounds[roundId].pinned && db.rounds[roundId].fault in db.faults
       && !HasRounds(db.rounds - {roundId}, db.rounds[roundId].fault)
    then Complete(db.(rounds := db.rounds - {roundId}), db.rounds[roundId].fault, None)
    else RolledBack
  }

  /** A part usage pins the fault and its current round, opening a draft if there is none
      (`begin_usage_round`, repair_writes.py:276-283; stock.py:153-171). */
  function UseParts(db: Db, faultId: int, roundId: int): Outcome {
    if !(&& faultId in db.faults && !db.faults[faultId].closed
         && db.faults[faultId].asset in db.assets
         && !db.assets[db.faults[faultId].asset].archived && db.assets[db.faults[faultId].asset].status != Retired)
    then RolledBack
    else
      var faults := db.faults[faultId := db.faults[faultId].(pinned := true)];
      if !HasRounds(db.rounds, faultId) then
        if roundId in db.rounds then RolledBack
        else Committed(db.(faults := faults,
                           rounds := db.rounds[roundId := Round(faultId, 1, None, UsageStarted, None, None, true)]))
      else if IsCurrentRound(db.rounds, roundId) && db.rounds[roundId].fault == faultId
              && db.rounds[roundId].finishedAt == None
      then Committed(db.(faults := faults, rounds := db.rounds[roundId := db.rounds[roundId].(pinned := true)]))
      else RolledBack
  }

  // ---------- every commit keeps the invariants ----------

  /** Faults of other assets, and whether they are open, did not change. */
  ghost predicate OnlyFaultsOf(assetId: int, before: map<int, Fault>, after: map<int, Fault>) {
    && (forall f :: f in after && after[f].asset != assetId ==> f in before && before[f] == after[f])
    && (forall f :: f in before && before[f].asset != assetId ==> f in after && before[f] == after[f])
  }

  lemma SyncedRow(assets: map<int, Asset>, before: map<int, Fault>, after: map<int, Fault>, assetId: int,
                  faultId: Option<int>)
    requires assetId in assets && FaultStatusSynced(assets, before) && OnlyFaultsOf(assetId, before, after)
    requires HasOpenFault(after, assetId) && !HasOpenFault(before, assetId) ==>
               faultId.Some? && !HasOpenFault(after - {faultId.value}, assetId)
    ensures var others := if faultId.Some? then after - {faultId.value} else after;
            var synced := SyncedAsset(assets[assetId], HasOpenFault(after, assetId), HasOpenFault(others, assetId));
            synced.Some? ==> FaultStatusSynced(assets[assetId := synced.value], after)
  {
    forall a | a in assets && a != assetId ensures HasOpenFault(before, a) == HasOpenFault(after, a) {
      if HasOpenFault(before, a) {
        var f :| f in before && before[f].asset == a && !before[f].closed;
        assert f in after;
      }
      if HasOpenFault(after, a) { var f :| f in after && after[f].asset == a && !after[f].closed; assert f in before; }
    }
  }

  lemma StatusRowFrame(db: Db, assetId: int, row: Asset)
    requires assetId in db.assets && !db.assets[assetId].archived
    requires row == db.assets[assetId].(status := row.status, beforeRepair := row.beforeRepair)
    requires row.status == Retired <==> db.assets[assetId].status == Retired
    requires RetirementFinal(db.assets, db.allocations, db.disposals)
    requires ArchivedIdle(db.assets, db.allocations, db.tasks, db.items)
    requires CentresSynced(db.rooms, db.racks, db.assets, db.allocations)
    ensures RetirementFinal(db.assets[assetId := row], db.allocations, db.disposals)
    ensures ArchivedIdle(db.assets[assetId := row], db.allocations, db.tasks, db.items)
    ensures CentresSynced(db.rooms, db.racks, db.assets[assetId := row], db.allocations)
  {}

  lemma FaultTablesReferences(db: Db, faults: map<int, Fault>, rounds: map<int, Round>, assets: map<int, Asset>)
    requires References(db) && assets.Keys == db.assets.Keys
    requires forall f :: f in faults ==> faults[f].asset in db.assets
    requires forall r :: r in rounds ==> rounds[r].fault in faults
    ensures References(db.(faults := faults, rounds := rounds, assets := assets))
  {}

  /** Once the fault tables are well formed, a commit of the synchronization keeps everything. */
  lemma SyncKeepsInv(db: Db, faults: map<int, Fault>, rounds: map<int, Round>, assetId: int, faultId: Option<int>)
    requires Inv(db) && OnlyFaultsOf(assetId, db.faults, faults) && RoundsLinked(faults, rounds)
    requires forall f :: f in faults ==> faults[f].asset in db.assets
    requires HasOpenFault(faults, assetId) && !HasOpenFault(db.faults, assetId) ==>
               faultId.Some? && !HasOpenFault(faults - {faultId.value}, assetId)
    ensures Inv(After(db, SyncAsset(db.(faults := faults, rounds := rounds), assetId, faultId)))
  {
    var outcome := SyncAsset(db.(faults := faults, rounds := rounds), assetId, faultId);
    if outcome.Committed? {
      var row := outcome.db.assets[assetId];
      SyncedRow(db.assets, db.faults, faults, assetId, faultId);
      FaultTablesReferences(db, faults, rounds, outcome.db.assets);
      StatusRowFrame(db, assetId, row);
    }
  }

  lemma OneFaultChanged(faults: map<int, Fault>, faultId: int, fault: Fault)
    requires faultId in faults ==> faults[faultId].asset == fault.asset
    ensures OnlyFaultsOf(fault.asset, faults, faults[faultId := fault])
    ensures faults[faultId := fault] - {faultId} == faults - {faultId}
    ensures HasOpenFault(faults - {faultId}, fault.asset) ==> HasOpenFault(faults, fault.asset)
    ensures HasOpenFault(faults[faultId := fault], fault.asset) ==>
              !fault.closed || HasOpenFault(faults - {faultId}, fault.asset)
  {
    var after := faults[faultId := fault];
    if HasOpenFault(after, fault.asset) && fault.closed {
      var f :| f in after && after[f].asset == fault.asset && !after[f].closed;
      assert f in faults - {faultId};
    }
    if HasOpenFault(faults - {faultId}, fault.asset) {
      var f :| f in faults - {faultId} && faults[f].asset == fault.asset && !faults[f].closed;
      assert f in faults;
    }
  }

  lemma WellFormedOverFaults(before: map<int, Fault>, after: map<int, Fault>, rounds: map<int, Round>)
    requires AllRoundsWellFormed(before, rounds)
    requires forall r :: r in rounds ==> RoundTimesAfter(after, rounds, r)
    ensures AllRoundsWellFormed(after, rounds)
  {
    forall r | r in rounds ensures RoundWellFormed(after, rounds, r) { assert RoundWellFormed(before, rounds, r); }
  }

  lemma RoundsOverFaults(before: map<int, Fault>, after: map<int, Fault>, rounds: map<int, Round>)
    requires RoundsLinked(before, rounds)
    requires forall f ::
               f in before ==>
                 f in after && after[f].closed == before[f].closed && after[f].resolvedAt == before[f].resolvedAt
    requires forall f ::
               f in after && f !in before ==> !after[f].closed && after[f].resolvedAt == None && !HasRounds(rounds, f)
    requires forall r :: r in rounds ==> RoundTimesAfter(after, rounds, r)
    ensures RoundsLinked(after, rounds)
  {
    WellFormedOverFaults(before, after, rounds);
  }

  lemma NewFaultRounds(faults: map<int, Fault>, rounds: map<int, Round>, faultId: int, fault: Fault)
    requires RoundsLinked(faults, rounds) && faultId !in faults && !fault.closed && fault.resolvedAt == None
    ensures RoundsLinked(faults[faultId := fault], rounds)
  {
    TimesOfRounds(faults, rounds);
    assert !HasRounds(rounds, faultId);
    RoundsOverFaults(faults, faults[faultId := fault], rounds);
  }

  lemma EditedFaultRounds(faults: map<int, Fault>, rounds: map<int, Round>, faultId: int, fault: Fault)
    requires RoundsLinked(faults, rounds) && faultId in faults
    requires fault.closed == faults[faultId].closed && fault.resolvedAt == faults[faultId].resolvedAt
    requires FaultTimesOk(rounds, faultId, fault.occurredAt, fault.reportedAt)
    ensures RoundsLinked(faults[faultId := fault], rounds)
  {
    TimesOfRounds(faults, rounds);
    RoundsOverFaults(faults, faults[faultId := fault], rounds);
  }

  lemma CreateFaultKeepsInv(db: Db, faultId: int, assetId: int, occurredAt: int, reportedAt: Option<int>)
    requires Inv(db)
    ensures Inv(After(db, CreateFault(db, faultId, assetId, occurredAt, reportedAt)))
  {
    if faultId !in db.faults && assetId in db.assets && !db.assets[assetId].archived
       && NotBefore(reportedAt, occurredAt) {
      var fault := Fault(assetId, occurredAt, reportedAt, false, None, false);
      var faults := db.faults[faultId := fault];
      NewFaultRounds(db.faults, db.rounds, faultId, fault);
      OneFaultChanged(db.faults, faultId, fault);
      SyncKeepsInv(db, faults, db.rounds, assetId, Some(faultId));
      assert db.(faults := faults, rounds := db.rounds) == db.(faults := faults);
    }
  }

  ghost predicate RoundTimesAfter(faults: map<int, Fault>, rounds: map<int, Round>, r: int)
    requires r in rounds
  {
    && rounds[r].fault in faults
    && NotBefore(rounds[r].startedAt, faults[rounds[r].fault].occurredAt)
    && NotBefore(rounds[r].finishedAt, faults[rounds[r].fault].occurredAt)
  }

  lemma TimesOfRounds(faults: map<int, Fault>, rounds: map<int, Round>)
    requires AllRoundsWellFormed(faults, rounds)
    ensures forall r :: r in rounds ==> RoundTimesAfter(faults, rounds, r)
  {
    forall r | r in rounds ensures RoundTimesAfter(faults, rounds, r) { assert RoundWellFormed(faults, rounds, r); }
  }

  lemma OpenFaultEditKeepsInv(db: Db, faultId: int, fault: Fault)
    requires Inv(db) && faultId in db.faults && !db.faults[faultId].closed
    requires fault == db.faults[faultId].(occurredAt := fault.occurredAt, reportedAt := fault.reportedAt)
    requires FaultTimesOk(db.rounds, faultId, fault.occurredAt, fault.reportedAt)
    ensures Inv(After(db, SyncAsset(db.(faults := db.faults[faultId := fault]), fault.asset, None)))
  {
    var faults := db.faults[faultId := fault];
    EditedFaultRounds(db.faults, db.rounds, faultId, fault);
    OneFaultChanged(db.faults, faultId, fault);
    assert HasOpenFault(db.faults, fault.asset);
    SyncKeepsInv(db, faults, db.rounds, fault.asset, None);
    assert db.(faults := faults, rounds := db.rounds) == db.(faults := faults);
  }

  /** In a consistent ledger the synchronization finds nothing to do. */
  lemma SyncIsStable(db: Db, assetId: int, faultId: Option<int>)
    requires FaultStatusSynced(db.assets, db.faults)
    ensures SyncAsset(db, assetId, faultId) ==
            if assetId in db.assets && !db.assets[assetId].archived then Committed(db) else RolledBack
  {
    if assetId in db.assets {
      assert db.assets[assetId := db.assets[assetId]] == db.assets;
    }
  }

  lemma RestatedFault(faults: map<int, Fault>, faultId: int)
    requires faultId in faults
    ensures faults[faultId := PatchedFault(faults[faultId], NO_FAULT_FIELDS)] == faults
  {}

  lemma PresentFaultTimesFit(faults: map<int, Fault>, rounds: map<int, Round>, faultId: int)
    requires AllRoundsWellFormed(faults, rounds) && faultId in faults
    ensures FaultTimesOk(rounds, faultId, faults[faultId].occurredAt, faults[faultId].reportedAt) ==
            NotBefore(faults[faultId].reportedAt, faults[faultId].occurredAt)
  {
    forall r | r in rounds && rounds[r].fault == faultId
      ensures NotBefore(rounds[r].startedAt, faults[faultId].occurredAt)
              && NotBefore(rounds[r].finishedAt, faults[faultId].occurredAt)
    {
      assert RoundWellFormed(faults, rounds, r);
    }
  }

  /** A PATCH without fields changes nothing, be the fault open or closed. */
  lemma EmptyFaultPatch(db: Db, faultId: int)
    requires Inv(db)
    ensures UpdateFault(db, faultId, NO_FAULT_FIELDS) ==
            if faultId in db.faults && !AssetArchived(db, faultId)
               && NotBefore(db.faults[faultId].reportedAt, db.faults[faultId].occurredAt)
            then Committed(db) else RolledBack
  {
    if faultId in db.faults {
      PresentFaultTimesFit(db.faults, db.rounds, faultId);
      SyncIsStable(db, db.faults[faultId].asset, None);
      RestatedFault(db.faults, faultId);
    }
  }

  lemma UpdateFaultKeepsInv(db: Db, faultId: int, patch: FaultPatch)
    requires Inv(db)
    ensures Inv(After(db, UpdateFault(db, faultId, patch)))
  {
    if FaultEditable(db, faultId, patch) {
      if db.faults[faultId].closed {
        EmptyFaultPatch(db, faultId);
      } else {
        OpenFaultEditKeepsInv(db, faultId, PatchedFault(db.faults[faultId], patch));
      }
    }
  }

  lemma RoundsWithoutFault(faults: map<int, Fault>, rounds: map<int, Round>, faultId: int)
    requires RoundsLinked(faults, rounds) && !HasRounds(rounds, faultId)
    ensures RoundsLinked(faults - {faultId}, rounds)
  {
    forall r | r in rounds
      ensures RoundWellFormed(faults - {faultId}, rounds, r)
    {
      assert RoundWellFormed(faults, rounds, r);
    }
  }

  lemma DeleteFaultKeepsInv(db: Db, faultId: int)
    requires Inv(db)
    ensures Inv(After(db, DeleteFault(db, faultId)))
  {
    if faultId in db.faults && !db.faults[faultId].closed && !HasRounds(db.rounds, faultId)
       && !db.faults[faultId].pinned {
      var faults := db.faults - {faultId};
      RoundsWithoutFault(db.faults, db.rounds, faultId);
      assert HasOpenFault(db.faults, db.faults[faultId].asset);
      SyncKeepsInv(db, faults, db.rounds, db.faults[faultId].asset, None);
      assert db.(faults := faults, rounds := db.rounds) == db.(faults := faults);
    }
  }

  /** The latest round of the fault is the given row, or there is none; nothing else moved. */
  lemma CompleteKeepsInv(db: Db, rounds: map<int, Round>, faultId: int, finishedAt: Option<int>)
    requires Inv(db) && faultId in db.faults
    requires RoundsLinked(Resolve(db.faults, faultId, finishedAt), rounds)
    ensures Inv(After(db, Complete(db.(rounds := rounds), faultId, finishedAt)))
  {
    var fault := db.faults[faultId].(closed := finishedAt.Some?, resolvedAt := finishedAt);
    var faults := db.faults[faultId := fault];
    OneFaultChanged(db.faults, faultId, fault);
    SyncKeepsInv(db, faults, rounds, fault.asset, Some(faultId));
    assert db.(rounds := rounds).(faults := faults) == db.(faults := faults, rounds := rounds);
  }

  function Resolve(faults: map<int, Fault>, faultId: int, finishedAt: Option<int>): map<int, Fault>
    requires faultId in faults
  {
    faults[faultId := faults[faultId].(closed := finishedAt.Some?, resolvedAt := finishedAt)]
  }

  /** The row is the latest of its fault: it replaces an unfinished one, or comes after finished ones. */
  ghost predicate IsLatestWrite(rounds: map<int, Round>, roundId: int, round: Round) {
    if roundId in rounds then
      && IsCurrentRound(rounds, roundId) && rounds[roundId].finishedAt == None
      && round.fault == rounds[roundId].fault && round.number == rounds[roundId].number
    else forall q :: q in rounds && rounds[q].fault == round.fault ==>
      rounds[q].number < round.number && rounds[q].finishedAt.Some?
  }

  lemma WrittenWellFormed(faults: map<int, Fault>, rounds: map<int, Round>, roundId: int, round: Round)
    requires AllRoundsWellFormed(faults, rounds) && round.fault in faults
    requires roundId in rounds ==> rounds[roundId].finishedAt == None
    requires RoundWellFormed(faults, rounds[roundId := round], roundId)
    ensures AllRoundsWellFormed(Resolve(faults, round.fault, round.finishedAt), rounds[roundId := round])
  {
    var faults', rounds' := Resolve(faults, round.fault, round.finishedAt), rounds[roundId := round];
    forall r | r in rounds' ensures RoundWellFormed(faults', rounds', r) {
      assert r != roundId ==> RoundWellFormed(faults, rounds, r);
    }
  }

  lemma LatestNumber(rounds: map<int, Round>, roundId: int, round: Round)
    requires NumbersDistinct(rounds) && IsLatestWrite(rounds, roundId, round)
    ensures forall q ::
              q in rounds && q != roundId && rounds[q].fault == round.fault ==> rounds[q].number < round.number
  {}

  lemma WrittenNumbers(rounds: map<int, Round>, roundId: int, round: Round)
    requires NumbersDistinct(rounds)
    requires forall q ::
               q in rounds && q != roundId && rounds[q].fault == round.fault ==> rounds[q].number < round.number
    ensures NumbersDistinct(rounds[roundId := round])
  {}

  /** Which rounds are current after the write. */
  lemma CurrentAfterWrite(rounds: map<int, Round>, roundId: int, round: Round)
    requires roundId in rounds ==> rounds[roundId].fault == round.fault
    requires forall q ::
               q in rounds && q != roundId && rounds[q].fault == round.fault ==> rounds[q].number < round.number
    ensures IsCurrentRound(rounds[roundId := round], roundId)
    ensures forall r ::
              r != roundId && IsCurrentRound(rounds[roundId := round], r) ==>
                IsCurrentRound(rounds, r) && rounds[r].fault != round.fault
    ensures forall r ::
              r != roundId && IsCurrentRound(rounds, r) && rounds[r].fault != round.fault ==>
                IsCurrentRound(rounds[roundId := round], r)
  {
    var rounds' := rounds[roundId := round];
    forall r | r != roundId && IsCurrentRound(rounds', r)
      ensures IsCurrentRound(rounds, r) && rounds[r].fault != round.fault
    {
      assert roundId in rounds';
      forall q | q in rounds && rounds[q].fault == rounds[r].fault ensures rounds[q].number <= rounds[r].number {
        assert q in rounds' && rounds'[q].fault == rounds'[r].fault;
      }
    }
  }

  lemma WrittenUnfinished(rounds: map<int, Round>, roundId: int, round: Round)
    requires NumbersDistinct(rounds) && UnfinishedIsCurrent(rounds) && IsLatestWrite(rounds, roundId, round)
    ensures UnfinishedIsCurrent(rounds[roundId := round])
  {
    LatestNumber(rounds, roundId, round);
    CurrentAfterWrite(rounds, roundId, round);
    var rounds' := rounds[roundId := round];
    forall r | r in rounds' && rounds'[r].finishedAt == None ensures IsCurrentRound(rounds', r) {
      if r != roundId { assert IsCurrentRound(rounds, r); }
    }
  }

  lemma WrittenClosure(faults: map<int, Fault>, rounds: map<int, Round>, roundId: int, round: Round)
    requires ClosureTimed(faults, rounds) && round.fault in faults
    requires roundId in rounds ==> rounds[roundId].fault == round.fault
    ensures ClosureTimed(Resolve(faults, round.fault, round.finishedAt), rounds[roundId := round])
  {
    var faults', rounds' := Resolve(faults, round.fault, round.finishedAt), rounds[roundId := round];
    assert rounds'[roundId].fault == round.fault;
    forall f | f in faults' && !HasRounds(rounds', f) ensures !HasRounds(rounds, f) {
      assert forall r :: r in rounds ==> r in rounds' && rounds'[r].fault == rounds[r].fault;
    }
  }

  lemma WrittenCompletion(faults: map<int, Fault>, rounds: map<int, Round>, roundId: int, round: Round)
    requires ClosureIsCompletion(faults, rounds) && round.fault in faults
    requires NumbersDistinct(rounds) && IsLatestWrite(rounds, roundId, round)
    ensures ClosureIsCompletion(Resolve(faults, round.fault, round.finishedAt), rounds[roundId := round])
  {
    LatestNumber(rounds, roundId, round);
    CurrentAfterWrite(rounds, roundId, round);
  }

  lemma LatestRoundWritten(faults: map<int, Fault>, rounds: map<int, Round>, roundId: int, round: Round)
    requires RoundsLinked(faults, rounds) && round.fault in faults && IsLatestWrite(rounds, roundId, round)
    requires RoundWellFormed(faults, rounds[roundId := round], roundId)
    ensures RoundsLinked(Resolve(faults, round.fault, round.finishedAt), rounds[roundId := round])
  {
    WrittenWellFormed(faults, rounds, roundId, round);
    LatestNumber(rounds, roundId, round);
    WrittenNumbers(rounds, roundId, round);
    WrittenUnfinished(rounds, roundId, round);
    WrittenClosure(faults, rounds, roundId, round);
    WrittenCompletion(faults, rounds, roundId, round);
  }

  /** What a form may write: the first round of a fault, or new times in the unfinished current one. */
  ghost predicate IsFormWrite(rounds: map<int, Round>, roundId: int, round: Round) {
    (round.finishedAt.Some? ==> round.origin == Recorded) &&
    if roundId in rounds then
      && IsCurrentRound(rounds, roundId) && rounds[roundId].finishedAt == None
      && round.fault == rounds[roundId].fault && round.number == rounds[roundId].number
      && round.previous == rounds[roundId].previous
    else !HasRounds(rounds, round.fault) && round.number == 1 && round.previous == None
  }

  lemma RoundWritten(faults: map<int, Fault>, rounds: map<int, Round>, roundId: int, round: Round)
    requires RoundsLinked(faults, rounds) && round.fault in faults && RoundTimesOk(faults, rounds, round)
    requires IsFormWrite(rounds, roundId, round)
    ensures RoundsLinked(Resolve(faults, round.fault, round.finishedAt), rounds[roundId := round])
  {
    FormRowWellFormed(faults, rounds, roundId, round);
    LatestRoundWritten(faults, rounds, roundId, round);
  }

  lemma FormRowWellFormed(faults: map<int, Fault>, rounds: map<int, Round>, roundId: int, round: Round)
    requires AllRoundsWellFormed(faults, rounds) && round.fault in faults && RoundTimesOk(faults, rounds, round)
    requires IsFormWrite(rounds, roundId, round)
    ensures RoundWellFormed(faults, rounds[roundId := round], roundId)
  {
    assert roundId in rounds ==> RoundWellFormed(faults, rounds, roundId);
  }

  lemma SaveRoundKeepsInv(db: Db, roundId: int, round: Round)
    requires Inv(db) && round.fault in db.faults && IsFormWrite(db.rounds, roundId, round)
    ensures Inv(After(db, SaveRound(db, roundId, round)))
  {
    if !AssetArchived(db, round.fault) && RoundTimesOk(db.faults, db.rounds, round) {
      RoundWritten(db.faults, db.rounds, roundId, round);
      CompleteKeepsInv(db, db.rounds[roundId := round], round.fault, round.finishedAt);
    }
  }

  lemma FirstRepairKeepsInv(db: Db, faultId: int, roundId: int, startedAt: Option<int>, finishedAt: Option<int>)
    requires Inv(db) && faultId in db.faults && !HasRounds(db.rounds, faultId)
    ensures Inv(After(db, CreateRepair(db, faultId, roundId, startedAt, finishedAt)))
  {
    if roundId !in db.rounds {
      SaveRoundKeepsInv(db, roundId, Round(faultId, 1, None, Recorded, startedAt, finishedAt, false));
    }
  }

  lemma CreateRepairKeepsInv(db: Db, faultId: int, roundId: int, startedAt: Option<int>, finishedAt: Option<int>)
    requires Inv(db)
    ensures Inv(After(db, CreateRepair(db, faultId, roundId, startedAt, finishedAt)))
  {
    if faultId in db.faults && !HasRounds(db.rounds, faultId) {
      FirstRepairKeepsInv(db, faultId, roundId, startedAt, finishedAt);
    } else if CreateRepair(db, faultId, roundId, startedAt, finishedAt).Committed? {
      SaveRoundKeepsInv(db, roundId,
                        db.rounds[roundId].(origin := Recorded, startedAt := startedAt, finishedAt := finishedAt));
    }
  }

  /** Resolving a fault as its current round already does writes nothing. */
  lemma ResolvedAlready(faults: map<int, Fault>, rounds: map<int, Round>, roundId: int)
    requires RoundsLinked(faults, rounds) && IsCurrentRound(rounds, roundId) && rounds[roundId].fault in faults
    ensures Resolve(faults, rounds[roundId].fault, rounds[roundId].finishedAt) == faults
  {
    var faultId := rounds[roundId].fault;
    assert faults[faultId].(closed := rounds[roundId].finishedAt.Some?, resolvedAt := rounds[roundId].finishedAt) ==
           faults[faultId];
  }

  lemma PresentTimesFit(db: Db, roundId: int)
    requires Inv(db) && roundId in db.rounds && db.rounds[roundId].fault in db.faults
    ensures RoundTimesOk(db.faults, db.rounds, PatchedRound(db.rounds[roundId], NO_ROUND_FIELDS))
  {
    assert RoundWellFormed(db.faults, db.rounds, roundId);
  }

  /** A PATCH without fields changes at most one thing: it takes over a draft that a part usage
      opened. A finished round stays what it is. */
  lemma EmptyRoundPatch(db: Db, roundId: int)
    requires Inv(db)
    ensures UpdateRepair(db, roundId, NO_ROUND_FIELDS) ==
            if IsCurrentRound(db.rounds, roundId) && !AssetArchived(db, db.rounds[roundId].fault)
            then Committed(db.(rounds := db.rounds[roundId := db.rounds[roundId].(origin := Recorded)]))
            else RolledBack
    ensures roundId in db.rounds && db.rounds[roundId].finishedAt.Some? ==>
              db.rounds[roundId].(origin := Recorded) == db.rounds[roundId]
  {
    if IsCurrentRound(db.rounds, roundId) {
      var round := PatchedRound(db.rounds[roundId], NO_ROUND_FIELDS);
      PresentTimesFit(db, roundId);
      ResolvedAlready(db.faults, db.rounds, roundId);
      SyncIsStable(db.(rounds := db.rounds[roundId := round]), db.faults[round.fault].asset, Some(round.fault));
    }
    if roundId in db.rounds { assert RoundWellFormed(db.faults, db.rounds, roundId); }
  }

  lemma UpdateRepairKeepsInv(db: Db, roundId: int, patch: RoundPatch)
    requires Inv(db)
    ensures Inv(After(db, UpdateRepair(db, roundId, patch)))
  {
    if RoundEditable(db, roundId, patch) {
      if db.rounds[roundId].finishedAt.Some? {
        EmptyRoundPatch(db, roundId);
        assert db.rounds[roundId := db.rounds[roundId]] == db.rounds;
      } else {
        SaveRoundKeepsInv(db, roundId, PatchedRound(db.rounds[roundId], patch));
      }
    }
  }

  function Successor(rounds: map<int, Round>, roundId: int): Round
    requires roundId in rounds
  {
    Round(rounds[roundId].fault, rounds[roundId].number + 1, Some(roundId), Recorded, None, None, false)
  }

  lemma SuccessorAdded(faults: map<int, Fault>, rounds: map<int, Round>, roundId: int, successorId: int)
    requires RoundsLinked(faults, rounds) && IsCurrentRound(rounds, roundId) && rounds[roundId].finishedAt.Some?
    requires rounds[roundId].fault in faults && successorId !in rounds
    ensures RoundsLinked(Resolve(faults, rounds[roundId].fault, None),
                         rounds[successorId := Successor(rounds, roundId)])
  {
    assert RoundWellFormed(faults, rounds, roundId);
    SuccessorIsLatest(rounds, roundId, successorId);
    LatestRoundWritten(faults, rounds, successorId, Successor(rounds, roundId));
  }

  lemma SuccessorIsLatest(rounds: map<int, Round>, roundId: int, successorId: int)
    requires NumbersDistinct(rounds) && UnfinishedIsCurrent(rounds)
    requires IsCurrentRound(rounds, roundId) && rounds[roundId].finishedAt.Some? && successorId !in rounds
    ensures IsLatestWrite(rounds, successorId, Successor(rounds, roundId))
  {
    forall q | q in rounds && rounds[q].fault == rounds[roundId].fault ensures rounds[q].finishedAt.Some? {
      if rounds[q].finishedAt == None {
        assert IsCurrentRound(rounds, q);
        assert rounds[q].number == rounds[roundId].number;
      }
    }
  }

  lemma ReopenRepairKeepsInv(db: Db, roundId: int, successorId: int)
    requires Inv(db)
    ensures Inv(After(db, ReopenRepair(db, roundId, successorId)))
  {
    if IsCurrentRound(db.rounds, roundId) && db.rounds[roundId].finishedAt.Some?
       && db.rounds[roundId].fault in db.faults && successorId !in db.rounds {
      SuccessorAdded(db.faults, db.rounds, roundId, successorId);
      CompleteKeepsInv(db, db.rounds[successorId := Successor(db.rounds, roundId)], db.rounds[roundId].fault, None);
    }
  }

  /** Removing the only round of a fault touches no other fault's rounds. */
  lemma OnlyRoundRemoved(faults: map<int, Fault>, rounds: map<int, Round>, roundId: int)
    requires RoundsLinked(faults, rounds) && roundId in rounds && rounds[roundId].fault in faults
    requires !HasRounds(rounds - {roundId}, rounds[roundId].fault)
    ensures RoundsLinked(Resolve(faults, rounds[roundId].fault, None), rounds - {roundId})
  {
    RemovedWellFormed(faults, rounds, roundId);
    RemovedCurrent(rounds, roundId);
    RemovedClosure(faults, rounds, roundId);
  }

  lemma RemovedWellFormed(faults: map<int, Fault>, rounds: map<int, Round>, roundId: int)
    requires AllRoundsWellFormed(faults, rounds) && roundId in rounds && rounds[roundId].fault in faults
    requires !HasRounds(rounds - {roundId}, rounds[roundId].fault)
    ensures AllRoundsWellFormed(Resolve(faults, rounds[roundId].fault, None), rounds - {roundId})
  {
    var faults', rounds' := Resolve(faults, rounds[roundId].fault, None), rounds - {roundId};
    forall r | r in rounds' ensures RoundWellFormed(faults', rounds', r) {
      assert RoundWellFormed(faults, rounds, r);
      assert rounds'[r].fault != rounds[roundId].fault;
    }
  }

  lemma RemovedCurrent(rounds: map<int, Round>, roundId: int)
    requires roundId in rounds && !HasRounds(rounds - {roundId}, rounds[roundId].fault)
    ensures forall r :: r in rounds - {roundId} ==>
              rounds[r].fault != rounds[roundId].fault
              && (IsCurrentRound(rounds - {roundId}, r) <==> IsCurrentRound(rounds, r))
  {
    var rounds' := rounds - {roundId};
    forall r | r in rounds'
      ensures rounds[r].fault != rounds[roundId].fault && (IsCurrentRound(rounds', r) <==> IsCurrentRound(rounds, r))
    {
      assert rounds'[r].fault != rounds[roundId].fault;
      assert forall q :: q in rounds && q != roundId ==> q in rounds' && rounds'[q] == rounds[q];
    }
  }

  lemma RemovedClosure(faults: map<int, Fault>, rounds: map<int, Round>, roundId: int)
    requires ClosureTimed(faults, rounds) && roundId in rounds && rounds[roundId].fault in faults
    ensures ClosureTimed(Resolve(faults, rounds[roundId].fault, None), rounds - {roundId})
  {
    var faults', rounds' := Resolve(faults, rounds[roundId].fault, None), rounds - {roundId};
    forall f | f in faults' && f != rounds[roundId].fault && !HasRounds(rounds', f) ensures !HasRounds(rounds, f) {
      assert forall r :: r in rounds && rounds[r].fault == f ==> r in rounds';
    }
  }

  lemma DeleteRepairKeepsInv(db: Db, roundId: int)
    requires Inv(db)
    ensures Inv(After(db, DeleteRepair(db, roundId)))
  {
    if roundId in db.rounds && db.rounds[roundId].finishedAt == None && db.rounds[roundId].previous == None
       && !db.rounds[roundId].pinned && db.rounds[roundId].fault in db.faults
       && !HasRounds(db.rounds - {roundId}, db.rounds[roundId].fault) {
      OnlyRoundRemoved(db.faults, db.rounds, roundId);
      CompleteKeepsInv(db, db.rounds - {roundId}, db.rounds[roundId].fault, None);
    }
  }

  lemma PinsKeepInv(db: Db, faults: map<int, Fault>, rounds: map<int, Round>, faultId: int)
    requires Inv(db) && faultId in db.faults && faults == db.faults[faultId := db.faults[faultId].(pinned := true)]
    requires RoundsLinked(faults, rounds)
    ensures Inv(db.(faults := faults, rounds := rounds))
  {
    FaultTablesReferences(db, faults, rounds, db.assets);
    PinsKeepStatus(db.assets, db.faults, faults, faultId);
  }

  lemma PinsKeepStatus(assets: map<int, Asset>, before: map<int, Fault>, after: map<int, Fault>, faultId: int)
    requires FaultStatusSynced(assets, before) && faultId in before
    requires after == before[faultId := before[faultId].(pinned := true)]
    ensures FaultStatusSynced(assets, after)
  {
    forall a ensures HasOpenFault(after, a) == HasOpenFault(before, a) {
      if HasOpenFault(before, a) {
        var f :| f in before && before[f].asset == a && !before[f].closed;
        assert f in after;
      }
      if HasOpenFault(after, a) {
        var f :| f in after && after[f].asset == a && !after[f].closed;
        assert f in before;
      }
    }
  }

  /** Opening the draft round, or pinning the unfinished current one, keeps the rounds linked. */
  lemma PinnedRoundLinked(faults: map<int, Fault>, rounds: map<int, Round>, roundId: int, round: Round)
    requires RoundsLinked(faults, rounds) && round.fault in faults && !faults[round.fault].closed
             && round.finishedAt == None
    requires IsFormWrite(rounds, roundId, round) && RoundTimesOk(faults, rounds, round)
    ensures RoundsLinked(faults, rounds[roundId := round])
  {
    RoundWritten(faults, rounds, roundId, round);
    assert faults[round.fault].(closed := false, resolvedAt := None) == faults[round.fault];
    assert Resolve(faults, round.fault, None) == faults;
  }

  lemma PinnedFaultLinked(faults: map<int, Fault>, rounds: map<int, Round>, faultId: int)
    requires RoundsLinked(faults, rounds) && faultId in faults
    ensures RoundsLinked(faults[faultId := faults[faultId].(pinned := true)], rounds)
  {
    TimesOfRounds(faults, rounds);
    RoundsOverFaults(faults, faults[faultId := faults[faultId].(pinned := true)], rounds);
  }

  lemma UsePartsKeepsInv(db: Db, faultId: int, roundId: int)
    requires Inv(db)
    ensures Inv(After(db, UseParts(db, faultId, roundId)))
  {
    if UseParts(db, faultId, roundId).Committed? {
      var round := if roundId in db.rounds then db.rounds[roundId].(pinned := true)
          else Round(faultId, 1, None, UsageStarted, None, None, true);
      UsedRoundFits(db.faults, db.rounds, faultId, roundId, round);
      PinnedRoundLinked(db.faults, db.rounds, roundId, round);
      PinnedFaultLinked(db.faults, db.rounds[roundId := round], faultId);
      PinsKeepInv(db, db.faults[faultId := db.faults[faultId].(pinned := true)], db.rounds[roundId := round], faultId);
    }
  }

  lemma UsedRoundFits(faults: map<int, Fault>, rounds: map<int, Round>, faultId: int, roundId: int, round: Round)
    requires AllRoundsWellFormed(faults, rounds) && faultId in faults
    requires if roundId in rounds
             then IsCurrentRound(rounds, roundId) && rounds[roundId].fault == faultId
                  && rounds[roundId].finishedAt == None
                  && round == rounds[roundId].(pinned := true)
             else !HasRounds(rounds, faultId) && round == Round(faultId, 1, None, UsageStarted, None, None, true)
    ensures IsFormWrite(rounds, roundId, round) && RoundTimesOk(faults, rounds, round)
  {
    assert roundId in rounds ==> RoundWellFormed(faults, rounds, roundId);
  }

  // ---------- what the linked rounds mean ----------

  /** Rounds of a fault carry the numbers 1..n without holes. */
  lemma {:induction false} RoundNumbersContiguous(faults: map<int, Fault>, rounds: map<int, Round>, roundId: int,
                                                  k: int)
    requires RoundsLinked(faults, rounds) && roundId in rounds && 1 <= k <= rounds[roundId].number
    ensures exists q :: q in rounds && rounds[q].fault == rounds[roundId].fault && rounds[q].number == k
    decreases rounds[roundId].number
  {
    assert RoundWellFormed(faults, rounds, roundId);
    if k < rounds[roundId].number {
      RoundNumbersContiguous(faults, rounds, rounds[roundId].previous.value, k);
    }
  }

  /** Later rounds start and finish no earlier than earlier ones finished. */
  lemma {:induction false} FinishTimesNeverDecrease(faults: map<int, Fault>, rounds: map<int, Round>, earlier: int,
                                                    later: int)
    requires RoundsLinked(faults, rounds) && earlier in rounds && later in rounds
    requires rounds[earlier].fault == rounds[later].fault && rounds[earlier].number < rounds[later].number
    ensures rounds[earlier].finishedAt.Some?
    ensures NotBefore(rounds[later].startedAt, rounds[earlier].finishedAt.value)
    ensures NotBefore(rounds[later].finishedAt, rounds[earlier].finishedAt.value)
    decreases rounds[later].number
  {
    assert RoundWellFormed(faults, rounds, later);
    var p := rounds[later].previous.value;
    if rounds[p].number == rounds[earlier].number {
      assert p == earlier;
    } else {
      FinishTimesNeverDecrease(faults, rounds, earlier, p);
    }
  }

  lemma {:induction false} LatestOf(rounds: map<int, Round>, ids: set<int>) returns (latest: int)
    requires ids <= rounds.Keys && ids != {}
    ensures latest in ids && forall r :: r in ids ==> rounds[r].number <= rounds[latest].number
    decreases |ids|
  {
    HasMember(ids);
    var r :| r in ids;
    latest := r;
    if ids != {r} {
      var rest := LatestOf(rounds, ids - {r});
      if rounds[r].number < rounds[rest].number { latest := rest; }
    }
  }

  /** A fault is closed if and only if its latest round is finished, and at that very time. */
  lemma ClosedIffRepaired(db: Db, faultId: int)
    requires Inv(db) && faultId in db.faults
    ensures db.faults[faultId].closed <==>
            exists r :: IsCurrentRound(db.rounds, r) && db.rounds[r].fault == faultId
                        && db.rounds[r].finishedAt.Some? && db.rounds[r].finishedAt == db.faults[faultId].resolvedAt
  {
    if db.faults[faultId].closed {
      var ids := set r | r in db.rounds && db.rounds[r].fault == faultId;
      var r :| r in db.rounds && db.rounds[r].fault == faultId;
      assert r in ids;
      var latest := LatestOf(db.rounds, ids);
      assert IsCurrentRound(db.rounds, latest);
    }
  }

  /** Unfinished repairs exist only while the asset is in repair. */
  lemma UnfinishedRoundMeansRepair(db: Db, assetId: int)
    requires Inv(db) && assetId in db.assets && HasUnfinishedRound(db.faults, db.rounds, assetId)
    ensures db.assets[assetId].status == Repair
  {
    var r :| r in db.rounds && db.rounds[r].finishedAt == None && db.rounds[r].fault in db.faults
             && db.faults[db.rounds[r].fault].asset == assetId;
    assert IsCurrentRound(db.rounds, r);
    assert !db.faults[db.rounds[r].fault].closed;
  }

  // ---------- the services, step by step ----------

  method SyncAssetFaultStatus(store: Store, assetId: int, faultId: Option<int>) returns (ok: bool)
    modifies store`assets
    ensures ok <==> SyncAsset(old(store.View()), assetId, faultId).Committed?
    ensures store.View() == After(old(store.View()), SyncAsset(old(store.View()), assetId, faultId))
  {
    if assetId !in store.assets || store.assets[assetId].archived { return false; }
    var asset := store.assets[assetId];
    var hasOpen := exists f | f in store.faults :: store.faults[f].asset == assetId && !store.faults[f].closed;
    var otherOpen := hasOpen;
    if faultId.Some? {
      var others := store.faults - {faultId.value};
      otherOpen := exists f | f in others :: others[f].asset == assetId && !others[f].closed;
    }
    if hasOpen {
      if asset.status == Retired { return false; }
      if asset.status != Repair {
        if !otherOpen && asset.beforeRepair == None {
          asset := asset.(beforeRepair := Some(asset.status));
        }
        asset := asset.(status := Repair);
      }
    } else if asset.status == Repair {
      if asset.beforeRepair.Some? && Restorable(asset.beforeRepair.value) {
        asset := asset.(status := asset.beforeRepair.value);
        asset := asset.(beforeRepair := None);
      }
    } else if asset.beforeRepair.Some? {
      asset := asset.(beforeRepair := None);
    }
    store.assets := store.assets[assetId := asset];
    return true;
  }

  method SyncFaultCompletion(store: Store, faultId: int, finishedAt: Option<int>) returns (ok: bool)
    requires faultId in store.faults
    modifies store
    ensures ok <==> Complete(old(store.View()), faultId, finishedAt).Committed?
    ensures ok ==> store.View() == After(old(store.View()), Complete(old(store.View()), faultId, finishedAt))
  {
    var fault := store.faults[faultId];
    if fault.closed != finishedAt.Some? || fault.resolvedAt != finishedAt {
      fault := fault.(closed := finishedAt.Some?, resolvedAt := finishedAt);
      store.faults := store.faults[faultId := fault];
    }
    assert store.faults == Resolve(old(store.faults), faultId, finishedAt);
    ok := SyncAssetFaultStatus(store, fault.asset, Some(faultId));
  }

  /** The latest retained round of a fault, the source's `fault.repair`. */
  method CurrentRound(store: Store, faultId: int) returns (current: Option<int>)
    ensures current == None <==> !HasRounds(store.rounds, faultId)
    ensures current.Some? ==>
              IsCurrentRound(store.rounds, current.value) && store.rounds[current.value].fault == faultId
  {
    current := None;
    var todo := store.rounds.Keys;
    while todo != {}
      invariant todo <= store.rounds.Keys
      invariant current.Some? ==> current.value in store.rounds && store.rounds[current.value].fault == faultId
      invariant forall r :: r in store.rounds && r !in todo && store.rounds[r].fault == faultId ==>
                  current.Some? && store.rounds[r].number <= store.rounds[current.value].number
      decreases todo
    {
      HasMember(todo);
      var r :| r in todo;
      if store.rounds[r].fault == faultId
         && (current == None || store.rounds[current.value].number < store.rounds[r].number) {
        current := Some(r);
      }
      todo := todo - {r};
    }
    assert current.Some? ==> exists r :: r == current.value && r in store.rounds && store.rounds[r].fault == faultId;
  }

  lemma CurrentIsUnique(rounds: map<int, Round>, r: int, q: int)
    requires NumbersDistinct(rounds) && IsCurrentRound(rounds, r) && q in rounds && rounds[q].fault == rounds[r].fault
    ensures IsCurrentRound(rounds, q) <==> q == r
  {}

  method CreateFaultEvent(store: Store, faultId: int, assetId: int, occurredAt: int, reportedAt: Option<int>)
    returns (ok: bool)
    modifies store
    ensures ok <==> CreateFault(old(store.View()), faultId, assetId, occurredAt, reportedAt).Committed?
    ensures store.View() ==
              After(old(store.View()), CreateFault(old(store.View()), faultId, assetId, occurredAt, reportedAt))
  {
    if faultId in store.faults || assetId !in store.assets || store.assets[assetId].archived { return false; }
    var errors := ValidateFaultTimes(occurredAt, reportedAt, None);
    if errors != {} { return false; }
    var saved := store.View();
    store.faults := store.faults[faultId := Fault(assetId, occurredAt, reportedAt, false, None, false)];
    ok := SyncAssetFaultStatus(store, assetId, Some(faultId));
    if !ok { store.Restore(saved); }
  }

  /** The times of the submitted fault against every retained round. */
  method CheckFaultTimes(store: Store, faultId: int, occurredAt: int, reportedAt: Option<int>) returns (fits: bool)
    ensures fits <==> FaultTimesOk(store.rounds, faultId, occurredAt, reportedAt)
  {
    var current := CurrentRound(store, faultId);
    var errors := ValidateFaultTimes(occurredAt, reportedAt, if current == None then None
        else Some(store.rounds[current.value]));
    fits := errors == {};
    assert !fits ==> ReportedAt in errors || OccurredAt in errors;
    var todo := store.rounds.Keys;
    while todo != {}
      invariant todo <= store.rounds.Keys
      invariant fits ==> NotBefore(reportedAt, occurredAt)
      invariant fits ==> forall r :: r in store.rounds && r !in todo && store.rounds[r].fault == faultId ==>
                  NotBefore(store.rounds[r].startedAt, occurredAt) && NotBefore(store.rounds[r].finishedAt, occurredAt)
      invariant !fits ==> !FaultTimesOk(store.rounds, faultId, occurredAt, reportedAt)
      decreases todo
    {
      HasMember(todo);
      var r :| r in todo;
      if store.rounds[r].fault == faultId {
        errors := ValidateFaultTimes(occurredAt, None, Some(store.rounds[r]));
        assert errors != {} ==> ReportedAt in errors || OccurredAt in errors;
        fits := fits && errors == {};
      }
      todo := todo - {r};
    }
  }

  method UpdateFaultEvent(store: Store, faultId: int, patch: FaultPatch) returns (ok: bool)
    modifies store
    ensures ok <==> UpdateFault(old(store.View()), faultId, patch).Committed?
    ensures store.View() == After(old(store.View()), UpdateFault(old(store.View()), faultId, patch))
  {
    if faultId !in store.faults { return false; }
    var fault := store.faults[faultId];
    if fault.closed && patch != NO_FAULT_FIELDS { return false; }
    if patch.occurredAt.Some? { fault := fault.(occurredAt := patch.occurredAt.value); }
    if patch.reportedAt.Some? { fault := fault.(reportedAt := patch.reportedAt.value); }
    var fits := CheckFaultTimes(store, faultId, fault.occurredAt, fault.reportedAt);
    if !fits { return false; }
    var saved := store.View();
    store.faults := store.faults[faultId := fault];
    ok := SyncAssetFaultStatus(store, fault.asset, None);
    if !ok { store.Restore(saved); }
  }

  method DeleteFaultEvent(store: Store, faultId: int) returns (ok: bool)
    modifies store
    ensures ok <==> DeleteFault(old(store.View()), faultId).Committed?
    ensures store.View() == After(old(store.View()), DeleteFault(old(store.View()), faultId))
  {
    if faultId !in store.faults { return false; }
    var fault := store.faults[faultId];
    if fault.closed || fault.pinned { return false; }
    if exists r | r in store.rounds :: store.rounds[r].fault == faultId { return false; }
    var saved := store.View();
    store.faults := store.faults - {faultId};
    ok := SyncAssetFaultStatus(store, fault.asset, None);
    if !ok { store.Restore(saved); }
  }

  /** `validate_repair_write` and the save with `sync_repair_completion`. */
  method SaveRepair(store: Store, roundId: int, round: Round) returns (ok: bool)
    requires round.fault in store.faults
    modifies store
    ensures ok <==> SaveRound(old(store.View()), roundId, round).Committed?
    ensures store.View() == After(old(store.View()), SaveRound(old(store.View()), roundId, round))
  {
    var fault := store.faults[round.fault];
    if fault.asset in store.assets && store.assets[fault.asset].archived { return false; }
    if round.previous.Some? && round.previous.value in store.rounds
       && store.rounds[round.previous.value].finishedAt.Some? {
      var floor := store.rounds[round.previous.value].finishedAt.value;
      if (round.startedAt.Some? && round.startedAt.value < floor)
         || (round.finishedAt.Some? && round.finishedAt.value < floor) {
        return false;
      }
    }
    var errors := ValidateRepairTimes(fault.occurredAt, round.startedAt, round.finishedAt);
    assert errors != {} ==> StartedAt in errors || FinishedAt in errors;
    if errors != {} { return false; }
    var saved := store.View();
    store.rounds := store.rounds[roundId := round];
    ok := SyncFaultCompletion(store, round.fault, round.finishedAt);
    if !ok { store.Restore(saved); }
  }

  /** Writes the given new row, or the draft that a part usage opened. */
  method CreateRepairRecord(store: Store, faultId: int, newId: int, startedAt: Option<int>, finishedAt: Option<int>)
    returns (ok: bool, roundId: int)
    requires NumbersDistinct(store.rounds)
    modifies store
    ensures !HasRounds(old(store.rounds), faultId) ==> roundId == newId
    ensures HasRounds(old(store.rounds), faultId) && faultId in old(store.faults) ==>
              IsCurrentRound(old(store.rounds), roundId)
    ensures ok <==> CreateRepair(old(store.View()), faultId, roundId, startedAt, finishedAt).Committed?
    ensures store.View() ==
              After(old(store.View()), CreateRepair(old(store.View()), faultId, roundId, startedAt, finishedAt))
  {
    roundId := newId;
    if faultId !in store.faults { return false, roundId; }
    var current := CurrentRound(store, faultId);
    if current == None {
      if newId in store.rounds { return false, roundId; }
      ok := SaveRepair(store, roundId, Round(faultId, 1, None, Recorded, startedAt, finishedAt, false));
    } else {
      roundId := current.value;
      var round := store.rounds[roundId];
      if round.origin != UsageStarted || round.finishedAt.Some? { return false, roundId; }
      ok := SaveRepair(store, roundId, round.(origin := Recorded, startedAt := startedAt, finishedAt := finishedAt));
    }
  }

  method UpdateRepairRecord(store: Store, roundId: int, patch: RoundPatch) returns (ok: bool)
    requires NumbersDistinct(store.rounds)
    modifies store
    ensures ok <==> UpdateRepair(old(store.View()), roundId, patch).Committed?
    ensures store.View() == After(old(store.View()), UpdateRepair(old(store.View()), roundId, patch))
  {
    if roundId !in store.rounds { return false; }
    var round := store.rounds[roundId];
    if round.fault !in store.faults { return false; }
    if round.finishedAt.Some? && patch != NO_ROUND_FIELDS { return false; }
    var current := CurrentRound(store, round.fault);
    CurrentIsUnique(store.rounds, current.value, roundId);
    if current != Some(roundId) { return false; }
    if patch.startedAt.Some? { round := round.(startedAt := patch.startedAt.value); }
    if patch.finishedAt.Some? { round := round.(finishedAt := patch.finishedAt.value); }
    if round.origin == UsageStarted { round := round.(origin := Recorded); }
    ok := SaveRepair(store, roundId, round);
  }

  method ReopenRepairRecord(store: Store, roundId: int, successorId: int) returns (ok: bool)
    requires NumbersDistinct(store.rounds)
    modifies store
    ensures ok <==> ReopenRepair(old(store.View()), roundId, successorId).Committed?
    ensures store.View() == After(old(store.View()), ReopenRepair(old(store.View()), roundId, successorId))
  {
    if roundId !in store.rounds || successorId in store.rounds { return false; }
    var round := store.rounds[roundId];
    if round.fault !in store.faults || round.finishedAt == None { return false; }
    var current := CurrentRound(store, round.fault);
    CurrentIsUnique(store.rounds, current.value, roundId);
    if current != Some(roundId) { return false; }
    var saved := store.View();
    store.rounds := store.rounds[successorId := Round(round.fault, round.number + 1, Some(roundId), Recorded, None,
                                                      None, false)];
    ok := SyncFaultCompletion(store, round.fault, None);
    if !ok { store.Restore(saved); }
  }

  method DeleteRepairRecord(store: Store, roundId: int) returns (ok: bool)
    modifies store
    ensures ok <==> DeleteRepair(old(store.View()), roundId).Committed?
    ensures store.View() == After(old(store.View()), DeleteRepair(old(store.View()), roundId))
  {
    if roundId !in store.rounds { return false; }
    var round := store.rounds[roundId];
    if round.fault !in store.faults || round.finishedAt.Some? || round.previous.Some? || round.pinned { return false; }
    var saved := store.View();
    store.rounds := store.rounds - {roundId};
    var current := CurrentRound(store, round.fault);
    if current.Some? {
      store.Restore(saved);
      return false;
    }
    ok := SyncFaultCompletion(store, round.fault, None);
    if !ok { store.Restore(saved); }
  }

  /** `begin_usage_round` under the admission of a repair part usage. */
  method BeginUsageRound(store: Store, faultId: int, newId: int) returns (ok: bool, roundId: int)
    requires NumbersDistinct(store.rounds)
    modifies store
    ensures ok <==> UseParts(old(store.View()), faultId, roundId).Committed?
    ensures store.View() == After(old(store.View()), UseParts(old(store.View()), faultId, roundId))
  {
    roundId := newId;
    if faultId !in store.faults || store.faults[faultId].closed { return false, roundId; }
    var assetId := store.faults[faultId].asset;
    if assetId !in store.assets || store.assets[assetId].archived || store.assets[assetId].status == Retired {
      return false, roundId;
    }
    var current := CurrentRound(store, faultId);
    if current == None {
      if newId in store.rounds { return false, roundId; }
      PinRound(store, faultId, newId, Round(faultId, 1, None, UsageStarted, None, None, false));
    } else {
      roundId := current.value;
      if store.rounds[roundId].finishedAt.Some? { return false, roundId; }
      PinRound(store, faultId, roundId, store.rounds[roundId]);
    }
    return true, roundId;
  }

  /** Parts refer to the fault and its round from now on. */
  method PinRound(store: Store, faultId: int, roundId: int, round: Round)
    requires faultId in store.faults
    modifies store`faults, store`rounds
    ensures store.faults == old(store.faults)[faultId := old(store.faults)[faultId].(pinned := true)]
    ensures store.rounds == old(store.rounds)[roundId := round.(pinned := true)]
  {
    store.faults := store.faults[faultId := store.faults[faultId].(pinned := true)];
    store.rounds := store.rounds[roundId := round.(pinned := true)];
  }
}
