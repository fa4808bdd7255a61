/** What a committed fault or repair write leaves behind: the submitted fields, the closure of the
    fault and the status of the asset, said of the rows alone.

    Covers backend/assets/repair_writes.py:39-406.
 */
module RepairResults {
  import opened RackRanges
  import opened Records
  import opened Repairs

  /** How an asset row answers to its faults: with an open one it is in repair and keeps the status
      it had, and without one it has that status back. */
  ghost predicate StatusFollows(before: Asset, after: Asset, open: bool) {
    && after == before.(status := after.status, beforeRepair := after.beforeRepair)
    && (open ==> after.status == AssetStatus.Repair)
    && (open && before.status == AssetStatus.Repair ==> after.beforeRepair == before.beforeRepair)
    && (open && before.status != AssetStatus.Repair ==> after.beforeRepair == Some(before.status))
    && (!open ==> after.beforeRepair == None)
    && (!open && before.status == AssetStatus.Repair ==> before.beforeRepair == Some(after.status))
    && (!open && before.status != AssetStatus.Repair ==> after.status == before.status)
  }

  /** Fault and round rows are replaced as given and the asset's row follows; nothing else changes. */
  ghost predicate Follows(db: Db, after: Db, faults: map<int, Fault>, rounds: map<int, Round>, assetId: int) {
    && assetId in db.assets && assetId in after.assets
    && after == db.(faults := faults, rounds := rounds, assets := db.assets[assetId := after.assets[assetId]])
    && StatusFollows(db.assets[assetId], after.assets[assetId], HasOpenFault(faults, assetId))
  }

  /** The asset can follow: it is not archived, and not retired while a fault would be open. */
  ghost predicate Takes(db: Db, faults: map<int, Fault>, assetId: int) {
    assetId in db.assets && !db.assets[assetId].archived
    && !(db.assets[assetId].status == Retired && HasOpenFault(faults, assetId))
  }

  lemma SyncFollows(db: Db, faults: map<int, Fault>, rounds: map<int, Round>, assetId: int, faultId: Option<int>)
    requires FaultStatusSynced(db.assets, db.faults)
    requires HasOpenFault(faults, assetId) && !HasOpenFault(db.faults, assetId) ==>
               faultId.Some? && !HasOpenFault(faults - {faultId.value}, assetId)
    ensures var outcome := SyncAsset(db.(faults := faults, rounds := rounds), assetId, faultId);
            (outcome.Committed? <==> Takes(db, faults, assetId))
            && (outcome.Committed? ==> Follows(db, outcome.db, faults, rounds, assetId))
  {}

  // ---------- faults ----------

  predicate NotLater(floor: int, time: Option<int>) {
    time == None || floor <= time.value
  }

  /** A fault is created for a current asset that is not retired, reported no earlier than it
      occurred; the asset is in repair from then on. */
  lemma FaultCreated(db: Db, faultId: int, assetId: int, occurredAt: int, reportedAt: Option<int>)
    requires Inv(db)
    ensures var outcome := CreateFault(db, faultId, assetId, occurredAt, reportedAt);
            (outcome.Committed? <==>
              faultId !in db.faults && assetId in db.assets && !db.assets[assetId].archived
              && db.assets[assetId].status != Retired && NotLater(occurredAt, reportedAt))
            && (outcome.Committed? ==>
                  Follows(db, outcome.db,
                          db.faults[faultId := Fault(assetId, occurredAt, reportedAt, false, None, false)], db.rounds,
                          assetId)
                  && outcome.db.assets[assetId].status == AssetStatus.Repair)
  {
    var fault := Fault(assetId, occurredAt, reportedAt, false, None, false);
    var faults := db.faults[faultId := fault];
    if faultId !in db.faults {
      OneFaultChanged(db.faults, faultId, fault);
      assert HasOpenFault(faults, assetId) by { assert faults[faultId] == fault; }
      SyncFollows(db, faults, db.rounds, assetId, Some(faultId));
      assert db.(faults := faults, rounds := db.rounds) == db.(faults := faults);
    }
  }

  /** The value of a field after a PATCH that may or may not name it. */
  function Value<T>(submitted: Option<T>, present: T): T {
    if submitted.Some? then submitted.value else present
  }

  /** No time of the fault's rounds is before `floor`. */
  ghost predicate RoundsFrom(rounds: map<int, Round>, faultId: int, floor: int) {
    forall r :: r in rounds && rounds[r].fault == faultId ==>
      NotLater(floor, rounds[r].startedAt) && NotLater(floor, rounds[r].finishedAt)
  }

  /** The submitted fields of a fault are stored, and nothing else changes. */
  lemma FaultEdited(db: Db, faultId: int, patch: FaultPatch)
    requires Inv(db) && UpdateFault(db, faultId, patch).Committed?
    ensures var after := UpdateFault(db, faultId, patch).db;
            && faultId in db.faults && faultId in after.faults
            && after == db.(faults := db.faults[faultId := after.faults[faultId]])
            && (patch.occurredAt.Some? ==> after.faults[faultId].occurredAt == patch.occurredAt.value)
            && (patch.reportedAt.Some? ==> after.faults[faultId].reportedAt == patch.reportedAt.value)
            && after.faults[faultId] == db.faults[faultId].(
                 occurredAt := if patch.occurredAt.Some? then after.faults[faultId].occurredAt
                     else db.faults[faultId].occurredAt,
                 reportedAt := if patch.reportedAt.Some? then after.faults[faultId].reportedAt
                     else db.faults[faultId].reportedAt)
  {
    var fault := PatchedFault(db.faults[faultId], patch);
    var faults := db.faults[faultId := fault];
    SameOpenFaults(db.faults, faultId, fault);
    StatusStays(db, faults, fault.asset);
  }

  lemma SameOpenFaults(faults: map<int, Fault>, faultId: int, fault: Fault)
    requires faultId in faults && fault.asset == faults[faultId].asset && fault.closed == faults[faultId].closed
    ensures HasOpenFault(faults[faultId := fault], fault.asset) == HasOpenFault(faults, fault.asset)
  {
    var after := faults[faultId := fault];
    if f :| f in after && after[f].asset == fault.asset && !after[f].closed {
      assert f in faults && faults[f].asset == fault.asset && !faults[f].closed;
    }
    if f :| f in faults && faults[f].asset == fault.asset && !faults[f].closed {
      assert f in after && after[f].asset == fault.asset && !after[f].closed;
    }
  }

  lemma StatusStays(db: Db, faults: map<int, Fault>, assetId: int)
    requires FaultStatusSynced(db.assets, db.faults)
    requires HasOpenFault(faults, assetId) == HasOpenFault(db.faults, assetId)
    ensures SyncAsset(db.(faults := faults), assetId, None) ==
            if assetId in db.assets && !db.assets[assetId].archived then Committed(db.(faults := faults))
            else RolledBack
  {
    if assetId in db.assets { assert db.assets[assetId := db.assets[assetId]] == db.assets; }
  }

  lemma FaultTimesAre(rounds: map<int, Round>, faultId: int, occurredAt: int, reportedAt: Option<int>)
    ensures FaultTimesOk(rounds, faultId, occurredAt, reportedAt) <==>
            NotLater(occurredAt, reportedAt) && RoundsFrom(rounds, faultId, occurredAt)
  {}

  lemma FaultEditableIff(db: Db, faultId: int, patch: FaultPatch)
    requires faultId in db.faults
    ensures var occurred := Value(patch.occurredAt, db.faults[faultId].occurredAt);
            FaultEditable(db, faultId, patch) <==>
            && (db.faults[faultId].closed ==> patch.occurredAt == None && patch.reportedAt == None && !patch.others)
            && NotLater(occurred, Value(patch.reportedAt, db.faults[faultId].reportedAt))
            && RoundsFrom(db.rounds, faultId, occurred)
  {
    var fault := PatchedFault(db.faults[faultId], patch);
    FaultTimesAre(db.rounds, faultId, fault.occurredAt, fault.reportedAt);
  }

  /** A fault edit is refused only for a closed fault with a field to change, an archived asset, and
      times before the fault occurred. */
  lemma FaultEditIff(db: Db, faultId: int, patch: FaultPatch)
    requires Inv(db) && faultId in db.faults
    ensures var occurred := Value(patch.occurredAt, db.faults[faultId].occurredAt);
            UpdateFault(db, faultId, patch).Committed? <==>
            && !db.assets[db.faults[faultId].asset].archived
            && (db.faults[faultId].closed ==> patch.occurredAt == None && patch.reportedAt == None && !patch.others)
            && NotLater(occurred, Value(patch.reportedAt, db.faults[faultId].reportedAt))
            && RoundsFrom(db.rounds, faultId, occurred)
  {
    FaultEditableIff(db, faultId, patch);
    var fault := PatchedFault(db.faults[faultId], patch);
    SameOpenFaults(db.faults, faultId, fault);
    StatusStays(db, db.faults[faultId := fault], fault.asset);
  }

  /** An open fault without rounds or parts can be deleted, and the asset follows. */
  lemma FaultDeleted(db: Db, faultId: int)
    requires Inv(db) && faultId in db.faults
    ensures var outcome := DeleteFault(db, faultId);
            (outcome.Committed? <==>
              !db.faults[faultId].closed && !db.faults[faultId].pinned && !db.assets[db.faults[faultId].asset].archived
              && forall r :: r in db.rounds ==> db.rounds[r].fault != faultId)
            && (outcome.Committed? ==>
                  Follows(db, outcome.db, db.faults - {faultId}, db.rounds, db.faults[faultId].asset))
  {
    var faults := db.faults - {faultId};
    if !db.faults[faultId].closed {
      assert HasOpenFault(db.faults, db.faults[faultId].asset);
      SyncFollows(db, faults, db.rounds, db.faults[faultId].asset, None);
      assert db.(faults := faults, rounds := db.rounds) == db.(faults := faults);
    }
    assert HasRounds(db.rounds, faultId) <==> !(forall r :: r in db.rounds ==> db.rounds[r].fault != faultId);
  }

  // ---------- rounds ----------

  /** The fault rows once the given fault is open, or closed at a time. */
  function FaultsWith(faults: map<int, Fault>, faultId: int, finishedAt: Option<int>): map<int, Fault>
    requires faultId in faults
  {
    faults[faultId := faults[faultId].(closed := finishedAt.Some?, resolvedAt := finishedAt)]
  }

  lemma CompleteFollows(db: Db, rounds: map<int, Round>, faultId: int, finishedAt: Option<int>)
    requires FaultStatusSynced(db.assets, db.faults) && faultId in db.faults
    ensures var outcome := Complete(db.(rounds := rounds), faultId, finishedAt);
            var faults, assetId := FaultsWith(db.faults, faultId, finishedAt), db.faults[faultId].asset;
            (outcome.Committed? <==> Takes(db, faults, assetId))
            && (outcome.Committed? ==> Follows(db, outcome.db, faults, rounds, assetId))
  {
    var fault := db.faults[faultId].(closed := finishedAt.Some?, resolvedAt := finishedAt);
    var faults := FaultsWith(db.faults, faultId, finishedAt);
    assert Complete(db.(rounds := rounds), faultId, finishedAt) ==
      SyncAsset(db.(faults := faults, rounds := rounds), fault.asset, Some(faultId));
    OneFaultChanged(db.faults, faultId, fault);
    SyncFollows(db, faults, rounds, fault.asset, Some(faultId));
  }

  /** The times are in order, after the fault and after the round before. */
  predicate TimesFit(db: Db, round: Round)
    requires round.fault in db.faults
  {
    && NotLater(db.faults[round.fault].occurredAt, round.startedAt)
    && NotLater(db.faults[round.fault].occurredAt, round.finishedAt)
    && (round.startedAt.Some? ==> NotLater(round.startedAt.value, round.finishedAt))
    && (round.previous.Some? && round.previous.value in db.rounds
        && db.rounds[round.previous.value].finishedAt.Some? ==>
          NotLater(db.rounds[round.previous.value].finishedAt.value, round.startedAt)
          && NotLater(db.rounds[round.previous.value].finishedAt.value, round.finishedAt))
  }

  /** The round is stored, its fault is closed exactly by its completion, and the asset follows. */
  ghost predicate RoundStored(db: Db, after: Db, roundId: int, round: Round) {
    && round.fault in db.faults
    && Follows(db, after, FaultsWith(db.faults, round.fault, round.finishedAt), db.rounds[roundId := round],
               db.faults[round.fault].asset)
  }

  lemma TimesAre(db: Db, round: Round)
    requires round.fault in db.faults
    ensures RoundTimesOk(db.faults, db.rounds, round) == TimesFit(db, round)
  {}

  lemma SavedRound(db: Db, roundId: int, round: Round)
    requires Inv(db) && round.fault in db.faults
    requires !db.faults[round.fault].closed || db.faults[round.fault].resolvedAt == round.finishedAt
    ensures var outcome := SaveRound(db, roundId, round);
            (outcome.Committed? <==> !db.assets[db.faults[round.fault].asset].archived && TimesFit(db, round))
            && (outcome.Committed? ==> RoundStored(db, outcome.db, roundId, round))
  {
    TimesAre(db, round);
    CompleteFollows(db, db.rounds[roundId := round], round.fault, round.finishedAt);
    OpenMeansRepair(db, round.fault, round.finishedAt);
  }

  /** An asset whose fault stays open, or whose open faults do not grow, is not retired. */
  lemma OpenMeansRepair(db: Db, faultId: int, finishedAt: Option<int>)
    requires FaultStatusSynced(db.assets, db.faults)
    requires faultId in db.faults && db.faults[faultId].asset in db.assets
    requires db.faults[faultId].closed ==> finishedAt.Some?
    ensures var faults, assetId := FaultsWith(db.faults, faultId, finishedAt), db.faults[faultId].asset;
            Takes(db, faults, assetId) <==> !db.assets[assetId].archived
  {
    var faults, assetId := FaultsWith(db.faults, faultId, finishedAt), db.faults[faultId].asset;
    if HasOpenFault(faults, assetId) {
      var f :| f in faults && faults[f].asset == assetId && !faults[f].closed;
      assert f in db.faults && db.faults[f].asset == assetId && !db.faults[f].closed;
      assert HasOpenFault(db.faults, assetId);
    }
  }

  /** The current round's row after an edit: submitted fields are stored, a draft counts as
      recorded, and all else stays. */
  predicate RowEdited(before: Round, patch: RoundPatch, after: Round) {
    && after == before.(origin := Recorded, startedAt := after.startedAt, finishedAt := after.finishedAt)
    && (patch.startedAt.Some? ==> after.startedAt == patch.startedAt.value)
    && (patch.startedAt == None ==> after.startedAt == before.startedAt)
    && (patch.finishedAt.Some? ==> after.finishedAt == patch.finishedAt.value)
    && (patch.finishedAt == None ==> after.finishedAt == before.finishedAt)
  }

  lemma ClosedAsFinished(db: Db, roundId: int)
    requires Inv(db) && IsCurrentRound(db.rounds, roundId) && db.rounds[roundId].fault in db.faults
    ensures db.faults[db.rounds[roundId].fault].resolvedAt == db.rounds[roundId].finishedAt
    ensures db.faults[db.rounds[roundId].fault].closed == db.rounds[roundId].finishedAt.Some?
  {}

  lemma RoundEdited(db: Db, roundId: int, patch: RoundPatch)
    requires Inv(db) && UpdateRepair(db, roundId, patch).Committed?
    ensures var after := UpdateRepair(db, roundId, patch).db;
            && roundId in db.rounds && roundId in after.rounds
            && RowEdited(db.rounds[roundId], patch, after.rounds[roundId])
            && RoundStored(db, after, roundId, after.rounds[roundId])
  {
    ClosedAsFinished(db, roundId);
    SavedRound(db, roundId, PatchedRound(db.rounds[roundId], patch));
  }

  /** An edit is refused only for a round that is not the latest, a finished one with a field to
      change, an archived asset and times out of order. */
  lemma RoundEditIff(db: Db, roundId: int, patch: RoundPatch)
    requires Inv(db) && roundId in db.rounds
    ensures var round := db.rounds[roundId];
            UpdateRepair(db, roundId, patch).Committed? <==>
            && (forall r :: r in db.rounds && db.rounds[r].fault == round.fault ==> db.rounds[r].number <= round.number)
            && (round.finishedAt.Some? ==> patch.startedAt == None && patch.finishedAt == None && !patch.others)
            && !db.assets[db.faults[round.fault].asset].archived
            && TimesFit(db, round.(startedAt := Value(patch.startedAt, round.startedAt),
                                   finishedAt := Value(patch.finishedAt, round.finishedAt)))
  {
    if IsCurrentRound(db.rounds, roundId) && (db.rounds[roundId].finishedAt.Some? ==> patch == NO_ROUND_FIELDS) {
      ClosedAsFinished(db, roundId);
      SavedRound(db, roundId, PatchedRound(db.rounds[roundId], patch));
    }
  }

  /** A finishing time closes the fault at that time; with no other open fault the asset has the
      status back that it had before, and no saved status any more. */
  lemma FinishingRepairs(db: Db, roundId: int, patch: RoundPatch, t: int)
    requires Inv(db) && UpdateRepair(db, roundId, patch).Committed? && patch.finishedAt == Some(Some(t))
    ensures var after := UpdateRepair(db, roundId, patch).db;
            var faultId := db.rounds[roundId].fault;
            var assetId := db.faults[faultId].asset;
            && after.faults[faultId].closed && after.faults[faultId].resolvedAt == Some(t)
            && ((forall f :: f in db.faults && f != faultId && db.faults[f].asset == assetId ==>
                   db.faults[f].closed) ==>
                  db.assets[assetId].beforeRepair == Some(after.assets[assetId].status)
                  && after.assets[assetId].beforeRepair == None)
  {
    RoundEdited(db, roundId, patch);
    ClosedAsFinished(db, roundId);
    assert HasOpenFault(db.faults, db.faults[db.rounds[roundId].fault].asset);
  }

  /** The first round of a fault, or the draft that a part usage opened, with the given times. */
  predicate RowCreated(db: Db, faultId: int, roundId: int, startedAt: Option<int>, finishedAt: Option<int>,
                       row: Round)
  {
    && row.fault == faultId && row.origin == Recorded && row.startedAt == startedAt && row.finishedAt == finishedAt
    && (roundId in db.rounds ==> row == db.rounds[roundId].(origin := Recorded, startedAt := startedAt,
                                                            finishedAt := finishedAt))
    && (roundId !in db.rounds ==> row.number == 1 && row.previous == None && !row.pinned)
  }

  lemma RoundCreated(db: Db, faultId: int, roundId: int, startedAt: Option<int>, finishedAt: Option<int>)
    requires Inv(db) && CreateRepair(db, faultId, roundId, startedAt, finishedAt).Committed?
    ensures var after := CreateRepair(db, faultId, roundId, startedAt, finishedAt).db;
            && roundId in after.rounds
            && RowCreated(db, faultId, roundId, startedAt, finishedAt, after.rounds[roundId])
            && RoundStored(db, after, roundId, after.rounds[roundId])
  {
    if HasRounds(db.rounds, faultId) {
      ClosedAsFinished(db, roundId);
      SavedRound(db, roundId,
                 db.rounds[roundId].(origin := Recorded, startedAt := startedAt, finishedAt := finishedAt));
    } else {
      SavedRound(db, roundId, Round(faultId, 1, None, Recorded, startedAt, finishedAt, false));
    }
  }

  /** A repair is created for a fault without rounds, or over the draft that is its latest one. */
  lemma RoundCreateIff(db: Db, faultId: int, roundId: int, startedAt: Option<int>, finishedAt: Option<int>)
    requires Inv(db) && faultId in db.faults
    ensures CreateRepair(db, faultId, roundId, startedAt, finishedAt).Committed? <==>
            && !db.assets[db.faults[faultId].asset].archived
            && (if roundId in db.rounds
                then IsCurrentRound(db.rounds, roundId) && db.rounds[roundId].fault == faultId
                     && db.rounds[roundId].origin == UsageStarted
                     && TimesFit(db, db.rounds[roundId].(startedAt := startedAt, finishedAt := finishedAt))
                else (forall r :: r in db.rounds ==> db.rounds[r].fault != faultId)
                     && TimesFit(db, Round(faultId, 1, None, Recorded, startedAt, finishedAt, false)))
  {
    if HasRounds(db.rounds, faultId) {
      if IsCurrentRound(db.rounds, roundId) && db.rounds[roundId].fault == faultId {
        assert RoundWellFormed(db.faults, db.rounds, roundId);
        ClosedAsFinished(db, roundId);
        if db.rounds[roundId].finishedAt == None {
          SavedRound(db, roundId,
                     db.rounds[roundId].(origin := Recorded, startedAt := startedAt, finishedAt := finishedAt));
        }
      }
    } else {
      SavedRound(db, roundId, Round(faultId, 1, None, Recorded, startedAt, finishedAt, false));
    }
  }

  /** Reopening adds a blank round after the finished latest one, opens the fault again and puts
      the asset back into repair. */
  lemma RoundReopened(db: Db, roundId: int, successorId: int)
    requires Inv(db) && roundId in db.rounds
    ensures var outcome := ReopenRepair(db, roundId, successorId);
            var round := db.rounds[roundId];
            var assetId := db.faults[round.fault].asset;
            (outcome.Committed? <==>
              && (forall r :: r in db.rounds && db.rounds[r].fault == round.fault ==>
                    db.rounds[r].number <= round.number)
              && round.finishedAt.Some? && successorId !in db.rounds
              && !db.assets[assetId].archived && db.assets[assetId].status != Retired)
            && (outcome.Committed? ==>
                  RoundStored(db, outcome.db, successorId,
                              Round(round.fault, round.number + 1, Some(roundId), Recorded, None, None, false))
                  && outcome.db.assets[assetId].status == AssetStatus.Repair)
  {
    var faultId := db.rounds[roundId].fault;
    var faults := FaultsWith(db.faults, faultId, None);
    assert faults[faultId].asset == db.faults[faultId].asset && !faults[faultId].closed;
    assert HasOpenFault(faults, db.faults[faultId].asset);
    CompleteFollows(db, db.rounds[successorId := Successor(db.rounds, roundId)], faultId, None);
  }

  lemma OnlyRound(rounds: map<int, Round>, roundId: int)
    requires roundId in rounds
    ensures HasRounds(rounds - {roundId}, rounds[roundId].fault) <==>
            !(forall r :: r in rounds && r != roundId ==> rounds[r].fault != rounds[roundId].fault)
  {
    if r :| r in rounds && r != roundId && rounds[r].fault == rounds[roundId].fault {
      var others := rounds - {roundId};
      assert r in others && others[r].fault == rounds[roundId].fault;
    }
  }

  /** An unfinished only round without references can be deleted; the fault stays open. */
  lemma RoundDeleted(db: Db, roundId: int)
    requires Inv(db) && roundId in db.rounds
    ensures var round := db.rounds[roundId];
            DeleteRepair(db, roundId) ==
            if round.finishedAt == None && round.previous == None && !round.pinned
               && (forall r :: r in db.rounds && r != roundId ==> db.rounds[r].fault != round.fault)
               && !AssetArchived(db, round.fault)
            then Committed(db.(rounds := db.rounds - {roundId})) else RolledBack
  {
    OnlyRound(db.rounds, roundId);
    if db.rounds[roundId].finishedAt == None {
      assert IsCurrentRound(db.rounds, roundId);
      UnfinishedDeleted(db, db.rounds - {roundId}, roundId);
    }
  }

  lemma UnfinishedDeleted(db: Db, rounds: map<int, Round>, roundId: int)
    requires Inv(db) && IsCurrentRound(db.rounds, roundId) && db.rounds[roundId].finishedAt == None
    ensures var faultId := db.rounds[roundId].fault;
            Complete(db.(rounds := rounds), faultId, None) ==
            if AssetArchived(db, faultId) then RolledBack else Committed(db.(rounds := rounds))
  {
    ResolvedAlready(db.faults, db.rounds, roundId);
    SyncIsStable(db.(rounds := rounds), db.faults[db.rounds[roundId].fault].asset, Some(db.rounds[roundId].fault));
  }

  /** The fault is open, its asset current, and the named round its unfinished latest one, or it has
      none yet. */
  ghost predicate TakesParts(db: Db, faultId: int, roundId: int)
    requires faultId in db.faults && db.faults[faultId].asset in db.assets
  {
    && !db.faults[faultId].closed && !db.assets[db.faults[faultId].asset].archived
    && (if roundId in db.rounds
        then db.rounds[roundId].fault == faultId && db.rounds[roundId].finishedAt == None
        else forall r :: r in db.rounds ==> db.rounds[r].fault != faultId)
  }

  /** A part usage pins the open fault and its latest unfinished round, or a new draft. */
  lemma PartsUsed(db: Db, faultId: int, roundId: int)
    requires Inv(db) && faultId in db.faults
    ensures UseParts(db, faultId, roundId) ==
            if TakesParts(db, faultId, roundId)
            then Committed(db.(faults := db.faults[faultId := db.faults[faultId].(pinned := true)],
                rounds := db.rounds[roundId := if roundId in db.rounds then db.rounds[roundId].(pinned := true)
                    else Round(faultId, 1, None, UsageStarted, None, None, true)]))
            else RolledBack
  {
    if !db.faults[faultId].closed { assert HasOpenFault(db.faults, db.faults[faultId].asset); }
    assert HasRounds(db.rounds, faultId) <==> !(forall r :: r in db.rounds ==> db.rounds[r].fault != faultId);
    if roundId in db.rounds && db.rounds[roundId].finishedAt == None { UnfinishedIsCurrent(db, roundId); }
  }

  lemma UnfinishedIsCurrent(db: Db, roundId: int)
    requires Inv(db) && roundId in db.rounds && db.rounds[roundId].finishedAt == None
    ensures IsCurrentRound(db.rounds, roundId)
  {}

  // ---------- from a fault to its repair ----------

  /** An asset that is in no trouble breaks. */
  lemma Breaks(db: Db, faultId: int, assetId: int, occurredAt: int) returns (broken: Db)
    requires Inv(db) && assetId in db.assets && !db.assets[assetId].archived && Restorable(db.assets[assetId].status)
    requires faultId !in db.faults
    ensures CreateFault(db, faultId, assetId, occurredAt, None) == Committed(broken) && Inv(broken)
    ensures broken.faults == db.faults[faultId := Fault(assetId, occurredAt, None, false, None, false)]
            && broken.rounds == db.rounds && broken == db.(faults := broken.faults, assets := broken.assets)
    ensures assetId in broken.assets
            && broken.assets[assetId] == db.assets[assetId].(status := AssetStatus.Repair,
                                                             beforeRepair := Some(db.assets[assetId].status))
            && broken.assets == db.assets[assetId := broken.assets[assetId]]
  {
    FaultCreated(db, faultId, assetId, occurredAt, None);
    CreateFaultKeepsInv(db, faultId, assetId, occurredAt, None);
    broken := CreateFault(db, faultId, assetId, occurredAt, None).db;
  }

  lemma RepairStarts(db: Db, faultId: int, roundId: int, startedAt: int) returns (started: Db)
    requires Inv(db) && faultId in db.faults && !db.faults[faultId].closed && db.faults[faultId].occurredAt <= startedAt
    requires !db.assets[db.faults[faultId].asset].archived
    requires roundId !in db.rounds && forall r :: r in db.rounds ==> db.rounds[r].fault != faultId
    ensures CreateRepair(db, faultId, roundId, Some(startedAt), None) == Committed(started) && Inv(started)
    ensures started == db.(rounds := db.rounds[roundId :=
                Round(faultId, 1, None, Recorded, Some(startedAt), None, false)])
  {
    RoundCreateIff(db, faultId, roundId, Some(startedAt), None);
    RoundCreated(db, faultId, roundId, Some(startedAt), None);
    CreateRepairKeepsInv(db, faultId, roundId, Some(startedAt), None);
    started := CreateRepair(db, faultId, roundId, Some(startedAt), None).db;
    NothingToFollow(db, started, faultId);
  }

  lemma NothingToFollow(db: Db, after: Db, faultId: int)
    requires Inv(db) && faultId in db.faults && !db.faults[faultId].closed
    requires Follows(db, after, FaultsWith(db.faults, faultId, None), after.rounds, db.faults[faultId].asset)
    ensures after == db.(rounds := after.rounds)
  {
    var assetId := db.faults[faultId].asset;
    assert HasOpenFault(db.faults, assetId);
    assert FaultsWith(db.faults, faultId, None) == db.faults;
    assert after.assets[assetId] == db.assets[assetId];
  }

  /** The fault has been recorded and its repair begun; nothing else differs. */
  ghost predicate UnderRepair(db: Db, faultId: int, assetId: int, roundId: int, occurredAt: int, startedAt: int,
                              started: Db) {
    && assetId in db.assets && faultId !in db.faults && roundId !in db.rounds
    && started == db.(faults := db.faults[faultId := Fault(assetId, occurredAt, None, false, None, false)],
                      rounds := db.rounds[roundId := Round(faultId, 1, None, Recorded, Some(startedAt), None, false)],
                      assets := db.assets[assetId := db.assets[assetId].(
                        status := AssetStatus.Repair, beforeRepair := Some(db.assets[assetId].status))])
  }

  /** The repair is finished, the fault closed at that time, and the asset as before. */
  function Repaired(db: Db, faultId: int, assetId: int, roundId: int, occurredAt: int, startedAt: int,
                    finishedAt: int): Db {
    db.(faults := db.faults[faultId := Fault(assetId, occurredAt, None, true, Some(finishedAt), false)],
        rounds := db.rounds[roundId := Round(faultId, 1, None, Recorded, Some(startedAt), Some(finishedAt), false)])
  }

  lemma OnlyRoundFinishes(db: Db, faultId: int, roundId: int, startedAt: int, finishedAt: int) returns (after: Db)
    requires Inv(db) && faultId in db.faults && db.faults[faultId].occurredAt <= startedAt <= finishedAt
    requires roundId in db.rounds
             && db.rounds[roundId] == Round(faultId, 1, None, Recorded, Some(startedAt), None, false)
    requires forall r :: r in db.rounds && r != roundId ==> db.rounds[r].fault != faultId
    requires !db.assets[db.faults[faultId].asset].archived
    ensures UpdateRepair(db, roundId, RoundPatch(None, Some(Some(finishedAt)), false)) == Committed(after)
    ensures RoundStored(db, after, roundId,
                        Round(faultId, 1, None, Recorded, Some(startedAt), Some(finishedAt), false))
  {
    var patch := RoundPatch(None, Some(Some(finishedAt)), false);
    RoundEditIff(db, roundId, patch);
    RoundEdited(db, roundId, patch);
    after := UpdateRepair(db, roundId, patch).db;
  }

  /** A closed fault of an asset without open faults leaves it without. */
  lemma NoneOpen(faults: map<int, Fault>, faultId: int, fault: Fault)
    requires !HasOpenFault(faults, fault.asset) && fault.closed
    ensures !HasOpenFault(faults[faultId := fault], fault.asset)
  {
    var after := faults[faultId := fault];
    forall f | f in after && after[f].asset == fault.asset ensures after[f].closed {}
  }

  lemma Settles(db: Db, faultId: int, assetId: int, roundId: int, occurredAt: int, startedAt: int, finishedAt: int,
                started: Db, after: Db)
    requires UnderRepair(db, faultId, assetId, roundId, occurredAt, startedAt, started)
    requires db.assets[assetId].status != AssetStatus.Repair && db.assets[assetId].beforeRepair == None
    requires !HasOpenFault(db.faults, assetId)
    requires RoundStored(started, after, roundId,
                         Round(faultId, 1, None, Recorded, Some(startedAt), Some(finishedAt), false))
    ensures after == Repaired(db, faultId, assetId, roundId, occurredAt, startedAt, finishedAt)
  {
    var closed := Fault(assetId, occurredAt, None, true, Some(finishedAt), false);
    assert FaultsWith(started.faults, faultId, Some(finishedAt)) == db.faults[faultId := closed];
    NoneOpen(db.faults, faultId, closed);
    assert after.assets[assetId] == db.assets[assetId];
    assert started.assets[assetId := db.assets[assetId]] == db.assets;
  }

  lemma NoRoundsYet(db: Db, faultId: int)
    requires Inv(db) && faultId !in db.faults
    ensures forall r :: r in db.rounds ==> db.rounds[r].fault != faultId
  {}

  lemma HealthyRow(db: Db, assetId: int)
    requires Inv(db) && assetId in db.assets && Restorable(db.assets[assetId].status)
    ensures !HasOpenFault(db.faults, assetId) && db.assets[assetId].beforeRepair == None
  {}

  /** A current asset that is neither broken nor retired can always break and be repaired: the
      three calls commit, the last one closes the fault, and the asset is then what it was. */
  lemma BrokenAndRepaired(db: Db, faultId: int, assetId: int, roundId: int, occurredAt: int, startedAt: int,
                          finishedAt: int)
    requires Inv(db) && assetId in db.assets && !db.assets[assetId].archived && Restorable(db.assets[assetId].status)
    requires faultId !in db.faults && roundId !in db.rounds && occurredAt <= startedAt <= finishedAt
    ensures var broken := CreateFault(db, faultId, assetId, occurredAt, None);
            && broken.Committed?
            && var started := CreateRepair(broken.db, faultId, roundId, Some(startedAt), None);
            && started.Committed?
            && UpdateRepair(started.db, roundId, RoundPatch(None, Some(Some(finishedAt)), false)) ==
               Committed(Repaired(db, faultId, assetId, roundId, occurredAt, startedAt, finishedAt))
  {
    NoRoundsYet(db, faultId);
    HealthyRow(db, assetId);
    var broken := Breaks(db, faultId, assetId, occurredAt);
    var started := RepairStarts(broken, faultId, roundId, startedAt);
    assert UnderRepair(db, faultId, assetId, roundId, occurredAt, startedAt, started);
    var after := OnlyRoundFinishes(started, faultId, roundId, startedAt, finishedAt);
    Settles(db, faultId, assetId, roundId, occurredAt, startedAt, finishedAt, started, after);
  }
}
