# Infrix ledger: verified model

Infrix is an asset ledger for data centres. This project models the parts of its backend
that carry protocols, allocators and coupled state machines, in Dafny 4.11, and proves what
they keep. `dafny verify dfyconfig.toml` checks everything.

| file | models |
|---|---|
| `RackRanges.dfy`, `RackPlanning.dfy`, `LedgerPlanning.dfy` | the U-space of one rack: ranges, gaps, U checks, and the capacity planner, whose answer is the optimum over all legal sequences of writes |
| `BatchPlanning.dfy` | the plan over several racks, its optimality over all of them, and the independence of racks |
| `Records.dfy` | the tables the write services share, the store they update in place, and the invariants |
| `Placement.dfy`, `PlacementResults.dfy` | placements, moves, U holds, rack resize, rack and room reparenting; what each leaves behind, field by field |
| `FaultTimeline.dfy`, `Repairs.dfy`, `RepairResults.dfy` | faults, repair rounds and the asset status they drive; what each submitted field does |
| `AssetWrites.dfy`, `AssetConfiguration.dfy`, `AssetResults.dfy` | lifecycle, responsibility, disposal, archival; creation and edits of an asset with its rack position and its person, as one transaction; when each is accepted and what it leaves |
| `Inventory.dfy`, `CountResults.dfy` | counting tasks, observations, exception handling, batches; whom a count takes and what each result does |
| `RoundTrips.dfy` | what one service call undoes of another, and what a U hold is good for |
| `Runs.dfy`, `RackRuns.dfy` | whole runs of all services: every invariant in every reachable state, retirement, restored statuses, final rows, closed racks |
| `Witnesses.dfy` | runs from the empty ledger that end in the states of three findings |
| `MaintenanceGate.dfy`, `GateRuns.dfy` | requests, maintenance windows, orphaned database clients, failures and crashes around the two lock files, the durable marker and the restore; that requests, backups, restores and recoveries can complete |
| `ParentGraph.dfy`, `DepartmentImport.dfy`, `ImportAcceptance.dfy` | cycle search, parents-first order and the import of a department hierarchy; which files are accepted |
| `DataScope.dfy` | authorization scopes as a predicate on coordinates and as a three-valued query |
| `Digest.dfy`, `DigestRuns.dfy` | claim-before-send delivery of the daily digest; that what is due is sent |

Each ledger service appears twice: as a function of the tables, which says when the
transaction commits and what it then leaves, and as a method on `Store` that works in the
source's steps and is proved to compute that function, rollback included. The invariants
are proved about the functions and then over every run. Protocols with concurrency
(`MaintenanceGate`, `Digest`) are step relations: a run is any list of steps by any
processes, and a step that is not possible when its turn comes does nothing.

## Findings

- A department import is checked as a whole, so the saved hierarchy is acyclic at the end.
  It is not acyclic after every save: `DepartmentImport.FirstSaveCanCloseACycle` is an
  accepted file whose first save closes a cycle that its second save opens again.
  `EverySaveAcyclic` gives the exact condition on the present hierarchy and the file: in the
  layered file order, no row's new parent may lie below it in the present parents overlaid by
  the earlier rows. Unique names, existing parents and the absence of accidental roots do hold
  after every save.
- A backup taken while there is no media directory has no media to put back. Recovery from
  it keeps whatever media tree the failed restore left (`InterruptedReached`,
  `RecoveryKeepsStrayMedia`). `RecoveryRestores` gives the exact condition when the recovery
  begins: the backup that the marker names has media, or the host has none.
- Inside a scope, a rule with a global flag of its own is honoured by the predicate and
  invisible to the query, because an empty Django condition vanishes in a disjunction.
  `QueryIsPredicate` shows that this is the only difference; `scope_for` never builds such a
  rule, so for every user both forms agree.
- The gap rule does not spare U holds: a hold of one cell cannot be used once both its
  neighbours are taken, and a run from the empty ledger gets there
  (`Witnesses.HoldCanBecomeUseless`); in a usable rack every other active hold can be used
  (`RoundTrips.HoldCanBeUsed`).
- Completing a count does not settle its exceptions: `Inventory.ResolveAfterCompletion` shows
  that each can be resolved afterwards exactly as before, `Witnesses.CompletedCountCanBeResolved`
  that this is reached.
- A batch of count results answers with a verdict per row, except when the asset of a known row
  is archived: that row's error is not among those the loop catches, so the request ends
  without results, the rows before it stay written and those after it are never tried.
  `Inventory.BatchStopsAtArchived` gives the exact condition, which can be read off the rows
  before the call; `Witnesses.BatchCanStopHalfWay` is a run that gets there.
- An edit that touches only supporting fields of an asset states its rack position again, so
  it is refused once the rack, its room or its centre is no longer in use
  (`AssetConfiguration.SupportingEdit`).

The method of each service is proved equal to its function. What the function means is said
by the lemmas of the `...Results` and `...Runs` modules, field by field and without naming the
function's parts: they state when a call commits and what every row is afterwards.

## Model

| member | source | states |
|---|---|---|
| `RackRanges.RackPositionRanges` | backend/assets/physical_location.py:217-233 | the cursor pass returns the device spans, hold spans, 1U gaps and the runs left between them |
| `RackRanges.RangesPartition` | backend/assets/physical_location.py:217-233 | every cell of the rack is in exactly one of a row, a gap or an available range; available ranges are sorted and never touch |
| `RackRanges.GapsExact` | backend/assets/physical_location.py:222-226 | a cell is a gap if and only if it is free and both its neighbours are covered |
| `RackRanges.UnitChecksMeaning` | backend/assets/physical_location.py:262-309 | the U checks pass if and only if the target is inside the rack, on free cells, and not a single cell squeezed between two covered ones |
| `RackPlanning.PlanRackCapacity` | backend/assets/rack_planning.py:20-44 | the reported capacity is the length of the longest legal sequence of writes, and exactly min(capacity, quantity) placements are suggested, legal in order for any choice of new assets |
| `RackPlanning.PackAvailable` | backend/assets/rack_planning.py:29-44 | the nested loops add up the capacity of every range and pack the quantity greedily |
| `RackPlanning.PackSpan` | backend/assets/rack_planning.py:36-43 | devices are packed downwards from a device above the bottom range, upwards everywhere else |
| `RackPlanning.CapacityEqualsPotential` | backend/assets/rack_planning.py:27-35 | the capacity added up over the available ranges is a potential of the free runs between the rows, whatever order they are stored in |
| `RackPlanning.AcceptedWriteLowersPotential` | backend/assets/rack_planning.py:23-26 | every accepted write of that height lowers the potential by at least one, wherever it lands |
| `RackPlanning.CapacityBoundsEveryRun` | backend/assets/rack_planning.py:31-35 | no legal sequence of writes is longer than the capacity |
| `RackPlanning.CapacityIsReached` | backend/assets/rack_planning.py:31-44 | some legal sequence is as long as the capacity |
| `RackPlanning.PlanIsLegal` | backend/assets/rack_planning.py:36-44 | each suggested placement passes the U checks in the state left by the earlier ones, in bottom, top, bounded and empty racks |
| `RackPlanning.SlotsAreFlush` | backend/assets/rack_planning.py:36-43 | in a range below a device the placements hang from it, elsewhere they stand on the bottom of the range, each touching the one before |
| `LedgerPlanning.PlaceIffUnitChecks` | backend/assets/physical_location.py:236-309 | in the ledger a newcomer's placement commits if and only if the U checks on the rack's rows pass |
| `LedgerPlanning.ReserveIffAvailable` | backend/assets/rack_reservations.py:37-53 | in a usable rack a hold is accepted if and only if its key is new and it lies inside one range that the capacity answer shows as available |
| `LedgerPlanning.PlaceAllIffLegalRun` | backend/assets/rack_planning.py:20-26 | a sequence of placements commits call by call if and only if it is a legal run of the planner |
| `LedgerPlanning.PlanRack` | backend/assets/views.py:1358-1361 | a usable rack's plan is the optimum in the ledger: every choice of newcomers can take the suggested places call by call, and no sequence of placements that commits is longer than the capacity |
| `BatchPlanning.RacksAreIndependent` | backend/assets/physical_location.py:236-332 | a batch of newcomers over several racks commits, in whatever order its placements are made, if and only if the placements in each single rack commit on their own |
| `BatchPlanning.PlanRacks` | backend/assets/views.py:1348-1371 | racks are planned one after the other for what is left; restricted and unavailable ones are skipped, and the allocated quantity is min(quantity, available capacity) |
| `BatchPlanning.AllocatedIsMinimum` | backend/assets/views.py:1361-1371 | together the racks get the whole quantity, or all they can take |
| `BatchPlanning.AvailableBoundsEveryBatch` | backend/assets/views.py:1370 | no batch of newcomers over the open racks that commits, in any order and split, is larger than the available capacity |
| `BatchPlanning.SuggestionCommits` | backend/assets/views.py:1361-1366 | the suggested placements of all racks commit call by call for every choice of assets that are in none of them |
| `Records.Store.Restore` | backend/assets/inventory_writes.py:221-222 | a rolled back transaction leaves the tables as they were |
| `Placement.PlaceAsset` | backend/assets/physical_location.py:236-332 | commits exactly when the asset is current and either unchanged in place or free, usable, in range and not squeezing a gap; then allocation and centre copy change together |
| `Placement.ReserveUnits` | backend/assets/rack_reservations.py:37-53 | a hold is made exactly for free cells inside one available range of a usable rack |
| `Placement.ChangeAssetPlacement` | backend/assets/asset_writes.py:619-653 | the hold and the placement succeed or fail together; an unchanged position is no write |
| `Placement.SynchronizeAssetLocationHierarchy` | backend/assets/physical_location.py:376-394 | exactly the assets mounted in the given racks get the new centre |
| `Placement.SaveRack` | backend/assets/serializers.py:3085-3117 | resize, recoding and reparent commit exactly when no device or active hold ends above the new height, the code is free in the room and a new room is usable; mounted assets follow. `PlacementResults.RackSaved` and `RackSaveIff` say what is stored and when |
| `Placement.SaveServerRoom` | backend/assets/physical_location.py:492-514 | renaming and reparenting commit exactly when the name is free in the centre and, for a move, no stock and no running count hold the room and the centre is active; every asset mounted below follows |
| `Placement.PlaceKeepsInv` | backend/assets/physical_location.py:236-332 | placement keeps rows disjoint and in range, centre copies right, and every other invariant of the ledger |
| `Placement.SetDirectKeepsInv` | backend/assets/physical_location.py:335-351 | a direct position replaces the rack position and keeps every invariant |
| `Placement.UnrackKeepsInv` | backend/assets/physical_location.py:354-359 | unracking keeps every invariant although the centre copy stays |
| `Placement.ClearKeepsInv` | backend/assets/physical_location.py:362-373 | clearing the position keeps every invariant |
| `Placement.ChangePlacementKeepsInv` | backend/assets/asset_writes.py:619-653 | moving, unracking and placing on a hold keep every invariant |
| `Placement.ReserveKeepsInv` | backend/assets/rack_reservations.py:37-53 | a new hold is disjoint from devices and other active holds |
| `Placement.ReleaseKeepsInv` | backend/assets/rack_reservations.py:56-70 | releasing a hold keeps every invariant |
| `Placement.ConsumeKeepsInv` | backend/assets/rack_reservations.py:73-89 | consuming a hold keeps every invariant |
| `Placement.UpdateRackKeepsInv` | backend/assets/physical_location.py:469-489 | a resize never cuts off a device or active hold, codes stay unique in their room, and a moved rack takes its assets' centres along |
| `Placement.UpdateRoomKeepsInv` | backend/assets/physical_location.py:492-514 | a moved room keeps names unique in its centre and every mounted asset's centre equal to its rack's room's centre |
| `Placement.CountedRoomStays` | backend/assets/physical_location.py:445-457 | the refusal to move a room that is being counted keeps every running count's room in the count's centre |
| `PlacementResults.RackSaved` | backend/assets/serializers.py:3110-3114 | a saved rack has the submitted room, code, height and status, no other rack row changes, and exactly the assets mounted in it get the centre of its room |
| `PlacementResults.RackSaveIff` | backend/assets/serializers.py:3085-3117 | a rack edit commits exactly when every taken cell fits the new height, no other rack of the room has the code and a new room is active in an active centre, whatever the status |
| `PlacementResults.RoomSaved` | backend/assets/physical_location.py:492-514 | a saved room has the submitted name, centre and activity, no other room row changes, and exactly the assets mounted in its racks follow |
| `PlacementResults.ClosedRackRefuses` | backend/assets/physical_location.py:247-263 | in a rack that is reserved or disabled, or whose room or centre is inactive, no newcomer is placed, nothing is reserved and no hold is used |
| `RackRuns.ClosedRackOnlyEmpties` | backend/assets/physical_location.py:236-332 | over every run of any services in which a rack stays closed, no cell of it becomes taken |
| `PlacementResults.MovedAsAsked` | backend/assets/asset_writes.py:619-653 | a committed change of position puts the asset exactly where it was asked to be, uses up exactly the named hold, and moves nobody else |
| `PlacementResults.DirectPlacement` | backend/assets/physical_location.py:335-373 | a direct position or none takes the asset out of its rack and sets its centre to exactly the one asked for, or to none |
| `FaultTimeline.ValidateFaultTimes` | backend/assets/fault_timeline.py:6-17 | the report error appears exactly for a report before the fault, the occurrence error exactly for a repair time before it |
| `FaultTimeline.ValidateRepairTimes` | backend/assets/fault_timeline.py:20-29 | each field carries an error exactly when its time is before the fault or the two times are out of order |
| `Repairs.SyncKeepsInv` | backend/assets/repair_writes.py:145-192 | whenever the synchronization commits after a change to one asset's faults, open fault, status and saved status agree again and nothing else breaks |
| `Repairs.CompleteKeepsInv` | backend/assets/repair_writes.py:195-233 | setting a fault's closure to the completion of its latest round keeps every invariant |
| `Repairs.CurrentRound` | backend/assets/models.py:1098-1104 | the latest round of a fault by number |
| `Repairs.CreateFaultEvent` | backend/assets/repair_writes.py:305-313 | one transaction: the fault row and the asset's status, or nothing |
| `Repairs.CheckFaultTimes` | backend/assets/repair_writes.py:54-62 | the submitted times are compared with every retained round |
| `Repairs.UpdateFaultEvent` | backend/assets/repair_writes.py:316-326 | no field of a closed fault can be submitted, an empty PATCH passes, and the times must fit all its rounds |
| `Repairs.DeleteFaultEvent` | backend/assets/repair_writes.py:329-343 | only an open fault without rounds and part usages is deleted, and the asset follows |
| `Repairs.SaveRepair` | backend/assets/repair_writes.py:66-96 | a round is saved only with times in order after the fault and after the previous round |
| `Repairs.CreateRepairRecord` | backend/assets/repair_writes.py:355-373 | creates round one or takes over the draft that a part usage opened |
| `Repairs.UpdateRepairRecord` | backend/assets/repair_writes.py:376-390 | an edit of the current round or a refusal, and then the fault and the asset follow in the same transaction. `RepairResults.RoundEdited`, `FinishingRepairs` and `RoundEditIff` say what is stored and when |
| `Repairs.ReopenRepairRecord` | backend/assets/repair_writes.py:246-269 | reopening a finished current round adds a blank successor |
| `Repairs.DeleteRepairRecord` | backend/assets/repair_writes.py:393-406 | only an unfinished, unreferenced first round is deleted |
| `Repairs.BeginUsageRound` | backend/assets/repair_writes.py:276-284 | a part usage pins the current unfinished round, or opens a draft |
| `Repairs.CreateFaultKeepsInv` | backend/assets/repair_writes.py:305-313 | a new fault keeps status, snapshot and rounds consistent |
| `Repairs.UpdateFaultKeepsInv` | backend/assets/repair_writes.py:316-326 | editing a fault keeps every round after it |
| `Repairs.EmptyFaultPatch` | backend/assets/repair_writes.py:39-63 | a PATCH without fields changes nothing, be the fault open or closed |
| `Repairs.EmptyRoundPatch` | backend/assets/repair_writes.py:376-390 | a PATCH without fields at most takes over the draft that a part usage opened; a finished round stays what it is |
| `Repairs.DeleteFaultKeepsInv` | backend/assets/repair_writes.py:329-343 | deleting a fault keeps status and snapshot consistent |
| `Repairs.LatestRoundWritten` | backend/assets/repair_writes.py:236-269 | writing the latest round keeps numbers distinct, links finished, only the last open and the closure equal to it |
| `Repairs.ReopenRepairKeepsInv` | backend/assets/repair_writes.py:246-269 | reopening keeps every invariant |
| `Repairs.DeleteRepairKeepsInv` | backend/assets/repair_writes.py:393-406 | deleting the only round keeps every invariant |
| `Repairs.UsePartsKeepsInv` | backend/assets/repair_writes.py:276-284 | opening or pinning a round for parts keeps every invariant |
| `Repairs.RoundNumbersContiguous` | backend/assets/repair_writes.py:246-269 | a fault's rounds are numbered 1..n without holes |
| `RepairResults.FaultEdited` | backend/assets/repair_writes.py:317-327 | after a committed fault edit each submitted time is the submitted one, every other field of the fault and every other row is as before |
| `RepairResults.FaultEditIff` | backend/assets/repair_writes.py:39-63 | a fault edit is refused exactly for a closed fault with a field to change, an archived asset, a report before the fault, or a retained round before it |
| `RepairResults.RoundCreated` | backend/assets/repair_writes.py:356-373 | a committed creation stores the submitted times in a first round or in the draft of a part usage, and the fault is closed exactly when a finishing time was given |
| `RepairResults.RoundEdited` | backend/assets/repair_writes.py:376-390 | after a committed round edit each submitted time is stored, every other field stays, and the fault is closed exactly by the finishing time, with the asset's status following |
| `RepairResults.RoundEditIff` | backend/assets/repair_writes.py:66-99 | a round edit commits exactly on the latest round, if it is unfinished or nothing is submitted, for a current asset and times in order after the fault and the round before |
| `RepairResults.FinishingRepairs` | backend/assets/repair_writes.py:195-233 | submitting a finishing time closes the fault at that time, and with no other open fault gives the asset its saved status back and clears it |
| `RepairResults.RoundReopened` | backend/assets/repair_writes.py:246-269 | reopening adds a blank successor of the finished latest round, opens the fault again and puts the asset into repair |
| `RepairResults.BrokenAndRepaired` | backend/assets/repair_writes.py:145-233 | a fault, a repair started and the same repair finished all commit and leave the asset with its old status, the fault closed and one finished round |
| `Repairs.FinishTimesNeverDecrease` | backend/assets/repair_writes.py:82-90 | all earlier rounds are finished, and later ones start and finish no earlier |
| `Repairs.UnfinishedRoundMeansRepair` | backend/assets/repair_writes.py:145-192 | an asset with an unfinished repair is in repair |
| `Repairs.ClosedIffRepaired` | backend/assets/repair_writes.py:195-206 | a fault is closed if and only if its latest round is finished, and then at that round's finishing time |
| `AssetWrites.AllowedAssetStatusValues` | backend/assets/lifecycle.py:76-96 | the statuses offered by the form are exactly those that the transition check accepts |
| `AssetConfiguration.CreateIsOneInsert` | backend/assets/asset_writes.py:399-463 | a creation with a rack position and an assignee commits if and only if the row, the position and the person are each acceptable in the tables before the call, and then inserts one row and one position; otherwise nothing changes |
| `AssetConfiguration.EditIsOneChange` | backend/assets/asset_writes.py:466-557 | an edit of the row, the position and the person is all or nothing: one condition on the tables before the call, one row and one position replaced |
| `AssetConfiguration.SupportingEdit` | backend/assets/asset_write_rules.py:114-132 | an edit of supporting fields alone changes none of these tables, and it is refused exactly when the asset stands in a rack that is no longer in use |
| `AssetResults.AssetCreateIff` | backend/assets/asset_writes.py:399-463 | creation commits exactly for a new key, a status that needs no history, an active centre, a position that can be taken and a known person |
| `AssetResults.AssetEditIff` | backend/assets/asset_writes.py:466-557 | an edit commits exactly when the asset is current and its fields, its position and its person are each acceptable, read off the tables before the call |
| `AssetResults.AssetEdited` | backend/assets/asset_writes.py:466-557 | a committed edit stores each submitted field, leaves the asset where the position says or where it was, in the centre of its rack, and changes no other asset |
| `AssetConfiguration.CreateAssetKeepsInv` | backend/assets/asset_writes.py:399-463 | a new asset, placed and assigned or not, keeps every invariant |
| `AssetConfiguration.EditAssetKeepsInv` | backend/assets/asset_writes.py:466-557 | an edit keeps every invariant: repair stays tied to open faults, retirement to disposals and the centre to the rack, although a new centre may contradict the old position half way through |
| `AssetWrites.ChangeAssignmentKeepsInv` | backend/assets/asset_writes.py:131-195 | assigning, returning and transferring keep every invariant, so none gives a retired or archived asset an assignee |
| `AssetWrites.DisposeKeepsInv` | backend/assets/asset_writes.py:283-343 | disposal keeps every invariant, with exactly one record |
| `AssetWrites.ArchiveKeepsInv` | backend/assets/asset_writes.py:560-600 | archival keeps every invariant |
| `AssetWrites.UnarchiveKeepsInv` | backend/assets/asset_writes.py:603-616 | restoring an archived asset keeps every invariant |
| `AssetWrites.RetiredHoldsNothing` | backend/assets/lifecycle.py:58-73 | an asset is retired if and only if it has a disposal record, at most one, and then it has no assignee, allocation, open fault or unfinished repair |
| `AssetResults.AssignmentChanges` | backend/assets/asset_writes.py:131-232 | assign, return and transfer commit exactly on a current asset out of repair whose present person fits the action, and then change the person and status of this asset alone |
| `AssetResults.DisposalIff` | backend/assets/asset_writes.py:284-364 | in a consistent ledger disposal commits exactly for a current asset, neither retired nor in repair, with nobody and in no rack: no open fault or unfinished repair can stand in its way otherwise |
| `AssetResults.ArchivalIff` | backend/assets/asset_writes.py:560-616 | archival commits exactly for a current asset that is not in repair, with nobody, in no rack and in no running count; restoring it gives the ledger back |
| `Inventory.CreateInventoryTask` | backend/assets/inventory_writes.py:645-669 | one pending item with the present location for exactly the assets of the scope, 1 to 5000 of them |
| `Inventory.ResolveInventoryItem` | backend/assets/inventory_writes.py:221-341 | a pending exception is resolved with a fitting action; a ledger correction commits with it or not at all |
| `Inventory.CompleteInventoryTask` | backend/assets/inventory_writes.py:711-723 | completes exactly when no item is pending and the scope's room is still in the count's centre |
| `Inventory.ReopenInventoryTask` | backend/assets/inventory_writes.py:724-731 | reopens exactly a completed count without archived assets whose room is still in the count's centre |
| `Inventory.SubmitInventoryBatch` | backend/assets/inventory_writes.py:750-783 | admitted exactly without ledger corrections, with a note where ignored, and with the known rows in one task; then the rows are handled in order, unknown ones included, up to the first whose asset is archived: that one ends the request without results, with the rows before it written |
| `Inventory.BatchStopsAtArchived` | backend/assets/inventory_writes.py:769-780 | all rows are handled if and only if none of their assets is archived, and then each verdict is the one the row gets alone, a repeated row being refused; otherwise exactly the rows before the first archived one are written, each as it would be alone |
| `Inventory.BatchKeepsInv` | backend/assets/inventory_writes.py:750-783 | a batch keeps every invariant, also one that stops half way |
| `Inventory.CreateTaskKeepsInv` | backend/assets/inventory_writes.py:645-669 | a new count contains no archived asset and keeps every invariant |
| `Inventory.ConfirmNormalKeepsInv` | backend/assets/inventory_writes.py:84-165 | confirming an item keeps every invariant, resolution included |
| `Inventory.ConfirmOverridesObservation` | backend/assets/inventory_writes.py:84-165 | confirming as normal leaves the same tables whatever had been recorded for the item before |
| `Inventory.ObserveKeepsInv` | backend/assets/inventory_writes.py:34-43 | after an observation the resolution is not required exactly for pending and normal |
| `Inventory.RepeatedObservationIsNoChange` | backend/assets/inventory_writes.py:559-642 | recording the same observation again changes nothing, so a resolution made in between stays, frozen room included |
| `Inventory.ResolveKeepsInv` | backend/assets/inventory_writes.py:247-257 | after a resolution the action fits the result, and the corrected ledger is consistent |
| `Inventory.ResolveAfterCompletion` | backend/assets/inventory_writes.py:221-257 | an exception can be resolved after its count is completed exactly when it could be before, and the two calls commute |
| `Inventory.CorrectKeepsInv` | backend/assets/inventory_writes.py:263-300 | the correction of the ledger keeps every invariant |
| `Inventory.CompleteTaskKeepsInv` | backend/assets/inventory_writes.py:711-723 | a completed count has no pending item |
| `Inventory.ReopenTaskKeepsInv` | backend/assets/inventory_writes.py:724-731 | a reopened count has no archived asset |
| `Inventory.DeleteTaskKeepsInv` | backend/assets/inventory_writes.py:184-203 | deleting an untouched count keeps every invariant |
| `Inventory.MovedRoomEndsCount` | backend/assets/physical_location.py:445-466 | a room leaves the centre of its count only after the count is completed, which then can be neither reopened nor completed again |
| `Inventory.CorrectionMatchesSighting` | backend/assets/inventory_writes.py:277-288 | after a correction the ledger's location is exactly the sighting |
| `Inventory.FreshTaskCanBeConfirmed` | backend/assets/inventory_writes.py:46-81 | right after creation an item can be confirmed exactly when its rack, room and centre are usable |
| `Inventory.ReopenUndoesComplete` | backend/assets/inventory_writes.py:711-732 | reopening undoes completing |
| `Inventory.DeleteUndoesCreate` | backend/assets/inventory_writes.py:700-708 | deleting an untouched count leaves the ledger as before it was created |
| `CountResults.ScopeIsWhereExpected` | backend/assets/inventory_writes.py:400-411 | a count takes exactly the current assets that are expected in its scope: for a centre those there directly or in a counted rack, for a room those in its counted racks |
| `CountResults.ObservationRecorded` | backend/assets/inventory_writes.py:559-642 | an observation leaves its own item with the submitted result and the reported place, and no other row changed |
| `CountResults.ExceptionResolved` | backend/assets/inventory_writes.py:221-341 | a resolution marks its item with the action, and only an update of the asset touches the ledger, which then agrees with the sighting |
| `CountResults.CorrectionIff` | backend/assets/inventory_writes.py:263-300 | a correction commits exactly for a sighting in a rack that is still in its room and centre and can take the asset, or at an active centre, or for no position |
| `CountResults.BatchRowIsSingleCall` | backend/assets/inventory_writes.py:769-780 | a row of a batch does exactly what the single call of its action does |
| `RoundTrips.UnrackUndoesPlace` | backend/assets/physical_location.py:354-359 | unracking a newly placed asset restores everything but the centre copy, which stays that of the rack |
| `RoundTrips.LeavingFreesOwnCells` | backend/assets/physical_location.py:335-373 | a direct position, unracking and clearing free exactly the asset's own cells |
| `RoundTrips.UnrackedStaysInCentre` | backend/assets/physical_location.py:354-359 | an unracked asset is from then on expected in its rack's centre |
| `RoundTrips.PlaceIsIdempotent` | backend/assets/physical_location.py:297-300 | placing an asset where it is changes nothing |
| `RoundTrips.ReleaseUndoesReserve` | backend/assets/rack_reservations.py:37-70 | a hold takes exactly its cells and releasing it frees exactly these |
| `RoundTrips.ConsumedCells` | backend/assets/rack_reservations.py:73-89 | consuming a hold frees exactly its cells for the asset that uses it |
| `RoundTrips.HoldCanBeUsed` | backend/assets/asset_writes.py:637-644 | an active hold can be turned into a placement if and only if it is not a single cell with both neighbours taken |
| `RoundTrips.NewHoldCanBeUsed` | backend/assets/rack_reservations.py:37-53 | a hold just made can be used at once by any current asset: only later neighbours can make it useless |
| `RoundTrips.RackMovedBack` | backend/assets/physical_location.py:469-489 | a moved rack can be moved back exactly when its own room and centre are still active, whatever its status, and then every row is restored |
| `RoundTrips.ReturnUndoesAssign` | backend/assets/asset_writes.py:157-167 | returning after assigning restores the asset if and only if it came from stock |
| `RoundTrips.DeleteUndoesCreateFault` | backend/assets/repair_writes.py:329-343 | deleting a fault just created restores the ledger, whatever other faults are open |
| `Runs.ReachableIsConsistent` | backend/assets/repair_writes.py:145-192 | in every state reachable from the empty ledger by any services in any order all invariants hold: names and codes, geometry, centres, fault status, rounds, retirement, archives, counts and the rooms being counted |
| `Runs.RunKeepsInv` | backend/assets/physical_location.py:236-394 | the same from any consistent state |
| `Runs.RetiredForever` | backend/assets/lifecycle.py:209-218 | retired is terminal over whole runs, with a disposal record and nothing held in every later state |
| `Runs.RunningCountNeedsOnlyResults` | backend/assets/inventory_writes.py:672-723 | in every reachable state a running count can be completed if and only if nothing in it is pending: its room has not moved |
| `Runs.HistoryIsFinal` | backend/assets/repair_writes.py:376-406 | over every run finished rounds, ended holds and disposal records stay unchanged, and a round that follows another or had parts used keeps its place |
| `Runs.FinishedForever` | backend/assets/repair_writes.py:66-71 | in every later state of a consistent ledger a finished round is the same in every field |
| `Runs.SavedStatusKept` | backend/assets/repair_writes.py:159-167 | however faults overlap, the saved status stays the one held when the first of them opened |
| `Runs.LastFaultRestoresFirstStatus` | backend/assets/repair_writes.py:168-175 | closing or deleting the last open fault restores exactly that status |
| `Witnesses.HoldCanBecomeUseless` | backend/assets/physical_location.py:301-309 | a run from the empty ledger ends with an active hold of a usable rack on which no device but its two neighbours can be placed |
| `Witnesses.CompletedCountCanBeResolved` | backend/assets/inventory_writes.py:221-257 | a run from the empty ledger ends with a completed count whose exception can still be resolved |
| `Witnesses.BatchCanStopHalfWay` | backend/assets/inventory_writes.py:769-780 | a run from the empty ledger after which a batch of three settles its first row, stops at the second, whose asset is archived, and never tries the third, which alone would be settled |
| `MaintenanceGate.BeginOperation` | backend/assets/maintenance_gate.py:142-149 | the new object is the window that the protocol's reading step produces, dirty flag and safety backup inherited |
| `MaintenanceGate.WriteStage` | backend/assets/maintenance_gate.py:73-84 | at every stage that writes, object and file end as after the protocol's step that succeeds, raises late or raises early |
| `MaintenanceGate.FinishOperation` | backend/assets/maintenance_gate.py:155-201 | completing and leaving on the object are the protocol's steps |
| `MaintenanceGate.StepKeepsInv` | backend/assets/maintenance_gate.py:92-201 | every step of a request, window, database client, failure or crash keeps the lock, marker and content invariants |
| `MaintenanceGate.NobodyInsideDuringMaintenance` | backend/assets/maintenance_gate.py:126-138 | over every interleaving no request is inside while a window body or any client, orphaned or not, runs, or while the marker is dirty. `GateRuns.RequestIsAdmitted` is its counterpart: requests do get in |
| `GateRuns.RequestIsAdmitted` | backend/assets/maintenance_gate.py:92-138 | whenever nobody is exclusive, no marker is dirty and the controller is free to clear a stale one, a new request gets inside by its own steps alone, holds the shared lock, has removed the stale marker and changed nothing else |
| `GateRuns.RequestGetsIn` | backend/assets/maintenance_gate.py:92-138 | the same for a request at any point of its way in, whatever interleaving took it there, once nobody else has the controller |
| `GateRuns.FailureOpensGate` | backend/assets/maintenance_gate.py:164-201 | a window that fails before it replaces anything, before or after its write reached the disk, goes on to take the marker away and leave, with the content as it was |
| `MaintenanceGate.OneWindowAtATime` | backend/assets/maintenance_gate.py:25-29 | at most one window is past the controller lock, and an orphaned client keeps every other out |
| `MaintenanceGate.DirtyMarkerRemoved` | backend/assets/maintenance_gate.py:155-198 | a dirty marker is removed only by a window that completed |
| `MaintenanceGate.ContentIsRecoverable` | backend/assets/backups.py:1420-1540 | whenever database or media differ from the accepted content, after any failure or kill, the marker is dirty and names a backup with that content |
| `MaintenanceGate.RecoveryUsesSafetyBackup` | backend/assets/backups.py:1390-1391 | a recovery works on the recorded safety backup only |
| `MaintenanceGate.AcceptedContent` | backend/assets/backups.py:1392-1396 | the accepted content changes only by requests or by a completed restore, whose database is that of its backup and whose media are the backup's if it has some |
| `MaintenanceGate.RecoveryRestores` | backend/assets/backups.py:1444-1475 | over every run, a recovery that completes ends with the accepted content if and only if, when it began, the backup named by the marker had media or the host had none |
| `MaintenanceGate.InterruptedReached` | backend/assets/backups.py:1426-1475 | a run from a healthy host without media to a killed restore whose media tree is already in place |
| `MaintenanceGate.RecoveryKeepsStrayMedia` | backend/assets/backups.py:1444-1466 | a run that recovers on a host without media and keeps the stray tree of the failed restore |
| `GateRuns.BackupIsTaken` | backend/assets/backups.py:660-668 | on an idle host without a dirty marker a backup completes and holds exactly the present content |
| `GateRuns.RestoreCompletes` | backend/assets/backups.py:1382-1540 | on an idle host any backup can be restored: its database, and its media if it has some, become the accepted content, and the content before is kept in a new backup |
| `GateRuns.RecoveryCompletes` | backend/assets/backups.py:1382-1540 | on an idle host with a dirty marker a recovery from the named backup completes with that backup's content accepted and the gate open |
| `GateRuns.FailedRestoreUndoesMedia` | backend/assets/backups.py:1444-1475 | a restore whose import fails after any partial write ends with the old media tree in place, if there was one, and the gate shut |
| `GateRuns.FailurePutsMediaBack` | backend/assets/backups.py:1444-1475 | wherever the replacement fails, the window goes on to put the old tree back |
| `GateRuns.FailedRestoreIsRecovered` | backend/assets/backups.py:1382-1540 | a failed restore followed by a recovery ends with the database and, if there was one, the media tree of before, and with the gate open |
| `ParentGraph.FindCycleNodes` | backend/assets/department_imports.py:187-204 | returns exactly the nodes on a cycle although walks stop at visited nodes |
| `ParentGraph.WalkFrom` | backend/assets/department_imports.py:193-203 | one walk finds exactly the cycle nodes on its path |
| `ParentGraph.ClosedSetHasCycle` | backend/assets/department_imports.py:213-221 | a finite set in which no node is ready contains a cycle |
| `ParentGraph.NewParentKeepsAcyclic` | backend/assets/department_imports.py:454-457 | a new parent keeps a hierarchy acyclic if and only if the node is not above it |
| `DepartmentImport.DependencyOrder` | backend/assets/department_imports.py:207-225 | raises exactly when the rows' parent edges contain a cycle, else returns the layers of ready rows, each in file order |
| `DepartmentImport.SaveOrderIsOrder` | backend/assets/department_imports.py:207-225 | without a cycle among the rows the layered order has every row once and every same-file parent first |
| `DepartmentImport.TakeReady` | backend/assets/department_imports.py:222-224 | appends exactly the ready rows in file order and takes their keys out of the pending ones |
| `DepartmentImport.AnalyzeRows` | backend/assets/department_imports.py:242-418 | each row carries exactly the errors that apply to it |
| `DepartmentImport.CheckName` | backend/assets/department_imports.py:354-371 | a name clashes with another department's present name or another row's name |
| `DepartmentImport.ProposedParents` | backend/assets/department_imports.py:373-378 | the graph that is checked is the present one overlaid by the rows |
| `DepartmentImport.AddCycleErrors` | backend/assets/department_imports.py:379-385 | rows on a cycle are marked, and all rows when the cycles lie outside the file |
| `DepartmentImport.CommitDepartmentImport` | backend/assets/department_imports.py:430-489 | commits exactly an error-free file; then every row has the name and parent that it asks for, an empty cell keeps the present value, no other department changes, the hierarchy is sound and acyclic, and created, updated and kept count the departments that are new, different and the same |
| `ImportAcceptance.AcceptedIff` | backend/assets/department_imports.py:242-418 | a file is error-free if and only if its rows name departments of their own and some hierarchy has what they ask for, with names of their own, existing parents and no cycle |
| `DepartmentImport.SaveRows` | backend/assets/department_imports.py:441-461 | the save loop over the ordered rows |
| `DepartmentImport.EverySaveSound` | backend/assets/department_imports.py:447-461 | after every single save names are unique, parents exist, and no row with a parent was saved as a root |
| `DepartmentImport.EverySaveAcyclic` | backend/assets/department_imports.py:447-461 | the hierarchy is acyclic after every save if and only if no row's new parent lies below it in the present parents overlaid by the rows before it in the layered order |
| `DepartmentImport.DetachedImportStaysAcyclic` | backend/assets/department_imports.py:447-461 | it is so whenever no outside parent has a row of the file above it |
| `DepartmentImport.FirstSaveCanCloseACycle` | backend/assets/department_imports.py:447-461 | an accepted import of a sound, acyclic hierarchy whose first save, in the order that the import uses, closes a cycle |
| `DataScope.BoundaryQ` | backend/assets/data_scope.py:72-91 | the loop builds the disjunction of all rule clauses |
| `DataScope.QueryMeans` | backend/assets/data_scope.py:321-324 | the query keeps an asset exactly when one rule without a global flag allows both coordinates, with unset columns evaluated in three values |
| `DataScope.QueryIsPredicate` | backend/assets/data_scope.py:52-101 | query and predicate agree on every asset if and only if no rule inside the scope carries a global flag |
| `DataScope.UserQueryIsPredicate` | backend/assets/data_scope.py:172-196 | for every user's scope, mode and asset the query shows exactly what the predicate contains |
| `DataScope.FullAccessMeansAll` | backend/assets/data_scope.py:103-114 | full access at a location is access there to every department, of any number, and to unowned assets |
| `DataScope.FullDepartmentAccessEverywhere` | backend/assets/data_scope.py:106-110 | without a location it means full access at each location the scope reaches |
| `DataScope.WriteImpliesRead` | backend/assets/data_scope.py:52-70 | write access to an asset includes read access |
| `DataScope.AssetImpliesFacets` | backend/assets/data_scope.py:119-131 | access to an asset passes the centre check and the department check alone; `CentreFacet` and `DepartmentFacet` say exactly when these pass |
| `DataScope.CentreFacet` | backend/assets/data_scope.py:126-131 | for every user the centre check passes exactly for managers, the global switch of the mode, and a boundary of theirs that reaches the centre, or unlocated assets, in its write clause or, for reading, in its read clause |
| `DataScope.DepartmentFacet` | backend/assets/data_scope.py:119-125 | the same for the department check, with unowned assets and boundaries over all departments |
| `DataScope.AccessNeedsOneRule` | backend/assets/data_scope.py:52-70 | for every user, access needs a global switch or one rule that admits centre and department together in one of its clauses, and each such rule gives it |
| `DataScope.FacetsDoNotCombine` | backend/assets/data_scope.py:54-58 | the checks of centre and department alone do combine: a user passes both for coordinates that no rule of theirs admits |
| `Digest.SendOne` | backend/assets/notification_delivery.py:106-135 | one recipient's row is claimed, sent and recorded, or skipped |
| `Digest.SendDigest` | backend/assets/notification_delivery.py:82-136 | one run handles every recipient once; it counts as sent exactly those who could be claimed and whose call delivered, as failed those whose call raised |
| `Digest.AcceptedAtMostOnce` | backend/assets/notification_delivery.py:108-134 | under any interleaving of runs and crashes a recipient's message of a day is accepted at most once |
| `Digest.AttemptedAtMostThrice` | backend/assets/notification_delivery.py:111-115 | it is attempted at most three times, with claims at least an hour apart |
| `Digest.NoContactAfterAcceptance` | backend/assets/notification_delivery.py:125-127 | once accepted, a message is never sent again |
| `DigestRuns.DueIsContacted` | backend/assets/notification_delivery.py:106-135 | a run on a message that is due contacts the server exactly once and records a delivery as sent, an uncertain failure as indeterminate and any other as failed |
| `DigestRuns.SafeFailureIsRetried` | backend/assets/notification_delivery.py:111-134 | a safe failure is tried again an hour later, up to the third time, and can then be delivered |
| `DigestRuns.SettledForever` | backend/assets/notification_delivery.py:106-115 | whatever runs there are, a message sent, indeterminate or used up is never contacted again and its row never changes |

## Left out

- Each write service is one serial, atomic transaction over maps; database locking, lock order and isolation levels are not modelled.
- Authorization inside the ledger services is a precondition there; scopes have their own model. Context variables (`admit`, `checked_asset_transition`) are not modelled.
- Revisions and `If-Match` checks, audit logs, notes and other text columns; error codes are collapsed to a refusal. A rack's `is_active` is taken as `status != disabled`, as its form derives it. Names and codes are compared by identity, which stands for equality up to letter case.
- Stock, part usage and attachment rows: whether they refer to a fault, a round or a room is one boolean (`pinned`, `stocked`). People are ids with one boolean for known and active.
- `rack_effective_used_u`, utilization figures and the legacy `organization_access` and `system_settings` rules are not part of this model.
- Deleting centres, rooms, racks and assets, and legacy rows that already break an invariant: runs start from the empty ledger.
- `BatchPlanning.PlanRacks`: the racks that the caller may not see are a parameter; racks that cannot be read, the limits of the query (1 to 4 racks, 500 devices) and the sequence numbers in the answer are not modelled.
- `Inventory.ObserveKeepsInv`: an observation form is the status, the location it adds up to and whether the notes changed; contradictory combinations of location fields are refused before this point and not modelled.
- `Inventory.SubmitInventoryBatch`: the map of revisions, rows outside the caller's scope and the reason texts are not modelled; an unknown row stands for any that is not found.
- `AssetConfiguration.EditIsOneChange`: a submitted position is the one that results from merging it with the present one; one that is still incomplete is refused before this point. Network addresses, which can refuse an edit as well, procurement, depreciation, tags and custom fields are not modelled.
- `Repairs.BeginUsageRound`: the stock side of a part usage is not modelled.
- `MaintenanceGate.StepKeepsInv`: file contents are abstract values; hashing, archive members, `fsync` and the MariaDB protocol are not modelled, and neither is the separate backup operation lock, so windows contend only for the controller. Session invalidation, digest suppression and the audit entry after an import are not part of the database content that is compared.
- `MaintenanceGate.NobodyInsideDuringMaintenance`: backups are deleted only by requests inside; files removed by hand are outside the model.
- `authorization_access`, web maintenance operations and path checks of the maintenance directory are not modelled.
- `DepartmentImport.AnalyzeRows`: codes and names stand for their identity keys, so changes of letter case and surrounding blanks do not count as changes; cell parsing, length limits and row limits are left out, and so are several departments sharing one code, which the forms exclude.
- `DataScope.BoundaryQ`: the JSON snapshot branches (`center_json`, `department_json`, `legacy_unknown`) and the other models of `scoped` are not modelled.
- `Digest.AcceptedAtMostOnce`: rows are not deleted or restored from a backup during the day, and a failure marked safe to retry, or raised before delivery, means that the server did not accept. Content, recipients' resolution and the suppression marker are left out.
