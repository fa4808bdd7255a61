/** Counting tasks: creation, observations, exception handling and completion.

    Models backend/assets/inventory_writes.py and the scope query of inventory.py:61-107.
    A task's membership is fixed when it is created, with the location each asset then had.
 */
module Inventory {
  import opened RackRanges
  import opened Records
  import opened Placement

  const MAX_TASK_ASSETS := 5000

  datatype Scope = AllAssets | WholeCentre(centre: int) | OneRoom(centre: int, room: int)

  /** A reported location; the room and centre of a rack are looked up, not reported. */
  datatype Reported = NotStated | InRack(rack: int, span: Span) | InCentre(centre: int) | Nowhere

  // ---------- scopes and snapshots ----------

  predicate RackActive(db: Db, rackId: int) {
    rackId in db.racks && db.racks[rackId].status != RackDisabled && db.racks[rackId].room in db.rooms
    && db.rooms[db.racks[rackId].room].active
  }

  predicate ScopeUsable(db: Db, scope: Scope) {
    match scope
    case AllAssets => true
    case WholeCentre(centre) => centre in db.centres && db.centres[centre]
    case OneRoom(centre, room) =>
      centre in db.centres && db.centres[centre] && room in db.rooms && db.rooms[room].centre == centre
      && db.rooms[room].active
  }

  /** `get_inventory_scope_assets` */
  predicate InScope(db: Db, scope: Scope, assetId: int) {
    && assetId in db.assets && !db.assets[assetId].archived
    && match scope
       case AllAssets => true
       case WholeCentre(centre) =>
         if assetId in db.allocations
         then RackActive(db, db.allocations[assetId].rack)
              && db.rooms[db.racks[db.allocations[assetId].rack].room].centre == centre
         else db.assets[assetId].centre == Some(centre)
       case OneRoom(_, room) =>
         assetId in db.allocations && RackActive(db, db.allocations[assetId].rack)
         && db.racks[db.allocations[assetId].rack].room == room
  }

  function ScopeAssets(db: Db, scope: Scope): set<int> {
    set a | a in db.assets && InScope(db, scope, a)
  }

  /** The location part of `_inventory_snapshot`. */
  function Expected(db: Db, assetId: int): Sighting
    requires assetId in db.assets
  {
    if assetId in db.allocations && db.allocations[assetId].rack in db.racks
       && db.racks[db.allocations[assetId].rack].room in db.rooms then
      var rack := db.racks[db.allocations[assetId].rack];
      Mounted(db.allocations[assetId].rack, db.allocations[assetId].span, rack.room, db.rooms[rack.room].centre)
    else if db.assets[assetId].centre.Some? then AtCentre(db.assets[assetId].centre.value)
    else Unlocated
  }

  function Uncounted(db: Db, assetId: int): Item
    requires assetId in db.assets
  {
    Item(Expected(db, assetId), Pending, Unclear, NotRequired, None)
  }

  function TaskItems(db: Db, taskId: int, members: set<int>): map<ItemKey, Item>
    requires members <= db.assets.Keys
  {
    map a | a in members :: ItemKey(taskId, a) := Uncounted(db, a)
  }

  function TaskOf(scope: Scope): Task {
    match scope
    case AllAssets => Task(false, None, None)
    case WholeCentre(centre) => Task(false, Some(centre), None)
    case OneRoom(centre, room) => Task(false, Some(centre), Some(room))
  }

  // ---------- the services as functions of the tables ----------

  function CreateTask(db: Db, taskId: int, scope: Scope): Outcome {
    var members := ScopeAssets(db, scope);
    if taskId !in db.tasks && ScopeUsable(db, scope) && 1 <= |members| <= MAX_TASK_ASSETS
    then Committed(db.(tasks := db.tasks[taskId := TaskOf(scope)],
                       items := db.items + TaskItems(db, taskId, members)))
    else RolledBack
  }

  predicate Countable(db: Db, key: ItemKey) {
    && key in db.items && key.task in db.tasks && !db.tasks[key.task].completed
    && key.asset in db.assets && !db.assets[key.asset].archived
  }

  predicate RackUsable(db: Db, rackId: int, span: Span) {
    && RackActive(db, rackId)
    && db.rooms[db.racks[rackId].room].centre in db.centres && db.centres[db.rooms[db.racks[rackId].room].centre]
    && InRange(span, db.racks[rackId].totalU)
  }

  /** `inventory_snapshot_location`: the expected place still exists, unmoved and usable. */
  predicate ExpectedStands(db: Db, expected: Sighting) {
    match expected
    case Mounted(rack, span, room, centre) =>
      RackUsable(db, rack, span) && db.racks[rack].room == room && db.rooms[room].centre == centre
    case AtCentre(centre) => centre in db.centres && db.centres[centre]
    case _ => true
  }

  function ConfirmNormal(db: Db, key: ItemKey, requirePending: bool): Outcome {
    if Countable(db, key) && (requirePending ==> db.items[key].status == Pending)
       && ExpectedStands(db, db.items[key].expected)
    then
      var item := db.items[key];
      var seen := if item.expected == Unclear then Unlocated else item.expected;
      Committed(db.(items := db.items[key := Item(item.expected, Normal, seen, NotRequired, None)]))
    else RolledBack
  }

  predicate ReportUsable(db: Db, where: Reported) {
    match where
    case InRack(rack, span) => RackUsable(db, rack, span)
    case InCentre(centre) => centre in db.centres && db.centres[centre]
    case _ => true
  }

  function Restated(seen: Sighting): Reported {
    match seen
    case Unclear => NotStated
    case Mounted(rack, span, _, _) => InRack(rack, span)
    case AtCentre(centre) => InCentre(centre)
    case Unlocated => Nowhere
  }

  function Fresh(db: Db, where: Reported): Sighting
    requires ReportUsable(db, where)
  {
    match where
    case NotStated => Unclear
    case InRack(rack, span) => Mounted(rack, span, db.racks[rack].room, db.rooms[db.racks[rack].room].centre)
    case InCentre(centre) => AtCentre(centre)
    case Nowhere => Unlocated
  }

  /** The frozen room of a sighting is renewed only when a recorded field changes (models.py:1407-1436). */
  function Frozen(seen: Sighting, renewed: Sighting, sameStatus: bool): Sighting {
    if sameStatus && seen.Mounted? && renewed.Mounted? && seen == renewed.(room := seen.room) then seen else renewed
  }

  function Observed(item: Item, status: ItemStatus, seen: Sighting, notesChanged: bool): Item {
    if status == Pending || status == Normal then Item(item.expected, status, seen, NotRequired, None)
    else if status != item.status || Placed(seen) != Placed(item.seen) || notesChanged
    then Item(item.expected, status, seen, Unresolved, None)
    else item.(status := status, seen := seen)
  }

  /** The recorded columns of a sighting, without the frozen room. */
  function Placed(seen: Sighting): Sighting {
    if seen.Mounted? then seen.(room := 0) else seen
  }

  /** The location that the form adds up to, for a result other than normal. */
  function SeenNow(db: Db, item: Item, status: ItemStatus, where: Option<Reported>): Option<Sighting> {
    var report := if where.Some? then where.value else Restated(item.seen);
    if status == Pending || status == NotFound then Some(Unclear)
    else if ReportUsable(db, report) then Some(Frozen(item.seen, Fresh(db, report), status == item.status))
    else None
  }

  function ObserveAs(db: Db, key: ItemKey, status: ItemStatus, seen: Option<Sighting>, notesChanged: bool): Outcome
    requires key in db.items
  {
    if seen.Some?
    then Committed(db.(items := db.items[key := Observed(db.items[key], status, seen.value, notesChanged)]))
    else RolledBack
  }

  /** `record_inventory_observation`; None for fields that were not submitted. */
  function Observe(db: Db, key: ItemKey, submitted: Option<ItemStatus>, where: Option<Reported>,
                   notesChanged: bool): Outcome {
    if !Countable(db, key) then RolledBack
    else
      var status := if submitted.Some? then submitted.value else db.items[key].status;
      if status == Normal then ConfirmNormal(db, key, false)
      else ObserveAs(db, key, status, SeenNow(db, db.items[key], status, where), notesChanged)
  }

  /** The ledger correction of an exception (inventory_writes.py:263-300). */
  ghost function Correct(db: Db, assetId: int, seen: Sighting): Outcome {
    match seen
    case Unclear => RolledBack
    case Mounted(rack, span, room, centre) =>
      if rack in db.racks && db.racks[rack].room == room && room in db.rooms && db.rooms[room].centre == centre
      then Place(db, assetId, rack, span) else RolledBack
    case AtCentre(centre) => SetDirect(db, assetId, Some(centre))
    case Unlocated => SetDirect(db, assetId, None)
  }

  predicate Resolvable(db: Db, key: ItemKey, action: Action, noted: bool) {
    && key in db.items && key.asset in db.assets && !db.assets[key.asset].archived
    && db.items[key].status != Pending && db.items[key].status != Normal
    && db.items[key].resolution == Unresolved
    && ActionFits(action, db.items[key].status)
    && (action == Ignore ==> noted)
  }

  /** A resolution that leaves the ledger alone. */
  function MarkResolved(db: Db, key: ItemKey, action: Action, noted: bool): Outcome {
    if Resolvable(db, key, action, noted)
    then Committed(db.(items := db.items[key := db.items[key].(resolution := Resolved, action := Some(action))]))
    else RolledBack
  }

  /** The resolution once the correction of the ledger has been tried. */
  function ResolvedWith(db: Db, key: ItemKey, action: Action, corrected: Outcome): Outcome
    requires key in db.items
  {
    match corrected
    case RolledBack => RolledBack
    case Committed(db') => Committed(db'.(items := db.items[key := db.items[key].(resolution := Resolved,
                                                                                  action := Some(action))]))
  }

  /** `resolve_inventory_item`: the count may already be completed. */
  ghost function Resolve(db: Db, key: ItemKey, action: Action, noted: bool): Outcome {
    if action == UpdateAsset && Resolvable(db, key, action, noted)
    then ResolvedWith(db, key, action, Correct(db, key.asset, db.items[key].seen))
    else MarkResolved(db, key, action, noted)
  }

  predicate AllCounted(items: map<ItemKey, Item>, taskId: int) {
    forall k :: k in items && k.task == taskId ==> items[k].status != Pending
  }

  function CompleteTask(db: Db, taskId: int): Outcome {
    if !(taskId in db.tasks && ScopeStands(db.rooms, db.tasks[taskId])) then RolledBack
    else if db.tasks[taskId].completed then Committed(db)
    else if AllCounted(db.items, taskId) then
      Committed(db.(tasks := db.tasks[taskId := db.tasks[taskId].(completed := true)]))
    else RolledBack
  }

  predicate CountsArchived(db: Db, taskId: int) {
    exists k :: k in db.items && k.task == taskId && k.asset in db.assets && db.assets[k.asset].archived
  }

  function ReopenTask(db: Db, taskId: int): Outcome {
    if taskId in db.tasks && ScopeStands(db.rooms, db.tasks[taskId]) && db.tasks[taskId].completed
       && !CountsArchived(db, taskId)
    then Committed(db.(tasks := db.tasks[taskId := db.tasks[taskId].(completed := false)]))
    else RolledBack
  }

  function ItemsWithout(items: map<ItemKey, Item>, taskId: int): map<ItemKey, Item> {
    map k | k in items && k.task != taskId :: items[k]
  }

  predicate Untouched(items: map<ItemKey, Item>, taskId: int) {
    forall k :: k in items && k.task == taskId ==>
      items[k].status == Pending && items[k].resolution != Resolved && items[k].action == None
  }

  function DeleteTask(db: Db, taskId: int): Outcome {
    if taskId in db.tasks && ScopeStands(db.rooms, db.tasks[taskId]) && !db.tasks[taskId].completed
       && Untouched(db.items, taskId)
    then Committed(db.(tasks := db.tasks - {taskId}, items := ItemsWithout(db.items, taskId)))
    else RolledBack
  }

  // ---------- every commit keeps the invariants ----------

  lemma TaskItemsAre(db: Db, taskId: int, members: set<int>)
    requires members <= db.assets.Keys
    ensures forall k :: k in TaskItems(db, taskId, members) <==> k.task == taskId && k.asset in members
    ensures forall k ::
              k in TaskItems(db, taskId, members) ==> TaskItems(db, taskId, members)[k] == Uncounted(db, k.asset)
  {
    forall k: ItemKey | k.task == taskId && k.asset in members ensures k in TaskItems(db, taskId, members) {
      assert k == ItemKey(taskId, k.asset);
    }
  }

  lemma CountReferences(db: Db, tasks: map<int, Task>, items: map<ItemKey, Item>)
    requires References(db) && forall k :: k in items ==> k.task in tasks && k.asset in db.assets
    ensures References(db.(tasks := tasks, items := items))
  {}

  lemma CountTablesKeepInv(db: Db, tasks: map<int, Task>, items: map<ItemKey, Item>)
    requires Inv(db) && CountsConsistent(tasks, items) && CountsInPlace(db.rooms, tasks)
    requires forall k :: k in items ==> k.task in tasks && k.asset in db.assets
    requires forall k ::
               k in items && k.asset in db.assets && db.assets[k.asset].archived && k.task in tasks ==>
                 tasks[k.task].completed
    ensures Inv(db.(tasks := tasks, items := items))
  {
    CountReferences(db, tasks, items);
  }

  lemma CreateTaskKeepsInv(db: Db, taskId: int, scope: Scope)
    requires Inv(db)
    ensures Inv(After(db, CreateTask(db, taskId, scope)))
  {
    var outcome := CreateTask(db, taskId, scope);
    if outcome.Committed? {
      NewItemsFit(db, taskId, ScopeAssets(db, scope), outcome.db.tasks[taskId]);
      CountTablesKeepInv(db, outcome.db.tasks, outcome.db.items);
    }
  }

  lemma NewItemsFit(db: Db, taskId: int, members: set<int>, task: Task)
    requires members <= db.assets.Keys && taskId !in db.tasks && !task.completed
             && forall a :: a in members ==> !db.assets[a].archived
    requires References(db) && CountsConsistent(db.tasks, db.items)
             && ArchivedIdle(db.assets, db.allocations, db.tasks, db.items)
    ensures var tasks, items := db.tasks[taskId := task], db.items + TaskItems(db, taskId, members);
            && CountsConsistent(tasks, items)
            && (forall k :: k in items ==> k.task in tasks && k.asset in db.assets)
            && (forall k ::
                 k in items && k.asset in db.assets && db.assets[k.asset].archived && k.task in tasks ==>
                   tasks[k.task].completed)
  {
    TaskItemsAre(db, taskId, members);
  }

  lemma ItemWrittenKeepsInv(db: Db, key: ItemKey, item: Item)
    requires Inv(db) && key in db.items && ItemConsistent(item)
    requires item.status == Pending ==> key.task in db.tasks && !db.tasks[key.task].completed
    ensures Inv(db.(items := db.items[key := item]))
  {
    CountTablesKeepInv(db, db.tasks, db.items[key := item]);
    assert db.(tasks := db.tasks, items := db.items[key := item]) == db.(items := db.items[key := item]);
  }

  lemma ConfirmNormalKeepsInv(db: Db, key: ItemKey, requirePending: bool)
    requires Inv(db)
    ensures Inv(After(db, ConfirmNormal(db, key, requirePending)))
  {
    var outcome := ConfirmNormal(db, key, requirePending);
    if outcome.Committed? { ItemWrittenKeepsInv(db, key, outcome.db.items[key]); }
  }

  lemma ObservedConsistent(item: Item, status: ItemStatus, seen: Sighting, notesChanged: bool)
    requires ItemConsistent(item)
    ensures ItemConsistent(Observed(item, status, seen, notesChanged))
            && Observed(item, status, seen, notesChanged).status == status
  {}

  lemma ObserveAsKeepsInv(db: Db, key: ItemKey, status: ItemStatus, seen: Option<Sighting>, notesChanged: bool)
    requires Inv(db) && key in db.items && key.task in db.tasks && !db.tasks[key.task].completed
    ensures Inv(After(db, ObserveAs(db, key, status, seen, notesChanged)))
  {
    if seen.Some? {
      ObservedConsistent(db.items[key], status, seen.value, notesChanged);
      ItemWrittenKeepsInv(db, key, Observed(db.items[key], status, seen.value, notesChanged));
    }
  }

  lemma ObserveKeepsInv(db: Db, key: ItemKey, submitted: Option<ItemStatus>, where: Option<Reported>,
                        notesChanged: bool)
    requires Inv(db)
    ensures Inv(After(db, Observe(db, key, submitted, where, notesChanged)))
  {
    if Countable(db, key) {
      var status := if submitted.Some? then submitted.value else db.items[key].status;
      if status == Normal {
        ConfirmNormalKeepsInv(db, key, false);
      } else {
        ObserveAsKeepsInv(db, key, status, SeenNow(db, db.items[key], status, where), notesChanged);
      }
    }
  }

  ghost predicate CountsUntouched(before: Db, after: Db) {
    after.items == before.items && after.tasks == before.tasks && after.assets.Keys == before.assets.Keys
  }

  /** A correction leaves the counts alone. */
  lemma CorrectFrame(db: Db, assetId: int, seen: Sighting)
    ensures CountsUntouched(db, After(db, Correct(db, assetId, seen)))
  {
    match seen
    case Unclear =>
    case Mounted(rack, span, _, _) => PlaceFrame(db, assetId, rack, span);
    case AtCentre(centre) => SetDirectFrame(db, assetId, Some(centre));
    case Unlocated => SetDirectFrame(db, assetId, None);
  }

  lemma SetDirectFrame(db: Db, assetId: int, centre: Option<int>)
    ensures CountsUntouched(db, After(db, SetDirect(db, assetId, centre)))
  {
    if SetDirect(db, assetId, centre).Committed? {
      assert db.assets[assetId := db.assets[assetId].(centre := centre)].Keys == db.assets.Keys;
    }
  }

  lemma PlaceFrame(db: Db, assetId: int, rack: int, span: Span)
    ensures CountsUntouched(db, After(db, Place(db, assetId, rack, span)))
  {}

  lemma CorrectKeepsInv(db: Db, assetId: int, seen: Sighting)
    requires Inv(db)
    ensures Inv(After(db, Correct(db, assetId, seen)))
  {
    match seen
    case Unclear =>
    case Mounted(rack, span, _, _) => CorrectMountKeepsInv(db, assetId, seen);
    case AtCentre(centre) => SetDirectKeepsInv(db, assetId, Some(centre));
    case Unlocated => SetDirectKeepsInv(db, assetId, None);
  }

  lemma CorrectMountKeepsInv(db: Db, assetId: int, seen: Sighting)
    requires Inv(db) && seen.Mounted?
    ensures Inv(After(db, Correct(db, assetId, seen)))
  {
    PlaceKeepsInv(db, assetId, seen.rack, seen.span);
    PlacedOrNot(db, assetId, seen);
  }

  lemma PlacedOrNot(db: Db, assetId: int, seen: Sighting)
    requires seen.Mounted?
    ensures Correct(db, assetId, seen) == RolledBack
            || Correct(db, assetId, seen) == Place(db, assetId, seen.rack, seen.span)
  {}

  lemma ResolveKeepsInv(db: Db, key: ItemKey, action: Action, noted: bool)
    requires Inv(db)
    ensures Inv(After(db, Resolve(db, key, action, noted)))
  {
    if Resolve(db, key, action, noted).Committed? {
      var resolved := db.items[key].(resolution := Resolved, action := Some(action));
      CorrectKeepsInv(db, key.asset, db.items[key].seen);
      CorrectFrame(db, key.asset, db.items[key].seen);
      var corrected := if action == UpdateAsset then After(db, Correct(db, key.asset, db.items[key].seen)) else db;
      ItemWrittenKeepsInv(corrected, key, resolved);
    }
  }

  lemma CompleteTaskKeepsInv(db: Db, taskId: int)
    requires Inv(db)
    ensures Inv(After(db, CompleteTask(db, taskId)))
  {
    if CompleteTask(db, taskId).Committed? && !db.tasks[taskId].completed {
      CountTablesKeepInv(db, db.tasks[taskId := db.tasks[taskId].(completed := true)], db.items);
    }
  }

  lemma ReopenTaskKeepsInv(db: Db, taskId: int)
    requires Inv(db)
    ensures Inv(After(db, ReopenTask(db, taskId)))
  {
    if ReopenTask(db, taskId).Committed? {
      CountTablesKeepInv(db, db.tasks[taskId := db.tasks[taskId].(completed := false)], db.items);
    }
  }

  lemma DeleteTaskKeepsInv(db: Db, taskId: int)
    requires Inv(db)
    ensures Inv(After(db, DeleteTask(db, taskId)))
  {
    if DeleteTask(db, taskId).Committed? {
      CountTablesKeepInv(db, db.tasks - {taskId}, ItemsWithout(db.items, taskId));
    }
  }

  // ---------- what the operations mean together ----------

  predicate PlaceUsable(db: Db, assetId: int)
    requires assetId in db.assets
  {
    if assetId in db.allocations then RackUsable(db, db.allocations[assetId].rack, db.allocations[assetId].span)
    else db.assets[assetId].centre.Some? ==>
      db.assets[assetId].centre.value in db.centres && db.centres[db.assets[assetId].centre.value]
  }

  lemma ExpectedStandsWhenFresh(db: Db, assetId: int)
    requires References(db) && assetId in db.assets
    ensures ExpectedStands(db, Expected(db, assetId)) <==> PlaceUsable(db, assetId)
  {}

  /** Right after a task is created each member can be confirmed where the ledger has it,
      exactly when its own rack, room and centre can be used. */
  lemma FreshTaskCanBeConfirmed(db: Db, taskId: int, scope: Scope, assetId: int)
    requires References(db) && CreateTask(db, taskId, scope).Committed? && InScope(db, scope, assetId)
    ensures ConfirmNormal(CreateTask(db, taskId, scope).db, ItemKey(taskId, assetId), true).Committed? <==>
              PlaceUsable(db, assetId)
  {
    NewItem(db, taskId, scope, assetId);
    ExpectedStandsWhenFresh(db, assetId);
  }

  lemma NewItem(db: Db, taskId: int, scope: Scope, assetId: int)
    requires CreateTask(db, taskId, scope).Committed? && InScope(db, scope, assetId)
    ensures var db' := CreateTask(db, taskId, scope).db;
            && db' == db.(tasks := db.tasks[taskId := TaskOf(scope)], items := db'.items)
            && ItemKey(taskId, assetId) in db'.items && db'.items[ItemKey(taskId, assetId)] == Uncounted(db, assetId)
  {
    TaskItemsAre(db, taskId, ScopeAssets(db, scope));
    assert ItemKey(taskId, assetId) in TaskItems(db, taskId, ScopeAssets(db, scope));
  }

  lemma PlacedWhere(db: Db, assetId: int, rackId: int, span: Span)
    requires RetirementFinal(db.assets, db.allocations, db.disposals) && Place(db, assetId, rackId, span).Committed?
    requires rackId in db.racks && db.racks[rackId].room in db.rooms
    ensures assetId in Place(db, assetId, rackId, span).db.assets
    ensures Expected(Place(db, assetId, rackId, span).db, assetId) ==
              Mounted(rackId, span, db.racks[rackId].room, db.rooms[db.racks[rackId].room].centre)
  {}

  /** A correction makes the ledger say what the count saw. */
  lemma CorrectionMatchesSighting(db: Db, assetId: int, seen: Sighting)
    requires RetirementFinal(db.assets, db.allocations, db.disposals) && Correct(db, assetId, seen).Committed?
    ensures assetId in Correct(db, assetId, seen).db.assets
    ensures Expected(Correct(db, assetId, seen).db, assetId) == seen
  {
    if seen.Mounted? { PlacedWhere(db, assetId, seen.rack, seen.span); }
  }

  /** Completing and reopening a count are inverse, and a completed count can always be
      completed again once reopened. */
  lemma ReopenUndoesComplete(db: Db, taskId: int)
    requires Inv(db) && taskId in db.tasks && !db.tasks[taskId].completed && CompleteTask(db, taskId).Committed?
    ensures ReopenTask(CompleteTask(db, taskId).db, taskId) == Committed(db)
  {
    var db' := CompleteTask(db, taskId).db;
    assert db'.tasks[taskId := db'.tasks[taskId].(completed := false)] == db.tasks;
  }

  /** The tables, with the given tasks. */
  function WithTasks(outcome: Outcome, tasks: map<int, Task>): Outcome {
    match outcome
    case RolledBack => RolledBack
    case Committed(db) => Committed(db.(tasks := tasks))
  }

  lemma CorrectIgnoresTasks(db: Db, tasks: map<int, Task>, assetId: int, seen: Sighting)
    ensures Correct(db.(tasks := tasks), assetId, seen) == WithTasks(Correct(db, assetId, seen), tasks)
  {
    if seen.Mounted? { PlaceIgnoresTasks(db, tasks, assetId, seen.rack, seen.span); }
  }

  lemma CellsIgnoreTasks(db: Db, tasks: map<int, Task>, rackId: int, excluded: Option<int>, span: Span)
    ensures CellsFree(db.(tasks := tasks), rackId, excluded, span) == CellsFree(db, rackId, excluded, span)
    ensures Squeezed(db.(tasks := tasks), rackId, excluded, span) == Squeezed(db, rackId, excluded, span)
  {
    forall u ensures Taken(db.(tasks := tasks), rackId, excluded, u) == Taken(db, rackId, excluded, u) {}
  }

  lemma PlaceIgnoresTasks(db: Db, tasks: map<int, Task>, assetId: int, rackId: int, span: Span)
    ensures Place(db.(tasks := tasks), assetId, rackId, span) == WithTasks(Place(db, assetId, rackId, span), tasks)
  {
    CellsIgnoreTasks(db, tasks, rackId, Some(assetId), span);
  }

  lemma ResolveIgnoresTasks(db: Db, tasks: map<int, Task>, key: ItemKey, action: Action, noted: bool)
    ensures Resolve(db.(tasks := tasks), key, action, noted) == WithTasks(Resolve(db, key, action, noted), tasks)
  {
    if Resolvable(db, key, action, noted) { CorrectIgnoresTasks(db, tasks, key.asset, db.items[key].seen); }
  }

  /** Completing a count does not settle its exceptions: each can be resolved afterwards exactly
      when it could be before, and the order of the two calls makes no difference. */
  lemma ResolveAfterCompletion(db: Db, taskId: int, key: ItemKey, action: Action, noted: bool)
    requires CompleteTask(db, taskId).Committed?
    ensures var completed := CompleteTask(db, taskId).db;
            match Resolve(db, key, action, noted)
            case RolledBack => Resolve(completed, key, action, noted) == RolledBack
            case Committed(resolved) => Resolve(completed, key, action, noted) == CompleteTask(resolved, taskId)
  {
    var completed := CompleteTask(db, taskId).db;
    ResolveIgnoresTasks(db, completed.tasks, key, action, noted);
    assert completed == db.(tasks := completed.tasks);
    var outcome := Resolve(db, key, action, noted);
    if outcome.Committed? {
      ResolvedFrame(db, key, action, noted);
      CompletionIgnoresResolution(db, outcome.db, taskId);
    }
  }

  /** A resolution changes no room, no task and no counting result. */
  lemma ResolvedFrame(db: Db, key: ItemKey, action: Action, noted: bool)
    requires Resolve(db, key, action, noted).Committed?
    ensures var db' := Resolve(db, key, action, noted).db;
            && db'.rooms == db.rooms && db'.tasks == db.tasks && db'.items.Keys == db.items.Keys
            && forall k :: k in db.items ==> db'.items[k].status == db.items[k].status
  {
    CorrectFrame(db, key.asset, db.items[key].seen);
    CorrectKeepsRooms(db, key.asset, db.items[key].seen);
  }

  lemma CorrectKeepsRooms(db: Db, assetId: int, seen: Sighting)
    ensures After(db, Correct(db, assetId, seen)).rooms == db.rooms
  {}

  lemma CompletionIgnoresResolution(db: Db, resolved: Db, taskId: int)
    requires CompleteTask(db, taskId).Committed? && resolved.rooms == db.rooms && resolved.tasks == db.tasks
    requires resolved.items.Keys == db.items.Keys
             && forall k :: k in db.items ==> resolved.items[k].status == db.items[k].status
    ensures CompleteTask(resolved, taskId) == Committed(resolved.(tasks := CompleteTask(db, taskId).db.tasks))
  {}

  /** Confirming an item as normal leaves the same row whatever was recorded for it before. */
  lemma ConfirmOverridesObservation(db: Db, key: ItemKey, submitted: Option<ItemStatus>, where: Option<Reported>,
                                    notesChanged: bool)
    requires Observe(db, key, submitted, where, notesChanged).Committed?
    ensures ConfirmNormal(Observe(db, key, submitted, where, notesChanged).db, key, false) ==
              ConfirmNormal(db, key, false)
  {
    ObservedRow(db, key, submitted, where, notesChanged);
    var db' := Observe(db, key, submitted, where, notesChanged).db;
    var confirmed := Item(db.items[key].expected, Normal, if db.items[key].expected == Unclear then Unlocated
        else db.items[key].expected, NotRequired, None);
    assert db'.items[key := confirmed] == db.items[key := confirmed];
  }

  /** Only the item's own row is written, and it keeps the place the asset was expected at. */
  ghost predicate RowWritten(db: Db, key: ItemKey, status: ItemStatus, outcome: Outcome) {
    && outcome.Committed? && key in db.items && key in outcome.db.items
    && outcome.db == db.(items := db.items[key := outcome.db.items[key]])
    && outcome.db.items[key].expected == db.items[key].expected && outcome.db.items[key].status == status
  }

  lemma ConfirmedRow(db: Db, key: ItemKey)
    requires ConfirmNormal(db, key, false).Committed?
    ensures RowWritten(db, key, Normal, ConfirmNormal(db, key, false))
  {}

  lemma ObservedAsRow(db: Db, key: ItemKey, status: ItemStatus, seen: Option<Sighting>, notesChanged: bool)
    requires key in db.items && ObserveAs(db, key, status, seen, notesChanged).Committed?
    ensures RowWritten(db, key, status, ObserveAs(db, key, status, seen, notesChanged))
  {}

  lemma ObservedRow(db: Db, key: ItemKey, submitted: Option<ItemStatus>, where: Option<Reported>, notesChanged: bool)
    requires Observe(db, key, submitted, where, notesChanged).Committed?
    ensures Countable(db, key)
    ensures RowWritten(db, key, if submitted.Some? then submitted.value else db.items[key].status,
                       Observe(db, key, submitted, where, notesChanged))
  {
    var status := if submitted.Some? then submitted.value else db.items[key].status;
    if status == Normal {
      ConfirmedRow(db, key);
    } else {
      ObservedAsRow(db, key, status, SeenNow(db, db.items[key], status, where), notesChanged);
    }
  }

  /** A second identical observation finds the same sighting. */
  lemma SeenAgain(db: Db, db': Db, item: Item, item': Item, status: ItemStatus, where: Option<Reported>)
    requires db' == db.(items := db'.items) && SeenNow(db, item, status, where) == Some(item'.seen)
             && item'.status == status
    ensures SeenNow(db', item', status, where) == Some(item'.seen)
  {}

  lemma SettledAgain(item: Item, status: ItemStatus, seen: Sighting, notesChanged: bool, settled: Item)
    requires ItemConsistent(settled)
    requires settled ==
               Observed(item, status, seen, notesChanged).(resolution := settled.resolution, action := settled.action)
    ensures settled.status == status && settled.seen == seen && Observed(settled, status, seen, false) == settled
  {}

  lemma ConfirmedAgain(db: Db, key: ItemKey, confirmed: Db, settled: Item)
    requires ConfirmNormal(db, key, false) == Committed(confirmed) && key in confirmed.items && ItemConsistent(settled)
    requires settled == confirmed.items[key].(resolution := settled.resolution, action := settled.action)
    ensures ConfirmNormal(confirmed, key, false) == Committed(confirmed)
            && confirmed == db.(items := db.items[key := settled])
  {
    assert confirmed.items[key := settled] == confirmed.items;
  }

  lemma ObservedAgain(db: Db, key: ItemKey, status: ItemStatus, where: Option<Reported>, notesChanged: bool,
                      recorded: Item, settled: Item)
    requires key in db.items && SeenNow(db, db.items[key], status, where).Some? && ItemConsistent(settled)
    requires recorded == Observed(db.items[key], status, SeenNow(db, db.items[key], status, where).value, notesChanged)
    requires settled == recorded.(resolution := settled.resolution, action := settled.action)
    ensures var later := db.(items := db.items[key := settled]);
            settled.status == status
            && ObserveAs(later, key, status, SeenNow(later, settled, status, where), false) == Committed(later)
  {
    var later := db.(items := db.items[key := settled]);
    SettledAgain(db.items[key], status, SeenNow(db, db.items[key], status, where).value, notesChanged, settled);
    SeenAgain(db, later, db.items[key], settled, status, where);
    assert later.items[key := settled] == later.items;
  }

  /** The status that the form adds up to. */
  function StatusNow(db: Db, key: ItemKey, submitted: Option<ItemStatus>): ItemStatus
    requires key in db.items
  {
    if submitted.Some? then submitted.value else db.items[key].status
  }

  lemma ObserveIsConfirm(db: Db, key: ItemKey, submitted: Option<ItemStatus>, where: Option<Reported>,
                         notesChanged: bool)
    requires Countable(db, key) && StatusNow(db, key, submitted) == Normal
    ensures Observe(db, key, submitted, where, notesChanged) == ConfirmNormal(db, key, false)
  {}

  lemma ObserveIsRecord(db: Db, key: ItemKey, submitted: Option<ItemStatus>, where: Option<Reported>,
                        notesChanged: bool)
    requires Countable(db, key) && StatusNow(db, key, submitted) != Normal
    ensures var status := StatusNow(db, key, submitted);
            Observe(db, key, submitted, where, notesChanged) ==
            ObserveAs(db, key, status, SeenNow(db, db.items[key], status, where), notesChanged)
  {}

  lemma RepeatedNormal(db: Db, key: ItemKey, submitted: Option<ItemStatus>, where: Option<Reported>, recorded: Db,
                       settled: Item)
    requires Countable(db, key) && StatusNow(db, key, submitted) == Normal && key in recorded.items
    requires ConfirmNormal(db, key, false) == Committed(recorded)
    requires ItemConsistent(settled)
    requires settled == recorded.items[key].(resolution := settled.resolution, action := settled.action)
    ensures var later := db.(items := db.items[key := settled]);
            Observe(later, key, submitted, where, false) == Committed(later)
  {
    ConfirmedAgain(db, key, recorded, settled);
    ObserveIsConfirm(db.(items := db.items[key := settled]), key, submitted, where, false);
  }

  lemma RepeatedOther(db: Db, key: ItemKey, submitted: Option<ItemStatus>, where: Option<Reported>, notesChanged: bool,
                      recorded: Item, settled: Item)
    requires Countable(db, key) && StatusNow(db, key, submitted) != Normal
    requires ItemConsistent(settled)
    requires settled == recorded.(resolution := settled.resolution, action := settled.action)
    requires var status := StatusNow(db, key, submitted);
             SeenNow(db, db.items[key], status, where).Some?
             && recorded ==
                Observed(db.items[key], status, SeenNow(db, db.items[key], status, where).value, notesChanged)
    ensures var later := db.(items := db.items[key := settled]);
            Observe(later, key, submitted, where, false) == Committed(later)
  {
    ObservedAgain(db, key, StatusNow(db, key, submitted), where, notesChanged, recorded, settled);
    ObserveIsRecord(db.(items := db.items[key := settled]), key, submitted, where, false);
  }

  lemma RecordedItem(db: Db, key: ItemKey, status: ItemStatus, seen: Option<Sighting>, notesChanged: bool, recorded: Db)
    requires key in db.items && ObserveAs(db, key, status, seen, notesChanged) == Committed(recorded)
    ensures seen.Some? && key in recorded.items
    ensures recorded.items[key] == Observed(db.items[key], status, seen.value, notesChanged)
  {}

  /** Recording the same observation again changes nothing, and in particular a resolution made
      in between stays: `settled` is the recorded item with any resolution that fits it. */
  lemma RepeatedObservationIsNoChange(db: Db, key: ItemKey, submitted: Option<ItemStatus>, where: Option<Reported>,
                                      notesChanged: bool, recorded: Db, settled: Item)
    requires Observe(db, key, submitted, where, notesChanged) == Committed(recorded) && key in recorded.items
    requires ItemConsistent(settled)
    requires settled == recorded.items[key].(resolution := settled.resolution, action := settled.action)
    ensures var later := db.(items := db.items[key := settled]);
            Observe(later, key, submitted, where, false) == Committed(later)
  {
    if StatusNow(db, key, submitted) == Normal {
      ObserveIsConfirm(db, key, submitted, where, notesChanged);
      RepeatedNormal(db, key, submitted, where, recorded, settled);
    } else {
      ObserveIsRecord(db, key, submitted, where, notesChanged);
      var status := StatusNow(db, key, submitted);
      RecordedItem(db, key, status, SeenNow(db, db.items[key], status, where), notesChanged, recorded);
      RepeatedOther(db, key, submitted, where, notesChanged, recorded.items[key], settled);
    }
  }

  /** A room can leave the centre of its count only after the count is completed, and from then on
      the count can be neither reopened nor completed again. */
  lemma MovedRoomEndsCount(db: Db, taskId: int, roomId: int, centre: int, name: int, active: bool, stocked: bool)
    requires taskId in db.tasks && db.tasks[taskId].room == Some(roomId) && ScopeStands(db.rooms, db.tasks[taskId])
    requires centre != db.rooms[roomId].centre && UpdateRoom(db, roomId, Some(centre), name, active, stocked).Committed?
    ensures db.tasks[taskId].completed
    ensures var moved := UpdateRoom(db, roomId, Some(centre), name, active, stocked).db;
            ReopenTask(moved, taskId) == RolledBack && CompleteTask(moved, taskId) == RolledBack
  {
    assert !RoomBeingCounted(db, roomId);
  }

  /** An untouched new count can be deleted, which leaves nothing behind. */
  lemma DeleteUndoesCreate(db: Db, taskId: int, scope: Scope)
    requires References(db) && CreateTask(db, taskId, scope).Committed?
    ensures DeleteTask(CreateTask(db, taskId, scope).db, taskId) == Committed(db)
  {
    var db' := CreateTask(db, taskId, scope).db;
    NewItemsGone(db, taskId, ScopeAssets(db, scope));
    assert db'.tasks - {taskId} == db.tasks;
  }

  lemma NewItemsGone(db: Db, taskId: int, members: set<int>)
    requires members <= db.assets.Keys && forall k :: k in db.items ==> k.task != taskId
    ensures ItemsWithout(db.items + TaskItems(db, taskId, members), taskId) == db.items
    ensures Untouched(db.items + TaskItems(db, taskId, members), taskId)
  {
    TaskItemsAre(db, taskId, members);
  }

  // ---------- batches ----------

  /** A known row of an archived asset: the call for it ends in an error that the loop of a batch
      does not expect (asset_retention.py:17-18). */
  predicate OfArchived(db: Db, key: ItemKey) {
    key in db.items && key.asset in db.assets && db.assets[key.asset].archived
  }

  /** One row on its own: a confirmation, or a resolution that leaves the ledger alone. */
  function RowAlone(db: Db, key: ItemKey, action: Option<Action>, noted: bool): Outcome {
    if action == None then ConfirmNormal(db, key, true) else MarkResolved(db, key, action.value, noted)
  }

  /** How far a batch got: through its rows, with a verdict each, or into an unexpected error that
      leaves no verdicts but the rows written so far. */
  datatype BatchState = Running(db: Db, verdicts: seq<bool>) | Stopped(db: Db)

  function BatchRow(state: BatchState, key: ItemKey, action: Option<Action>, noted: bool): BatchState {
    if state.Stopped? then state
    else if OfArchived(state.db, key) then Stopped(state.db)
    else
      var outcome := RowAlone(state.db, key, action, noted);
      Running(After(state.db, outcome), state.verdicts + [outcome.Committed?])
  }

  function Batch(db: Db, keys: seq<ItemKey>, action: Option<Action>, noted: bool): BatchState {
    if keys == [] then Running(db, [])
    else BatchRow(Batch(db, keys[..|keys| - 1], action, noted), keys[|keys| - 1], action, noted)
  }

  lemma BatchExtends(db: Db, keys: seq<ItemKey>, i: nat, action: Option<Action>, noted: bool)
    requires i < |keys|
    ensures Batch(db, keys[..i + 1], action, noted) ==
            BatchRow(Batch(db, keys[..i], action, noted), keys[i], action, noted)
  {
    assert keys[..i + 1][..i] == keys[..i];
  }

  lemma BatchRowKeepsInv(state: BatchState, key: ItemKey, action: Option<Action>, noted: bool)
    requires Inv(state.db)
    ensures Inv(BatchRow(state, key, action, noted).db)
  {
    var outcome := RowAlone(state.db, key, action, noted);
    if outcome.Committed? { ItemWrittenKeepsInv(state.db, key, outcome.db.items[key]); }
  }

  lemma {:induction false} BatchKeepsInv(db: Db, keys: seq<ItemKey>, action: Option<Action>, noted: bool)
    requires Inv(db)
    ensures Inv(Batch(db, keys, action, noted).db)
  {
    if keys != [] {
      BatchKeepsInv(db, keys[..|keys| - 1], action, noted);
      BatchRowKeepsInv(Batch(db, keys[..|keys| - 1], action, noted), keys[|keys| - 1], action, noted);
    }
  }

  /** The item after its row committed. */
  function Handled(item: Item, action: Option<Action>): Item {
    if action == None
    then Item(item.expected, Normal, if item.expected == Unclear then Unlocated else item.expected, NotRequired, None)
    else item.(resolution := Resolved, action := action)
  }

  /** Only items changed: those of the given rows that commit on their own in the tables before. */
  ghost predicate RowsWritten(before: Db, after: Db, keys: seq<ItemKey>, action: Option<Action>, noted: bool) {
    && after == before.(items := after.items) && after.items.Keys == before.items.Keys
    && forall k :: k in before.items ==>
         after.items[k] ==
         if k in keys && RowAlone(before, k, action, noted).Committed?
         then Handled(before.items[k], action)
         else before.items[k]
  }

  /** Each row has the verdict that it gets on its own; a repeated one is refused. */
  ghost predicate VerdictsAlone(db: Db, keys: seq<ItemKey>, action: Option<Action>, noted: bool, verdicts: seq<bool>) {
    && |verdicts| == |keys|
    && forall i :: 0 <= i < |keys| ==>
         (verdicts[i] <==> keys[i] !in keys[..i] && RowAlone(db, keys[i], action, noted).Committed?)
  }

  lemma RowAloneWrites(db: Db, key: ItemKey, action: Option<Action>, noted: bool)
    requires RowAlone(db, key, action, noted).Committed?
    ensures key in db.items
    ensures RowAlone(db, key, action, noted) == Committed(db.(items := db.items[key := Handled(db.items[key], action)]))
  {}

  /** A row that committed is refused the next time. */
  lemma RowOnlyOnce(db: Db, now: Db, key: ItemKey, action: Option<Action>, noted: bool)
    requires key in db.items && key in now.items && now.items[key] == Handled(db.items[key], action)
    ensures !RowAlone(now, key, action, noted).Committed?
  {}

  /** The outcome of a row depends on no other item. */
  lemma SameVerdict(before: Db, now: Db, key: ItemKey, action: Option<Action>, noted: bool)
    requires now == before.(items := now.items) && now.items.Keys == before.items.Keys
    requires key in before.items ==> now.items[key] == before.items[key]
    ensures RowAlone(now, key, action, noted).Committed? <==> RowAlone(before, key, action, noted).Committed?
  {}

  lemma NextVerdict(db: Db, now: Db, keys: seq<ItemKey>, key: ItemKey, action: Option<Action>, noted: bool)
    requires RowsWritten(db, now, keys, action, noted)
    ensures RowAlone(now, key, action, noted).Committed? <==>
            key !in keys && RowAlone(db, key, action, noted).Committed?
  {
    if key in keys && RowAlone(db, key, action, noted).Committed? {
      RowAloneWrites(db, key, action, noted);
      RowOnlyOnce(db, now, key, action, noted);
    } else {
      SameVerdict(db, now, key, action, noted);
    }
  }

  lemma NextWritten(db: Db, now: Db, keys: seq<ItemKey>, key: ItemKey, action: Option<Action>, noted: bool)
    requires RowsWritten(db, now, keys, action, noted)
    ensures RowsWritten(db, After(now, RowAlone(now, key, action, noted)), keys + [key], action, noted)
  {
    NextVerdict(db, now, keys, key, action, noted);
    if RowAlone(now, key, action, noted).Committed? { RowAloneWrites(now, key, action, noted); }
  }

  lemma NextVerdicts(db: Db, keys: seq<ItemKey>, key: ItemKey, action: Option<Action>, noted: bool,
                     verdicts: seq<bool>, ok: bool)
    requires VerdictsAlone(db, keys, action, noted, verdicts)
    requires ok <==> key !in keys && RowAlone(db, key, action, noted).Committed?
    ensures VerdictsAlone(db, keys + [key], action, noted, verdicts + [ok])
  {
    var longer := keys + [key];
    forall i | 0 <= i < |longer|
      ensures (verdicts + [ok])[i] <==> longer[i] !in longer[..i] && RowAlone(db, longer[i], action, noted).Committed?
    {
      assert longer[..i] == keys[..i];
    }
  }

  lemma NextRow(db: Db, state: BatchState, keys: seq<ItemKey>, key: ItemKey, action: Option<Action>, noted: bool)
    requires state.Running? && !OfArchived(db, key) && RowsWritten(db, state.db, keys, action, noted)
    requires VerdictsAlone(db, keys, action, noted, state.verdicts)
    ensures var next := BatchRow(state, key, action, noted);
            && next.Running? && RowsWritten(db, next.db, keys + [key], action, noted)
            && VerdictsAlone(db, keys + [key], action, noted, next.verdicts)
  {
    NextVerdict(db, state.db, keys, key, action, noted);
    NextWritten(db, state.db, keys, key, action, noted);
    NextVerdicts(db, keys, key, action, noted, state.verdicts, RowAlone(state.db, key, action, noted).Committed?);
  }

  /** No row of an archived asset: every row is handled. */
  lemma {:induction false} BatchRuns(db: Db, keys: seq<ItemKey>, action: Option<Action>, noted: bool)
    requires forall i :: 0 <= i < |keys| ==> !OfArchived(db, keys[i])
    ensures Batch(db, keys, action, noted).Running?
    ensures RowsWritten(db, Batch(db, keys, action, noted).db, keys, action, noted)
    ensures VerdictsAlone(db, keys, action, noted, Batch(db, keys, action, noted).verdicts)
  {
    if keys != [] {
      var init, last := keys[..|keys| - 1], keys[|keys| - 1];
      BatchRuns(db, init, action, noted);
      NextRow(db, Batch(db, init, action, noted), init, last, action, noted);
      assert init + [last] == keys;
    }
  }

  /** The first known row of an archived asset, or the number of rows. */
  function StopsAt(db: Db, keys: seq<ItemKey>): (n: nat)
    ensures n <= |keys| && (n < |keys| ==> OfArchived(db, keys[n]))
    ensures forall i :: 0 <= i < n ==> !OfArchived(db, keys[i])
  {
    if keys == [] || OfArchived(db, keys[0]) then 0 else 1 + StopsAt(db, keys[1..])
  }

  /** Nothing happens after the row that stopped the batch. */
  lemma {:induction false} BatchStays(db: Db, keys: seq<ItemKey>, n: nat, action: Option<Action>, noted: bool)
    requires n < |keys| && Batch(db, keys[..n], action, noted).Running?
    requires OfArchived(Batch(db, keys[..n], action, noted).db, keys[n])
    ensures Batch(db, keys, action, noted) == Stopped(Batch(db, keys[..n], action, noted).db)
    decreases |keys|
  {
    var init := keys[..|keys| - 1];
    if n < |init| {
      assert init[..n] == keys[..n];
      BatchStays(db, init, n, action, noted);
    } else {
      assert init == keys[..n];
    }
  }

  /** A batch handles all its rows, each with the verdict it gets on its own, if and only if no
      known row is of an archived asset. Otherwise it stops at the first such row without any
      verdicts: exactly the rows before it are written, and the later ones are never tried. */
  lemma {:induction false} BatchStopsAtArchived(db: Db, keys: seq<ItemKey>, action: Option<Action>, noted: bool)
    ensures var state := Batch(db, keys, action, noted);
            && (state.Running? <==> forall k :: k in keys ==> !OfArchived(db, k))
            && (state.Running? ==> VerdictsAlone(db, keys, action, noted, state.verdicts))
            && RowsWritten(db, state.db, keys[..StopsAt(db, keys)], action, noted)
  {
    var n := StopsAt(db, keys);
    BatchRuns(db, keys[..n], action, noted);
    if n < |keys| {
      BatchStays(db, keys, n, action, noted);
      assert keys[n] in keys;
    } else {
      assert keys[..n] == keys;
    }
  }

  // ---------- the services, step by step ----------

  method CreateInventoryTask(store: Store, taskId: int, scope: Scope) returns (ok: bool)
    requires References(store.View())
    modifies store
    ensures ok <==> CreateTask(old(store.View()), taskId, scope).Committed?
    ensures store.View() == After(old(store.View()), CreateTask(old(store.View()), taskId, scope))
  {
    var usable := ScopeUsable(store.View(), scope);
    if taskId in store.tasks || !usable { return false; }
    var members := ScopeMembers(store, scope);
    if |members| > MAX_TASK_ASSETS || members == {} { return false; }
    WriteTask(store, taskId, scope, members);
    return true;
  }

  /** The row of a new count and its items. */
  method WriteTask(store: Store, taskId: int, scope: Scope, members: set<int>)
    requires members <= store.assets.Keys
    modifies store`tasks, store`items
    ensures store.tasks == old(store.tasks)[taskId := TaskOf(scope)]
    ensures store.items == old(store.items) + TaskItems(old(store.View()), taskId, members)
  {
    var db := store.View();
    match scope {
      case AllAssets => store.tasks := store.tasks[taskId := Task(false, None, None)];
      case WholeCentre(centre) => store.tasks := store.tasks[taskId := Task(false, Some(centre), None)];
      case OneRoom(centre, room) => store.tasks := store.tasks[taskId := Task(false, Some(centre), Some(room))];
    }
    AddItems(store, db, taskId, members);
    ItemsAdded(db, taskId, members, store.items);
  }

  /** The scope query. */
  method ScopeMembers(store: Store, scope: Scope) returns (members: set<int>)
    ensures members == ScopeAssets(store.View(), scope) && members <= store.assets.Keys
  {
    members := set a | a in store.assets && InScope(store.View(), scope, a);
  }

  lemma ItemsAdded(db: Db, taskId: int, members: set<int>, items: map<ItemKey, Item>)
    requires members <= db.assets.Keys
    requires forall k :: k in items <==> k in db.items || (k.task == taskId && k.asset in members)
    requires forall k ::
               k in items ==> items[k] == if k.task == taskId && k.asset in members then Uncounted(db, k.asset)
                   else db.items[k]
    ensures items == db.items + TaskItems(db, taskId, members)
  {
    TaskItemsAre(db, taskId, members);
  }

  /** One pending item for each member, with the location that the ledger has for it. */
  method AddItems(store: Store, db: Db, taskId: int, members: set<int>)
    requires members <= db.assets.Keys
    modifies store`items
    ensures forall k :: k in store.items <==> k in old(store.items) || (k.task == taskId && k.asset in members)
    ensures forall k :: k in store.items ==>
      store.items[k] == if k.task == taskId && k.asset in members then Uncounted(db, k.asset) else old(store.items)[k]
  {
    var todo := members;
    while todo != {}
      invariant todo <= members
      invariant forall k ::
                  k in store.items <==> k in old(store.items) || (k.task == taskId && k.asset in members - todo)
      invariant forall k :: k in store.items ==>
        store.items[k] == if k.task == taskId && k.asset in members - todo then Uncounted(db, k.asset)
            else old(store.items)[k]
      decreases todo
    {
      HasMember(todo);
      var a :| a in todo;
      store.items := store.items[ItemKey(taskId, a) := Item(Expected(db, a), Pending, Unclear, NotRequired, None)];
      todo := todo - {a};
    }
  }

  method ConfirmInventoryItemNormal(store: Store, key: ItemKey, requirePending: bool) returns (ok: bool)
    modifies store
    ensures ok <==> ConfirmNormal(old(store.View()), key, requirePending).Committed?
    ensures store.View() == After(old(store.View()), ConfirmNormal(old(store.View()), key, requirePending))
  {
    if key !in store.items || key.asset !in store.assets || store.assets[key.asset].archived { return false; }
    if key.task !in store.tasks || store.tasks[key.task].completed { return false; }
    var item := store.items[key];
    if requirePending && item.status != Pending { return false; }
    var stands := ExpectedStands(store.View(), item.expected);
    if !stands { return false; }
    item := item.(status := Normal, seen := if item.expected == Unclear then Unlocated else item.expected);
    item := item.(resolution := NotRequired, action := None);
    store.items := store.items[key := item];
    return true;
  }

  method RecordInventoryObservation(store: Store, key: ItemKey, submitted: Option<ItemStatus>, where: Option<Reported>,
                                    notesChanged: bool)
    returns (ok: bool)
    modifies store
    ensures ok <==> Observe(old(store.View()), key, submitted, where, notesChanged).Committed?
    ensures store.View() == After(old(store.View()), Observe(old(store.View()), key, submitted, where, notesChanged))
  {
    if key !in store.items || key.asset !in store.assets || store.assets[key.asset].archived { return false; }
    if key.task !in store.tasks || store.tasks[key.task].completed { return false; }
    var item := store.items[key];
    var status := if submitted.Some? then submitted.value else item.status;
    if status == Normal {
      ok := ConfirmInventoryItemNormal(store, key, false);
      return;
    }
    var seen := Unclear;
    if status != Pending && status != NotFound {
      var report := if where.Some? then where.value else Restated(item.seen);
      if !ReportUsable(store.View(), report) { return false; }
      seen := Frozen(item.seen, Fresh(store.View(), report), status == item.status);
    }
    var changed := status != item.status || Placed(seen) != Placed(item.seen) || notesChanged;
    var updated := item.(status := status, seen := seen);
    if status == Pending || changed {
      updated := updated.(resolution := if status == Pending then NotRequired else Unresolved, action := None);
    }
    store.items := store.items[key := updated];
    return true;
  }

  method ResolveInventoryItem(store: Store, key: ItemKey, action: Action, noted: bool) returns (ok: bool)
    requires action == UpdateAsset ==> RacksSound(store.View())
    modifies store
    ensures ok <==> Resolve(old(store.View()), key, action, noted).Committed?
    ensures store.View() == After(old(store.View()), Resolve(old(store.View()), key, action, noted))
  {
    if action == Ignore && !noted { return false; }
    if key !in store.items || key.asset !in store.assets || store.assets[key.asset].archived { return false; }
    var item := store.items[key];
    if item.status == Pending || item.status == Normal || item.resolution != Unresolved { return false; }
    if action == ConfirmMissing && item.status != NotFound { return false; }
    if action == UpdateAsset {
      if item.status != LocationMismatch { return false; }
      CorrectFrame(store.View(), key.asset, item.seen);
      var corrected := CorrectLedger(store, key.asset, item.seen);
      if !corrected { return false; }
    }
    item := item.(resolution := Resolved, action := Some(action));
    store.items := store.items[key := item];
    return true;
  }

  method CorrectLedger(store: Store, assetId: int, seen: Sighting) returns (ok: bool)
    requires RacksSound(store.View())
    modifies store
    ensures ok <==> Correct(old(store.View()), assetId, seen).Committed?
    ensures store.View() == After(old(store.View()), Correct(old(store.View()), assetId, seen))
  {
    match seen {
      case Unclear => return false;
      case Mounted(rack, span, room, centre) =>
        if rack !in store.racks || store.racks[rack].room != room || room !in store.rooms
           || store.rooms[room].centre != centre {
          return false;
        }
        ok := PlaceAsset(store, assetId, rack, span);
      case AtCentre(centre) => ok := SetDirectAssetPlacement(store, assetId, Some(centre));
      case Unlocated => ok := SetDirectAssetPlacement(store, assetId, None);
    }
  }

  /** The check of `lock_inventory_scope`: a room has not moved to another centre. */
  method LockInventoryScope(store: Store, task: Task) returns (stands: bool)
    ensures stands <==> ScopeStands(store.rooms, task)
  {
    if task.room == None { return true; }
    if task.room.value !in store.rooms || task.centre == None { return false; }
    return store.rooms[task.room.value].centre == task.centre.value;
  }

  method CompleteInventoryTask(store: Store, taskId: int) returns (ok: bool)
    modifies store
    ensures ok <==> CompleteTask(old(store.View()), taskId).Committed?
    ensures store.View() == After(old(store.View()), CompleteTask(old(store.View()), taskId))
  {
    if taskId !in store.tasks { return false; }
    var stands := LockInventoryScope(store, store.tasks[taskId]);
    if !stands { return false; }
    if store.tasks[taskId].completed { return true; }
    var pending := set k | k in store.items && k.task == taskId && store.items[k].status == Pending;
    assert AllCounted(store.items, taskId) <==> pending == {} by {
      assert pending == {} ==> forall k :: k in store.items && k.task == taskId ==> k !in pending;
    }
    if |pending| > 0 { return false; }
    store.tasks := store.tasks[taskId := store.tasks[taskId].(completed := true)];
    return true;
  }

  method ReopenInventoryTask(store: Store, taskId: int) returns (ok: bool)
    modifies store
    ensures ok <==> ReopenTask(old(store.View()), taskId).Committed?
    ensures store.View() == After(old(store.View()), ReopenTask(old(store.View()), taskId))
  {
    if taskId !in store.tasks { return false; }
    var stands := LockInventoryScope(store, store.tasks[taskId]);
    if !stands { return false; }
    if exists k | k in store.items :: k.task == taskId && k.asset in store.assets && store.assets[k.asset].archived {
      return false;
    }
    if !store.tasks[taskId].completed { return false; }
    store.tasks := store.tasks[taskId := store.tasks[taskId].(completed := false)];
    return true;
  }

  method DeleteInventoryTask(store: Store, taskId: int) returns (ok: bool)
    modifies store
    ensures ok <==> DeleteTask(old(store.View()), taskId).Committed?
    ensures store.View() == After(old(store.View()), DeleteTask(old(store.View()), taskId))
  {
    if taskId !in store.tasks { return false; }
    var stands := LockInventoryScope(store, store.tasks[taskId]);
    if !stands || store.tasks[taskId].completed { return false; }
    if exists k | k in store.items ::
         k.task == taskId && (store.items[k].resolution == Resolved || store.items[k].action.Some?) {
      return false;
    }
    if exists k | k in store.items :: k.task == taskId && store.items[k].status != Pending { return false; }
    store.tasks := store.tasks - {taskId};
    store.items := map k | k in store.items && k.task != taskId :: store.items[k];
    return true;
  }

  /** The answer to a batch: a refused request, an error in the middle, or a verdict for each row. */
  datatype BatchReply = Refused | Failed | Answered(verdicts: seq<bool>)

  /** `submit_inventory_batch`: every row is its own transaction. A row of an archived asset raises
      an error that the loop does not catch. */
  method SubmitInventoryBatch(store: Store, keys: seq<ItemKey>, action: Option<Action>, noted: bool)
    returns (reply: BatchReply)
    modifies store
    ensures reply.Refused? <==> !BatchAdmissible(old(store.items), keys, action, noted)
    ensures reply.Refused? ==> store.View() == old(store.View())
    ensures !reply.Refused? ==>
              var state := Batch(old(store.View()), keys, action, noted);
              store.View() == state.db && reply == if state.Running? then Answered(state.verdicts) else Failed
  {
    var admitted := AdmitBatch(store, keys, action, noted);
    if !admitted { return Refused; }
    ghost var db := store.View();
    var results: seq<bool> := [];
    var i := 0;
    while i < |keys|
      invariant 0 <= i <= |keys|
      invariant Batch(db, keys[..i], action, noted) == Running(store.View(), results)
    {
      BatchExtends(db, keys, i, action, noted);
      var raised, ok := SubmitRow(store, keys[i], action, noted);
      if raised {
        BatchStays(db, keys, i, action, noted);
        return Failed;
      }
      results := results + [ok];
      i := i + 1;
    }
    assert keys[..|keys|] == keys;
    return Answered(results);
  }

  /** A batch cannot correct the ledger, and its known rows belong to one task. */
  predicate BatchAdmissible(items: map<ItemKey, Item>, keys: seq<ItemKey>, action: Option<Action>, noted: bool) {
    && action != Some(UpdateAsset) && (action == Some(Ignore) ==> noted)
    && forall k, j :: k in keys && j in keys && k in items && j in items ==> k.task == j.task
  }

  method AdmitBatch(store: Store, keys: seq<ItemKey>, action: Option<Action>, noted: bool) returns (admitted: bool)
    ensures admitted <==> BatchAdmissible(store.items, keys, action, noted)
  {
    if action == Some(UpdateAsset) || (action == Some(Ignore) && !noted) { return false; }
    var tasks := set k | k in keys && k in store.items :: k.task;
    OneTask(keys, store.items, tasks);
    return |tasks| <= 1;
  }

  lemma AtMostOne(tasks: set<int>, t: int, u: int)
    requires |tasks| <= 1 && t in tasks && u in tasks
    ensures t == u
  {
    assert |tasks - {t}| == 0;
  }

  lemma OneTask(keys: seq<ItemKey>, items: map<ItemKey, Item>, tasks: set<int>)
    requires tasks == set k | k in keys && k in items :: k.task
    ensures |tasks| <= 1 <==> forall k, j :: k in keys && j in keys && k in items && j in items ==> k.task == j.task
  {
    if |tasks| <= 1 {
      forall k, j | k in keys && j in keys && k in items && j in items
        ensures k.task == j.task
      {
        AtMostOne(tasks, k.task, j.task);
      }
    } else {
      HasMember(tasks);
      var t :| t in tasks;
      assert |tasks - {t}| == |tasks| - 1;
      HasMember(tasks - {t});
      var u :| u in tasks - {t};
      assert u in tasks && u != t;
    }
  }

  method SubmitRow(store: Store, key: ItemKey, action: Option<Action>, noted: bool) returns (raised: bool, ok: bool)
    requires action != Some(UpdateAsset)
    modifies store
    ensures raised <==> OfArchived(old(store.View()), key)
    ensures raised ==> store.View() == old(store.View())
    ensures !raised ==> (ok <==> RowAlone(old(store.View()), key, action, noted).Committed?)
    ensures !raised ==> store.View() == After(old(store.View()), RowAlone(old(store.View()), key, action, noted))
  {
    if key in store.items && key.asset in store.assets && store.assets[key.asset].archived { return true, false; }
    raised := false;
    if action == None {
      ok := ConfirmInventoryItemNormal(store, key, true);
    } else {
      ok := ResolveInventoryItem(store, key, action.value, noted);
    }
  }
}
