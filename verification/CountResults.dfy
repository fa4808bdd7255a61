/** What a committed count write leaves in the rows, and which assets, reports and rows it takes.

    Covers backend/assets/inventory_writes.py and inventory.py:61-107.
 */
module CountResults {
  import opened RackRanges
  import opened Records
  import opened Placement
  import opened Inventory

  // ---------- scopes ----------

  /** A rack that is counted: not disabled, in an active room. */
  predicate Counted(db: Db, rackId: int) {
    rackId in db.racks && db.racks[rackId].status != RackDisabled
    && db.racks[rackId].room in db.rooms && db.rooms[db.racks[rackId].room].active
  }

  /** A count takes exactly the current assets that are expected in its scope: in a centre those
      expected there directly or in a counted rack, in a room those expected in its counted racks. */
  lemma ScopeIsWhereExpected(db: Db, scope: Scope, assetId: int)
    requires Inv(db) && assetId in db.assets
    ensures InScope(db, scope, assetId) <==>
            !db.assets[assetId].archived
            && match scope
               case AllAssets => true
               case WholeCentre(centre) =>
                 (match Expected(db, assetId)
                  case Mounted(rack, _, _, at) => at == centre && Counted(db, rack)
                  case AtCentre(at) => at == centre
                  case _ => false)
               case OneRoom(_, room) =>
                 (match Expected(db, assetId)
                  case Mounted(rack, _, at, _) => at == room && Counted(db, rack)
                  case _ => false)
  {}

  /** The scope's centre and room are in use and belong together. */
  predicate Offered(db: Db, scope: Scope) {
    match scope
    case AllAssets => true
    case WholeCentre(centre) => centre in db.centres && db.centres[centre]
    case OneRoom(centre, room) =>
      centre in db.centres && db.centres[centre] && room in db.rooms && db.rooms[room].active
      && db.rooms[room].centre == centre
  }

  /** The task of the scope, and one pending item with the present location for each member. */
  ghost predicate Listed(db: Db, after: Db, taskId: int, scope: Scope) {
    && after == db.(tasks := db.tasks[taskId := Task(false, if scope.AllAssets? then None else Some(scope.centre),
                                                     if scope.OneRoom? then Some(scope.room) else None)],
                    items := after.items)
    && (forall k :: k in after.items <==> k in db.items || (k.task == taskId && InScope(db, scope, k.asset)))
    && (forall k :: k in after.items && k.task == taskId && InScope(db, scope, k.asset) ==>
          after.items[k] == Item(Expected(db, k.asset), Pending, Unclear, NotRequired, None))
    && (forall k :: k in db.items ==> after.items[k] == db.items[k])
  }

  /** A count is made of 1 to 5000 assets of an offered scope, and has an item for each of them and
      nothing else. */
  lemma TaskCreated(db: Db, taskId: int, scope: Scope)
    requires Inv(db)
    ensures var outcome := CreateTask(db, taskId, scope);
            var members := set a | a in db.assets && InScope(db, scope, a);
            && (outcome.Committed? <==> taskId !in db.tasks && Offered(db, scope) && 1 <= |members| <= 5000)
            && (outcome.Committed? ==> Listed(db, outcome.db, taskId, scope))
  {
    var members := set a | a in db.assets && InScope(db, scope, a);
    assert members == ScopeAssets(db, scope);
    if CreateTask(db, taskId, scope).Committed? {
      NoItemsYet(db, taskId);
      ListedItems(db, taskId, scope);
    }
  }

  lemma NoItemsYet(db: Db, taskId: int)
    requires References(db) && taskId !in db.tasks
    ensures forall k :: k in db.items ==> k.task != taskId
  {}

  lemma ListedItems(db: Db, taskId: int, scope: Scope)
    requires CreateTask(db, taskId, scope).Committed? && forall k :: k in db.items ==> k.task != taskId
    ensures Listed(db, CreateTask(db, taskId, scope).db, taskId, scope)
  {
    TaskItemsAre(db, taskId, ScopeAssets(db, scope));
  }

  // ---------- observations ----------

  /** The item can be counted: its task runs and its asset is not archived. */
  predicate Running(db: Db, key: ItemKey) {
    && key in db.items && key.task in db.tasks && !db.tasks[key.task].completed
    && key.asset in db.assets && !db.assets[key.asset].archived
  }

  /** The reported place exists and is in use. */
  predicate PlaceExists(db: Db, report: Reported) {
    match report
    case InRack(rack, span) =>
      Counted(db, rack) && db.rooms[db.racks[rack].room].centre in db.centres
      && db.centres[db.rooms[db.racks[rack].room].centre] && 1 <= span.startU <= span.endU <= db.racks[rack].totalU
    case InCentre(centre) => centre in db.centres && db.centres[centre]
    case _ => true
  }

  /** The same place in every column that is recorded. */
  predicate SamePlaceSeen(a: Sighting, b: Sighting) {
    a == b || (a.Mounted? && b.Mounted? && a.rack == b.rack && a.span == b.span && a.centre == b.centre)
  }

  /** The sighting is the report, with the centre that the rack has now; its room is the present one
      unless the same result at the same place was recorded before, which keeps the room of then. */
  predicate SeenAs(db: Db, report: Reported, before: Sighting, sameStatus: bool, seen: Sighting) {
    match report
    case NotStated => seen == Unclear
    case InCentre(centre) => seen == AtCentre(centre)
    case Nowhere => seen == Unlocated
    case InRack(rack, span) =>
      && seen.Mounted? && seen.rack == rack && seen.span == span
      && rack in db.racks && db.racks[rack].room in db.rooms && seen.centre == db.rooms[db.racks[rack].room].centre
      && seen.room == (if sameStatus && before.Mounted? && SamePlaceSeen(before, seen) then before.room
                       else db.racks[rack].room)
  }

  /** The report that was submitted, or the one that the record stands for. */
  predicate Reports(item: Item, where: Option<Reported>, report: Reported) {
    if where.Some? then report == where.value
    else match item.seen
         case Unclear => report == NotStated
         case Mounted(rack, span, _, _) => report == InRack(rack, span)
         case AtCentre(centre) => report == InCentre(centre)
         case Unlocated => report == Nowhere
  }

  lemma SomeReport(item: Item, where: Option<Reported>) returns (report: Reported)
    ensures Reports(item, where, report)
    ensures report == (if where.Some? then where.value else Restated(item.seen))
  {
    report := if where.Some? then where.value else Restated(item.seen);
  }

  /** The recorded row: the submitted result, the reported place, and a resolution that stays only
      if nothing of it changed. */
  ghost predicate Recorded(db: Db, item: Item, status: ItemStatus, report: Reported, notesChanged: bool, row: Item) {
    && row.expected == item.expected && row.status == status
    && (status == Pending || status == NotFound ==> row.seen == Unclear)
    && (status != Pending && status != NotFound ==> SeenAs(db, report, item.seen, status == item.status, row.seen))
    && (status == Pending ==> row.resolution == NotRequired && row.action == None)
    && (status != Pending && (status != item.status || notesChanged || !SamePlaceSeen(row.seen, item.seen)) ==>
          row.resolution == Unresolved && row.action == None)
    && (status != Pending && status == item.status && !notesChanged && SamePlaceSeen(row.seen, item.seen) ==>
          row.resolution == item.resolution && row.action == item.action)
  }

  /** Only one item changes. */
  ghost predicate OneItem(db: Db, after: Db, key: ItemKey) {
    key in db.items && key in after.items && after == db.(items := db.items[key := after.items[key]])
  }

  /** An observation is taken exactly for a running item and a place in use, if it names one. */
  lemma ObservationTaken(db: Db, key: ItemKey, submitted: Option<ItemStatus>, where: Option<Reported>,
                         notesChanged: bool)
    requires key in db.items
    ensures var outcome := Observe(db, key, submitted, where, notesChanged);
            var status := if submitted.Some? then submitted.value else db.items[key].status;
            && (status != Normal ==>
                 (outcome.Committed? <==>
                   Running(db, key)
                   && (status == Pending || status == NotFound
                       || exists report :: Reports(db.items[key], where, report) && PlaceExists(db, report))))
            && (status == Normal ==> outcome == ConfirmNormal(db, key, false))
  {
    var report := SomeReport(db.items[key], where);
    ReportIsIt(db.items[key], where, report);
    ExistsIsUsable(db, report);
  }

  lemma ReportIsIt(item: Item, where: Option<Reported>, report: Reported)
    requires Reports(item, where, report)
    ensures forall other :: Reports(item, where, other) ==> other == report
  {}

  lemma ExistsIsUsable(db: Db, report: Reported)
    ensures PlaceExists(db, report) == ReportUsable(db, report)
  {}

  /** It leaves its own item with the submitted result and the reported place. */
  lemma ObservationRecorded(db: Db, key: ItemKey, submitted: Option<ItemStatus>, where: Option<Reported>,
                            notesChanged: bool)
    requires Observe(db, key, submitted, where, notesChanged).Committed?
    ensures var after := Observe(db, key, submitted, where, notesChanged).db;
            && OneItem(db, after, key)
            && var status := if submitted.Some? then submitted.value else db.items[key].status;
               (status != Normal ==>
                  exists report :: Reports(db.items[key], where, report)
                    && Recorded(db, db.items[key], status, report, notesChanged, after.items[key]))
  {
    var report := SomeReport(db.items[key], where);
    var status := if submitted.Some? then submitted.value else db.items[key].status;
    if status != Normal {
      var seen := SeenNow(db, db.items[key], status, where).value;
      SeenIsReported(db, db.items[key], status, where, report);
      RowIsRecorded(db, db.items[key], status, report, notesChanged, seen);
    }
  }

  lemma SeenIsReported(db: Db, item: Item, status: ItemStatus, where: Option<Reported>, report: Reported)
    requires report == (if where.Some? then where.value else Restated(item.seen))
    requires SeenNow(db, item, status, where).Some?
    ensures var seen := SeenNow(db, item, status, where).value;
            && (status == Pending || status == NotFound ==> seen == Unclear)
            && (status != Pending && status != NotFound ==> SeenAs(db, report, item.seen, status == item.status, seen))
  {}

  lemma RowIsRecorded(db: Db, item: Item, status: ItemStatus, report: Reported, notesChanged: bool, seen: Sighting)
    requires status != Normal
    requires status == Pending || status == NotFound ==> seen == Unclear
    requires status != Pending && status != NotFound ==> SeenAs(db, report, item.seen, status == item.status, seen)
    ensures Recorded(db, item, status, report, notesChanged, Observed(item, status, seen, notesChanged))
  {}

  /** The place where the asset was expected is still there, in the same room and centre. */
  predicate StillThere(db: Db, expected: Sighting) {
    match expected
    case Mounted(rack, span, room, centre) =>
      PlaceExists(db, InRack(rack, span)) && db.racks[rack].room == room && db.rooms[room].centre == centre
    case AtCentre(centre) => centre in db.centres && db.centres[centre]
    case _ => true
  }

  /** A confirmation says that the asset is where it was expected. */
  lemma Confirmed(db: Db, key: ItemKey, requirePending: bool)
    ensures ConfirmNormal(db, key, requirePending) ==
            if Running(db, key) && (requirePending ==> db.items[key].status == Pending)
               && StillThere(db, db.items[key].expected)
            then Committed(db.(items := db.items[key :=
                Item(db.items[key].expected, Normal,
                     if db.items[key].expected == Unclear then Unlocated else db.items[key].expected,
                     NotRequired, None)]))
            else RolledBack
  {}

  // ---------- exceptions ----------

  /** The exception is open, the action fits its result, and ignoring it is explained. */
  predicate Settleable(db: Db, key: ItemKey, action: Action, noted: bool) {
    && key in db.items && key.asset in db.assets && !db.assets[key.asset].archived
    && db.items[key].resolution == Unresolved
    && (action == ConfirmMissing ==> db.items[key].status == NotFound)
    && (action == Action.UpdateAsset ==> db.items[key].status == LocationMismatch)
    && (action == Ignore ==> noted)
  }

  /** A resolution marks its item as resolved by the action. Only an update of the asset touches the
      ledger, which then agrees with the sighting. */
  lemma ExceptionResolved(db: Db, key: ItemKey, action: Action, noted: bool)
    requires Inv(db)
    ensures var outcome := Inventory.Resolve(db, key, action, noted);
            && (outcome.Committed? <==>
                 Settleable(db, key, action, noted)
                 && (action == Action.UpdateAsset ==> Correct(db, key.asset, db.items[key].seen).Committed?))
            && (outcome.Committed? ==>
                 outcome.db.items == db.items[key := db.items[key].(resolution := Resolved, action := Some(action))]
                 && (action != Action.UpdateAsset ==> outcome.db == db.(items := outcome.db.items))
                 && (action == Action.UpdateAsset ==>
                      key.asset in outcome.db.assets && Expected(outcome.db, key.asset) == db.items[key].seen))
  {
    if key in db.items {
      UnresolvedIsException(db, key);
      ResolveIs(db, key, action, noted);
      if action == Action.UpdateAsset && Correct(db, key.asset, db.items[key].seen).Committed? {
        CorrectedAgrees(db, key, db.items[key].(resolution := Resolved, action := Some(action)));
      }
    }
  }

  lemma CorrectedAgrees(db: Db, key: ItemKey, row: Item)
    requires RetirementFinal(db.assets, db.allocations, db.disposals)
    requires key in db.items && Correct(db, key.asset, db.items[key].seen).Committed?
    ensures var after := Correct(db, key.asset, db.items[key].seen).db.(items := db.items[key := row]);
            key.asset in after.assets && Expected(after, key.asset) == db.items[key].seen
  {
    CorrectionMatchesSighting(db, key.asset, db.items[key].seen);
    ExpectedIgnoresItems(Correct(db, key.asset, db.items[key].seen).db, db.items[key := row], key.asset);
  }

  lemma ExpectedIgnoresItems(db: Db, items: map<ItemKey, Item>, assetId: int)
    requires assetId in db.assets
    ensures Expected(db.(items := items), assetId) == Expected(db, assetId)
  {}

  /** The resolved item on top of the corrected ledger, or of the ledger as it is. */
  lemma ResolveIs(db: Db, key: ItemKey, action: Action, noted: bool)
    requires key in db.items && (db.items[key].resolution == Unresolved ==>
               db.items[key].status != Pending && db.items[key].status != Normal)
    ensures var outcome := Inventory.Resolve(db, key, action, noted);
            var ledger := if action == Action.UpdateAsset then Correct(db, key.asset, db.items[key].seen)
                else Committed(db);
            && (outcome.Committed? <==> Settleable(db, key, action, noted) && ledger.Committed?)
            && (outcome.Committed? ==>
                 outcome.db == ledger.db.(items := db.items[key := db.items[key].(resolution := Resolved,
                                                                                  action := Some(action))]))
  {}

  lemma UnresolvedIsException(db: Db, key: ItemKey)
    requires Inv(db) && key in db.items
    ensures db.items[key].resolution == Unresolved ==> db.items[key].status != Pending && db.items[key].status != Normal
  {
    assert ItemConsistent(db.items[key]);
  }

  /** A correction is made for a sighting in a rack that is still in its room and centre, where the
      placement itself is possible, and for any other clear sighting in an active centre or none. */
  lemma CorrectionIff(db: Db, assetId: int, seen: Sighting)
    ensures Correct(db, assetId, seen).Committed? <==>
            match seen
            case Unclear => false
            case Mounted(rack, span, room, centre) =>
              rack in db.racks && room in db.rooms && db.racks[rack].room == room && db.rooms[room].centre == centre
              && Place(db, assetId, rack, span).Committed?
            case AtCentre(centre) =>
              assetId in db.assets && !db.assets[assetId].archived && centre in db.centres && db.centres[centre]
            case Unlocated => assetId in db.assets && !db.assets[assetId].archived
  {}

  // ---------- the life of a count ----------

  /** The room of the count is still in its centre. */
  predicate InPlace(db: Db, taskId: int)
    requires taskId in db.tasks
  {
    var task := db.tasks[taskId];
    task.room.Some? ==> task.room.value in db.rooms && task.centre == Some(db.rooms[task.room.value].centre)
  }

  /** A count is completed when nothing in it is pending, reopened when none of its assets is
      archived, and deleted while nothing in it was touched. */
  lemma TaskLife(db: Db, taskId: int)
    requires Inv(db) && taskId in db.tasks
    ensures CompleteTask(db, taskId) ==
            if InPlace(db, taskId)
               && (forall k :: k in db.items && k.task == taskId ==> db.items[k].status != Pending)
            then Committed(db.(tasks := db.tasks[taskId := db.tasks[taskId].(completed := true)])) else RolledBack
    ensures ReopenTask(db, taskId) ==
            if InPlace(db, taskId) && db.tasks[taskId].completed
               && (forall k :: k in db.items && k.task == taskId ==> !db.assets[k.asset].archived)
            then Committed(db.(tasks := db.tasks[taskId := db.tasks[taskId].(completed := false)])) else RolledBack
  {
    assert db.tasks[taskId].completed ==>
        db.tasks[taskId := db.tasks[taskId].(completed := true)] == db.tasks;
    assert CountsArchived(db, taskId) <==>
      !(forall k :: k in db.items && k.task == taskId ==> !db.assets[k.asset].archived);
  }

  lemma TaskDeleted(db: Db, taskId: int)
    requires Inv(db) && taskId in db.tasks
    ensures var outcome := DeleteTask(db, taskId);
            && (outcome.Committed? <==>
                 InPlace(db, taskId) && !db.tasks[taskId].completed
                 && forall k :: k in db.items && k.task == taskId ==> db.items[k].status == Pending)
            && (outcome.Committed? ==>
                 outcome.db == db.(tasks := db.tasks - {taskId}, items := outcome.db.items)
                 && (forall k :: k in outcome.db.items <==> k in db.items && k.task != taskId)
                 && (forall k :: k in outcome.db.items ==> outcome.db.items[k] == db.items[k]))
  {
    forall k | k in db.items && k.task == taskId && db.items[k].status == Pending
      ensures db.items[k].resolution != Resolved && db.items[k].action == None
    {
      assert ItemConsistent(db.items[k]);
    }
  }

  // ---------- batches ----------

  /** An admitted row of a batch is the single call, so a batch never leaves out a correction of the
      ledger, and all its writes are in one count. */
  lemma BatchRowIsSingleCall(db: Db, keys: seq<ItemKey>, bulk: Option<Action>, noted: bool, key: ItemKey)
    requires BatchAdmissible(db.items, keys, bulk, noted) && key in keys
    ensures bulk == None ==> RowAlone(db, key, bulk, noted) == ConfirmNormal(db, key, true)
    ensures bulk.Some? ==> RowAlone(db, key, bulk, noted) == Inventory.Resolve(db, key, bulk.value, noted)
    ensures forall other :: other in keys && key in db.items && other in db.items ==> other.task == key.task
  {}

  /** A batch is refused as a whole exactly for one of these three reasons. */
  lemma BatchAdmittedIff(items: map<ItemKey, Item>, keys: seq<ItemKey>, bulk: Option<Action>, noted: bool)
    ensures BatchAdmissible(items, keys, bulk, noted) <==>
            && bulk != Some(Action.UpdateAsset)
            && !(bulk == Some(Ignore) && !noted)
            && !(exists i, j :: 0 <= i < |keys| && 0 <= j < |keys| && keys[i] in items && keys[j] in items
                   && keys[i].task != keys[j].task)
  {}
}
