/** The tables that the ledger's write services share, and what must always hold of them.

    Table rows follow backend/assets/models.py; a service is one transaction that either
    commits all its writes or leaves the tables as they were.
 */
module Records {
  import opened RackRanges

  // ---------- rows ----------

  datatype AssetStatus = InStock | InUse | Idle | Repair | Retired

  datatype Asset = Asset(status: AssetStatus, beforeRepair: Option<AssetStatus>, person: Option<int>,
                         archived: bool, centre: Option<int>)

  /** Names and codes stand for what the forms compare them by, letter case aside. */
  datatype Room = Room(centre: int, name: int, active: bool)

  datatype RackStatus = RackInUse | RackReserved | RackDisabled

  datatype Rack = Rack(room: int, code: int, totalU: int, status: RackStatus)

  datatype Allocation = Allocation(rack: int, span: Span)

  datatype UnitHold = UnitHold(rack: int, hold: Hold, consumedBy: Option<int>)

  datatype Fault = Fault(asset: int, occurredAt: int, reportedAt: Option<int>, closed: bool, resolvedAt: Option<int>,
                         pinned: bool)

  datatype Origin = Recorded | UsageStarted

  /** One repair round; `pinned` when part usages or attachments refer to it. */
  datatype Round = Round(fault: int, number: int, previous: Option<int>, origin: Origin,
                         startedAt: Option<int>, finishedAt: Option<int>, pinned: bool)

  /** A counting task keeps the centre and room of its scope. */
  datatype Task = Task(completed: bool, centre: Option<int>, room: Option<int>)

  datatype ItemStatus = Pending | Normal | LocationMismatch | NotFound | InfoMismatch | Other

  datatype Resolution = NotRequired | Unresolved | Resolved

  datatype Action = UpdateAsset | KeepAsset | ConfirmMissing | Ignore

  /** Where an asset was expected or seen; the room and centre are those of that moment. */
  datatype Sighting =
    | Unclear
    | Mounted(rack: int, span: Span, room: int, centre: int)
    | AtCentre(centreOnly: int)
    | Unlocated

  datatype Item = Item(expected: Sighting, status: ItemStatus, seen: Sighting, resolution: Resolution,
                       action: Option<Action>)

  datatype ItemKey = ItemKey(task: int, asset: int)

  datatype Db = Db(
    centres: map<int, bool>,
    rooms: map<int, Room>,
    racks: map<int, Rack>,
    assets: map<int, Asset>,
    allocations: map<int, Allocation>,
    holds: map<int, UnitHold>,
    faults: map<int, Fault>,
    rounds: map<int, Round>,
    disposals: map<int, int>,
    tasks: map<int, Task>,
    items: map<ItemKey, Item>)

  const EMPTY := Db(map[], map[], map[], map[], map[], map[], map[], map[], map[], map[], map[])

  /** The outcome of one service call: the committed tables, or a rollback. */
  datatype Outcome = Committed(db: Db) | RolledBack

  function After(before: Db, outcome: Outcome): Db {
    match outcome
    case Committed(db) => db
    case RolledBack => before
  }

  /** The database as the services see it. */
  class Store {
    var centres: map<int, bool>
    var rooms: map<int, Room>
    var racks: map<int, Rack>
    var assets: map<int, Asset>
    var allocations: map<int, Allocation>
    var holds: map<int, UnitHold>
    var faults: map<int, Fault>
    var rounds: map<int, Round>
    var disposals: map<int, int>
    var tasks: map<int, Task>
    var items: map<ItemKey, Item>

    constructor ()
      ensures View() == EMPTY
    {
      centres, rooms, racks, assets, allocations, holds := map[], map[], map[], map[], map[], map[];
      faults, rounds, disposals, tasks, items := map[], map[], map[], map[], map[];
    }

    function View(): Db
      reads this
    {
      Db(centres, rooms, racks, assets, allocations, holds, faults, rounds, disposals, tasks, items)
    }

    /** The rollback of `transaction.atomic`. */
    method Restore(saved: Db)
      modifies this
      ensures View() == saved
    {
      centres, rooms, racks, assets := saved.centres, saved.rooms, saved.racks, saved.assets;
      allocations, holds, faults, rounds := saved.allocations, saved.holds, saved.faults, saved.rounds;
      disposals, tasks, items := saved.disposals, saved.tasks, saved.items;
    }
  }

  // ---------- facts read off the tables ----------

  predicate Restorable(status: AssetStatus) {
    status != Repair && status != Retired
  }

  predicate HasOpenFault(faults: map<int, Fault>, assetId: int) {
    exists f :: f in faults && faults[f].asset == assetId && !faults[f].closed
  }

  predicate HasUnfinishedRound(faults: map<int, Fault>, rounds: map<int, Round>, assetId: int) {
    exists r :: r in rounds && rounds[r].finishedAt == None && rounds[r].fault in faults
        && faults[rounds[r].fault].asset == assetId
  }

  predicate HasRounds(rounds: map<int, Round>, faultId: int) {
    exists r :: r in rounds && rounds[r].fault == faultId
  }

  /** The latest retained round is the current one. */
  predicate IsCurrentRound(rounds: map<int, Round>, roundId: int) {
    && roundId in rounds
    && forall r ::
         r in rounds && rounds[r].fault == rounds[roundId].fault ==> rounds[r].number <= rounds[roundId].number
  }

  // ---------- the invariants ----------

  ghost predicate References(db: Db) {
    && (forall r :: r in db.rooms ==> db.rooms[r].centre in db.centres)
    && (forall r :: r in db.racks ==> db.racks[r].room in db.rooms && 1 <= db.racks[r].totalU)
    && (forall a :: a in db.allocations ==> a in db.assets && db.allocations[a].rack in db.racks)
    && (forall h :: h in db.holds ==> db.holds[h].rack in db.racks)
    && (forall f :: f in db.faults ==> db.faults[f].asset in db.assets)
    && (forall r :: r in db.rounds ==> db.rounds[r].fault in db.faults)
    && (forall d :: d in db.disposals ==> db.disposals[d] in db.assets)
    && (forall k :: k in db.items ==> k.task in db.tasks && k.asset in db.assets)
  }

  predicate NamesClash(rooms: map<int, Room>, r: int, q: int) {
    r in rooms && q in rooms && r != q && rooms[r].centre == rooms[q].centre && rooms[r].name == rooms[q].name
  }

  predicate CodesClash(racks: map<int, Rack>, r: int, q: int) {
    r in racks && q in racks && r != q && racks[r].room == racks[q].room && racks[r].code == racks[q].code
  }

  /** Room names are unique in their centre and rack codes in their room. */
  ghost predicate NamesUnique(rooms: map<int, Room>, racks: map<int, Rack>) {
    && (forall r, q :: !NamesClash(rooms, r, q))
    && (forall r, q :: !CodesClash(racks, r, q))
  }

  predicate ActiveHold(holds: map<int, UnitHold>, h: int) {
    h in holds && holds[h].hold.status == Active
  }

  /** Allocations and active holds of a rack: inside 1..total_u and pairwise disjoint. */
  ghost predicate Geometry(racks: map<int, Rack>, allocations: map<int, Allocation>, holds: map<int, UnitHold>) {
    && (forall a :: a in allocations && allocations[a].rack in racks ==>
          InRange(allocations[a].span, racks[allocations[a].rack].totalU))
    && (forall h :: ActiveHold(holds, h) && holds[h].rack in racks ==>
          InRange(holds[h].hold.span, racks[holds[h].rack].totalU))
    && (forall a, b :: a in allocations && b in allocations && a != b && allocations[a].rack == allocations[b].rack ==>
          !allocations[a].span.Overlaps(allocations[b].span))
    && (forall a, h :: a in allocations && ActiveHold(holds, h) && allocations[a].rack == holds[h].rack ==>
          !allocations[a].span.Overlaps(holds[h].hold.span))
    && (forall g, h :: ActiveHold(holds, g) && ActiveHold(holds, h) && g != h && holds[g].rack == holds[h].rack ==>
          !holds[g].hold.span.Overlaps(holds[h].hold.span))
  }

  /** The direct centre copy of a mounted asset is the centre of its rack's room. */
  ghost predicate CentresSynced(rooms: map<int, Room>, racks: map<int, Rack>, assets: map<int, Asset>,
                                allocations: map<int, Allocation>) {
    forall a ::
      a in allocations && a in assets && allocations[a].rack in racks && racks[allocations[a].rack].room in rooms ==>
      assets[a].centre == Some(rooms[racks[allocations[a].rack].room].centre)
  }

  /** Open fault, status `repair` and a saved status come and go together. */
  ghost predicate FaultStatusSynced(assets: map<int, Asset>, faults: map<int, Fault>) {
    forall a :: a in assets ==>
      && (HasOpenFault(faults, a) <==> assets[a].status == Repair)
      && (assets[a].status == Repair <==> assets[a].beforeRepair.Some?)
      && (assets[a].beforeRepair.Some? ==> Restorable(assets[a].beforeRepair.value))
  }

  predicate NotBefore(time: Option<int>, floor: int) {
    time.Some? ==> floor <= time.value
  }

  ghost predicate RoundWellFormed(faults: map<int, Fault>, rounds: map<int, Round>, r: int)
    requires r in rounds
  {
    var round := rounds[r];
    && round.fault in faults
    && round.number >= 1
    && NotBefore(round.startedAt, faults[round.fault].occurredAt)
    && NotBefore(round.finishedAt, faults[round.fault].occurredAt)
    && (round.startedAt.Some? ==> NotBefore(round.finishedAt, round.startedAt.value))
    && (round.finishedAt.Some? ==> round.origin == Recorded)
    && match round.previous
       case None => round.number == 1
       case Some(p) =>
         && p in rounds
         && rounds[p].fault == round.fault
         && round.number == rounds[p].number + 1
         && rounds[p].finishedAt.Some?
         && NotBefore(round.startedAt, rounds[p].finishedAt.value)
         && NotBefore(round.finishedAt, rounds[p].finishedAt.value)
  }

  ghost predicate AllRoundsWellFormed(faults: map<int, Fault>, rounds: map<int, Round>) {
    forall r :: r in rounds ==> RoundWellFormed(faults, rounds, r)
  }

  ghost predicate NumbersDistinct(rounds: map<int, Round>) {
    forall r, q :: r in rounds && q in rounds && r != q && rounds[r].fault == rounds[q].fault ==>
      rounds[r].number != rounds[q].number
  }

  ghost predicate UnfinishedIsCurrent(rounds: map<int, Round>) {
    forall r :: r in rounds && rounds[r].finishedAt == None ==> IsCurrentRound(rounds, r)
  }

  /** A fault is closed exactly when it has a resolution time, and none without a round. */
  ghost predicate ClosureTimed(faults: map<int, Fault>, rounds: map<int, Round>) {
    && (forall f :: f in faults ==> faults[f].closed == faults[f].resolvedAt.Some?)
    && (forall f :: f in faults && !HasRounds(rounds, f) ==> faults[f].resolvedAt == None)
  }

  ghost predicate ClosureIsCompletion(faults: map<int, Fault>, rounds: map<int, Round>) {
    forall r :: IsCurrentRound(rounds, r) && rounds[r].fault in faults ==>
      faults[rounds[r].fault].resolvedAt == rounds[r].finishedAt
  }

  /** Rounds of a fault: one per number, each linked to its finished predecessor, and only
      the latest may be unfinished; the fault's closure is the completion of the latest. */
  ghost predicate RoundsLinked(faults: map<int, Fault>, rounds: map<int, Round>) {
    && AllRoundsWellFormed(faults, rounds)
    && NumbersDistinct(rounds)
    && UnfinishedIsCurrent(rounds)
    && ClosureTimed(faults, rounds)
    && ClosureIsCompletion(faults, rounds)
  }

  /** A retired asset has nobody, no rack position and exactly one disposal record. */
  ghost predicate RetirementFinal(assets: map<int, Asset>, allocations: map<int, Allocation>,
                                  disposals: map<int, int>) {
    && (forall a :: a in assets && assets[a].status == Retired ==> assets[a].person == None && a !in allocations)
    && (forall a :: a in assets && assets[a].status == Retired ==> exists d :: d in disposals && disposals[d] == a)
    && (forall d :: d in disposals && disposals[d] in assets ==> assets[disposals[d]].status == Retired)
    && (forall d, e :: d in disposals && e in disposals && disposals[d] == disposals[e] ==> d == e)
  }

  /** An archived asset is used, mounted, broken or being counted nowhere. */
  ghost predicate ArchivedIdle(assets: map<int, Asset>, allocations: map<int, Allocation>, tasks: map<int, Task>,
                               items: map<ItemKey, Item>) {
    && (forall a ::
         a in assets && assets[a].archived ==>
           assets[a].person == None && a !in allocations && assets[a].status != Repair)
    && (forall k ::
         k in items && k.asset in assets && assets[k.asset].archived && k.task in tasks ==> tasks[k.task].completed)
  }

  predicate ActionFits(action: Action, status: ItemStatus) {
    && (action == ConfirmMissing ==> status == NotFound)
    && (action == UpdateAsset ==> status == LocationMismatch)
  }

  ghost predicate ItemConsistent(item: Item) {
    && (item.resolution == NotRequired <==> item.status == Pending || item.status == Normal)
    && (item.resolution == Resolved <==> item.action.Some?)
    && (item.action.Some? ==> ActionFits(item.action.value, item.status))
  }

  ghost predicate CountsConsistent(tasks: map<int, Task>, items: map<ItemKey, Item>) {
    && (forall k :: k in items && k.task in tasks && tasks[k.task].completed ==> items[k].status != Pending)
    && (forall k :: k in items ==> ItemConsistent(items[k]))
  }

  /** The room of a task's scope is in the centre that the task was made for. */
  predicate ScopeStands(rooms: map<int, Room>, task: Task) {
    task.room.Some? ==> task.room.value in rooms && task.centre == Some(rooms[task.room.value].centre)
  }

  /** A room that is being counted stays in its centre. */
  ghost predicate CountsInPlace(rooms: map<int, Room>, tasks: map<int, Task>) {
    forall t :: t in tasks && !tasks[t].completed ==> ScopeStands(rooms, tasks[t])
  }

  ghost predicate Inv(db: Db) {
    && References(db)
    && NamesUnique(db.rooms, db.racks)
    && Geometry(db.racks, db.allocations, db.holds)
    && CentresSynced(db.rooms, db.racks, db.assets, db.allocations)
    && FaultStatusSynced(db.assets, db.faults)
    && RoundsLinked(db.faults, db.rounds)
    && RetirementFinal(db.assets, db.allocations, db.disposals)
    && ArchivedIdle(db.assets, db.allocations, db.tasks, db.items)
    && CountsConsistent(db.tasks, db.items)
    && CountsInPlace(db.rooms, db.tasks)
  }
}
