/** A capacity plan over several racks.

    Models the loop of `capacity_plan` (backend/assets/views.py:1348-1371): the racks are planned
    one after the other, each for the quantity that is still left, and the answer adds up their
    capacities. Its meaning in the ledger rests on one fact: placements in different racks do not
    affect each other, in whatever order they are made.
 */
module BatchPlanning {
  import opened RackRanges
  import opened RackPlanning
  import opened Records
  import opened Placement
  import opened LedgerPlanning

  /** One placement of a batch. */
  datatype Write = Write(rack: int, device: Device)

  /** The placements of a batch in one rack, in their order. */
  function Of(writes: seq<Write>, rackId: int): seq<Device>
    decreases |writes|
  {
    if writes == [] then []
    else (if writes[0].rack == rackId then [writes[0].device] else []) + Of(writes[1..], rackId)
  }

  /** All placements in order, or none. */
  ghost function PlaceEach(db: Db, writes: seq<Write>): Outcome
    decreases |writes|
  {
    if writes == [] then Committed(db)
    else match Place(db, writes[0].device.assetId, writes[0].rack, writes[0].device.span)
         case RolledBack => RolledBack
         case Committed(db') => PlaceEach(db', writes[1..])
  }

  /** An asset that may be mounted and is in none of the racks. */
  ghost predicate NewTo(db: Db, racks: set<int>, assetId: int) {
    && assetId in db.assets && !db.assets[assetId].archived && db.assets[assetId].status != Retired
    && (assetId in db.allocations ==> db.allocations[assetId].rack !in racks)
  }

  ghost predicate IsBatch(db: Db, racks: set<int>, writes: seq<Write>) {
    && (forall k :: 0 <= k < |writes| ==> writes[k].rack in racks && NewTo(db, racks, writes[k].device.assetId))
    && (forall j, k :: 0 <= j < k < |writes| ==> writes[j].device.assetId != writes[k].device.assetId)
  }

  predicate Uniform(height: int, writes: seq<Write>) {
    forall k :: 0 <= k < |writes| ==> writes[k].device.span.endU - writes[k].device.span.startU + 1 == height
  }

  // ---------- racks are independent ----------

  /** Both tables say the same about the rack and the rooms. */
  ghost predicate SameRack(db: Db, db': Db, rackId: int) {
    && db'.racks == db.racks && db'.rooms == db.rooms && db'.centres == db.centres && db'.holds == db.holds
    && (forall a ::
         (a in db.allocations && db.allocations[a].rack == rackId) <==>
         (a in db'.allocations && db'.allocations[a].rack == rackId))
    && (forall a :: a in db.allocations && db.allocations[a].rack == rackId ==> db'.allocations[a] == db.allocations[a])
  }

  ghost predicate AllNew(db: Db, rackId: int, devices: seq<Device>) {
    && (forall k :: 0 <= k < |devices| ==> Newcomer(db, rackId, devices[k].assetId))
    && (forall j, k :: 0 <= j < k < |devices| ==> devices[j].assetId != devices[k].assetId)
  }

  lemma SameCells(db: Db, db': Db, rackId: int, assetId: int, u: int)
    requires SameRack(db, db', rackId)
    ensures Taken(db', rackId, Some(assetId), u) <==> Taken(db, rackId, Some(assetId), u)
  {}

  lemma SamePlacement(db: Db, db': Db, rackId: int, assetId: int, span: Span)
    requires SameRack(db, db', rackId) && Newcomer(db, rackId, assetId) && Newcomer(db', rackId, assetId)
    ensures Place(db, assetId, rackId, span).Committed? <==> Place(db', assetId, rackId, span).Committed?
  {
    forall u ensures Taken(db', rackId, Some(assetId), u) <==> Taken(db, rackId, Some(assetId), u) {
      SameCells(db, db', rackId, assetId, u);
    }
    assert CellsFree(db, rackId, Some(assetId), span) == CellsFree(db', rackId, Some(assetId), span);
    assert Squeezed(db, rackId, Some(assetId), span) == Squeezed(db', rackId, Some(assetId), span);
  }

  /** What a committed placement of a newcomer leaves. */
  lemma NewcomerMounted(db: Db, rackId: int, assetId: int, span: Span)
    requires Newcomer(db, rackId, assetId) && Place(db, assetId, rackId, span).Committed?
    ensures rackId in db.racks && db.racks[rackId].room in db.rooms
    ensures Place(db, assetId, rackId, span).db == Mount(db, assetId, rackId, span)
  {}

  lemma SameAfterMount(db: Db, db': Db, rackId: int, assetId: int, span: Span)
    requires SameRack(db, db', rackId) && assetId in db.assets && assetId in db'.assets
    requires rackId in db.racks && db.racks[rackId].room in db.rooms
    ensures SameRack(Mount(db, assetId, rackId, span), Mount(db', assetId, rackId, span), rackId)
  {}

  lemma StillNew(db: Db, rackId: int, devices: seq<Device>)
    requires devices != [] && AllNew(db, rackId, devices) && rackId in db.racks && db.racks[rackId].room in db.rooms
    ensures AllNew(Mount(db, devices[0].assetId, rackId, devices[0].span), rackId, devices[1..])
  {}

  /** Placements in a rack depend on that rack's rows only. */
  lemma {:induction false} SamePlacements(db: Db, db': Db, rackId: int, devices: seq<Device>)
    requires SameRack(db, db', rackId) && AllNew(db, rackId, devices) && AllNew(db', rackId, devices)
    ensures PlaceAll(db, rackId, devices).Committed? <==> PlaceAll(db', rackId, devices).Committed?
    decreases |devices|
  {
    if devices != [] {
      var first := devices[0];
      SamePlacement(db, db', rackId, first.assetId, first.span);
      if Place(db, first.assetId, rackId, first.span).Committed? {
        NewcomerMounted(db, rackId, first.assetId, first.span);
        NewcomerMounted(db', rackId, first.assetId, first.span);
        SameAfterMount(db, db', rackId, first.assetId, first.span);
        StillNew(db, rackId, devices);
        StillNew(db', rackId, devices);
        SamePlacements(Mount(db, first.assetId, rackId, first.span), Mount(db', first.assetId, rackId, first.span),
                       rackId, devices[1..]);
      }
    }
  }

  lemma {:induction false} OfMembers(writes: seq<Write>, rackId: int, device: Device)
    ensures device in Of(writes, rackId) <==> Write(rackId, device) in writes
    decreases |writes|
  {
    if writes != [] {
      OfMembers(writes[1..], rackId, device);
      assert writes == [writes[0]] + writes[1..];
    }
  }

  lemma {:induction false} OfNew(db: Db, racks: set<int>, writes: seq<Write>, rackId: int)
    requires IsBatch(db, racks, writes) && rackId in racks
    ensures AllNew(db, rackId, Of(writes, rackId))
    decreases |writes|
  {
    if writes != [] {
      OfNew(db, racks, writes[1..], rackId);
      if writes[0].rack == rackId {
        forall d | d in Of(writes[1..], rackId) ensures d.assetId != writes[0].device.assetId {
          OfMembers(writes[1..], rackId, d);
          var k :| 0 <= k < |writes[1..]| && writes[1..][k] == Write(rackId, d);
          assert writes[k + 1] == Write(rackId, d);
        }
      }
    }
  }

  lemma MountedBatch(db: Db, racks: set<int>, writes: seq<Write>)
    requires writes != [] && IsBatch(db, racks, writes)
    requires writes[0].rack in db.racks && db.racks[writes[0].rack].room in db.rooms
    ensures IsBatch(Mount(db, writes[0].device.assetId, writes[0].rack, writes[0].device.span), racks, writes[1..])
  {}

  lemma MountElsewhere(db: Db, racks: set<int>, rackId: int, assetId: int, target: int, span: Span)
    requires NewTo(db, racks, assetId) && rackId in racks && target != rackId
    requires target in db.racks && db.racks[target].room in db.rooms
    ensures SameRack(db, Mount(db, assetId, target, span), rackId)
  {}

  /** The first placement of a batch and the rest of it, seen from one rack. */
  lemma OneRackStep(db: Db, racks: set<int>, writes: seq<Write>, rackId: int)
    requires writes != [] && IsBatch(db, racks, writes) && rackId in racks
    requires Place(db, writes[0].device.assetId, writes[0].rack, writes[0].device.span).Committed?
    ensures var db' := Place(db, writes[0].device.assetId, writes[0].rack, writes[0].device.span).db;
            PlaceAll(db, rackId, Of(writes, rackId)).Committed? <==>
            PlaceAll(db', rackId, Of(writes[1..], rackId)).Committed?
  {
    var first, rest := writes[0], writes[1..];
    NewcomerMounted(db, first.rack, first.device.assetId, first.device.span);
    if first.rack == rackId {
      assert Of(writes, rackId)[0] == first.device && Of(writes, rackId)[1..] == Of(rest, rackId);
    } else {
      var db' := Mount(db, first.device.assetId, first.rack, first.device.span);
      assert Of(writes, rackId) == Of(rest, rackId);
      MountElsewhere(db, racks, rackId, first.device.assetId, first.rack, first.device.span);
      MountedBatch(db, racks, writes);
      assert IsBatch(db, racks, rest);
      OfNew(db, racks, rest, rackId);
      OfNew(db', racks, rest, rackId);
      SamePlacements(db, db', rackId, Of(rest, rackId));
    }
  }

  /** A batch over several racks commits, in whatever order its placements are made, if and only
      if the placements in each single rack commit on their own. */
  lemma {:induction false} RacksAreIndependent(db: Db, racks: set<int>, writes: seq<Write>)
    requires IsBatch(db, racks, writes)
    ensures PlaceEach(db, writes).Committed? <==> forall r :: r in racks ==> PlaceAll(db, r, Of(writes, r)).Committed?
    decreases |writes|
  {
    if writes != [] {
      var first := writes[0];
      var placed := Place(db, first.device.assetId, first.rack, first.device.span);
      if placed.Committed? {
        NewcomerMounted(db, first.rack, first.device.assetId, first.device.span);
        MountedBatch(db, racks, writes);
        RacksAreIndependent(placed.db, racks, writes[1..]);
        forall r | r in racks
          ensures PlaceAll(db, r, Of(writes, r)).Committed? <==> PlaceAll(placed.db, r, Of(writes[1..], r)).Committed?
        {
          OneRackStep(db, racks, writes, r);
        }
      } else {
        assert Of(writes, first.rack)[0] == first.device;
        assert PlaceAll(db, first.rack, Of(writes, first.rack)) == RolledBack;
      }
    }
  }

  // ---------- counting ----------

  predicate Distinct(rackIds: seq<int>) {
    forall i, j :: 0 <= i < j < |rackIds| ==> rackIds[i] != rackIds[j]
  }

  /** How many placements the racks get together. */
  function CountIn(rackIds: seq<int>, writes: seq<Write>): nat {
    if rackIds == [] then 0 else CountIn(rackIds[..|rackIds| - 1], writes) + |Of(writes, rackIds[|rackIds| - 1])|
  }

  lemma {:induction false} CountFirst(rackIds: seq<int>, writes: seq<Write>)
    requires Distinct(rackIds) && writes != []
    ensures CountIn(rackIds, writes) == CountIn(rackIds, writes[1..]) + if writes[0].rack in rackIds then 1 else 0
    decreases |rackIds|
  {
    if rackIds != [] {
      var init, last := rackIds[..|rackIds| - 1], rackIds[|rackIds| - 1];
      CountFirst(init, writes);
      assert last !in init;
      assert writes[0].rack in rackIds <==> writes[0].rack in init || writes[0].rack == last by {
        assert rackIds == init + [last];
      }
      assert |Of(writes, last)| == |Of(writes[1..], last)| + if writes[0].rack == last then 1 else 0;
    }
  }

  lemma {:induction false} NothingCounted(rackIds: seq<int>)
    ensures CountIn(rackIds, []) == 0
  {
    if rackIds != [] { NothingCounted(rackIds[..|rackIds| - 1]); }
  }

  /** Every placement is in exactly one of the racks. */
  lemma {:induction false} CountIsAll(rackIds: seq<int>, writes: seq<Write>)
    requires Distinct(rackIds) && forall k :: 0 <= k < |writes| ==> writes[k].rack in rackIds
    ensures CountIn(rackIds, writes) == |writes|
    decreases |writes|
  {
    if writes == [] {
      NothingCounted(rackIds);
    } else {
      CountFirst(rackIds, writes);
      CountIsAll(rackIds, writes[1..]);
    }
  }

  // ---------- the plan ----------

  datatype RackPlan = Restricted | Unavailable | Ready(capacity: int, placements: seq<Span>)

  function CapacityOf(plan: RackPlan): int {
    if plan.Ready? then plan.capacity else 0
  }

  function PlacementsOf(plan: RackPlan): seq<Span> {
    if plan.Ready? then plan.placements else []
  }

  /** `available_capacity` */
  function Available(plans: seq<RackPlan>): int {
    if plans == [] then 0 else Available(plans[..|plans| - 1]) + CapacityOf(plans[|plans| - 1])
  }

  /** `allocated_quantity` */
  function Allocated(plans: seq<RackPlan>): nat {
    if plans == [] then 0 else Allocated(plans[..|plans| - 1]) + |PlacementsOf(plans[|plans| - 1])|
  }

  /** The racks that the caller may see the plan of. */
  function OpenRacks(rackIds: seq<int>, restricted: set<int>): set<int> {
    set r | r in rackIds && r !in restricted
  }

  ghost predicate IsRackPlan(db: Db, rackId: int, restricted: set<int>, height: int, quantity: int, plan: RackPlan) {
    && (plan.Restricted? <==> rackId in restricted)
    && (!plan.Restricted? ==> (plan.Ready? <==> Usable(db, rackId)))
    && (plan.Ready? ==> IsOptimum(db, rackId, height, quantity, plan.capacity, plan.placements))
  }

  /** Each rack is planned for what the racks before it left over. */
  ghost predicate IsBatchPlan(db: Db, rackIds: seq<int>, restricted: set<int>, height: int, quantity: int,
                              plans: seq<RackPlan>)
    decreases |plans|
  {
    && |plans| == |rackIds|
    && (plans != [] ==>
          var n := |plans| - 1;
          && IsBatchPlan(db, rackIds[..n], restricted, height, quantity, plans[..n])
          && IsRackPlan(db, rackIds[n], restricted, height, quantity - Allocated(plans[..n]), plans[n]))
  }

  lemma CapacityNonNegative(db: Db, rackId: int, restricted: set<int>, height: int, quantity: int, plan: RackPlan)
    requires IsRackPlan(db, rackId, restricted, height, quantity, plan)
    ensures CapacityOf(plan) >= 0 && |PlacementsOf(plan)| == Max(0, Min(CapacityOf(plan), quantity))
  {
    if plan.Ready? {
      assert Newcomers(db, rackId, height, []) && PlaceAll(db, rackId, []).Committed?;
    }
  }

  /** `capacity_plan`: `restricted` are the racks without full department access. */
  method PlanRacks(store: Store, rackIds: seq<int>, restricted: set<int>, height: int, quantity: int)
    returns (plans: seq<RackPlan>, planned: int, available: int)
    requires RacksSound(store.View()) && height >= 1 && quantity >= 0
    requires forall i :: 0 <= i < |rackIds| ==> rackIds[i] in store.racks
    ensures IsBatchPlan(store.View(), rackIds, restricted, height, quantity, plans)
    ensures available == Available(plans) && planned == Allocated(plans) == Min(quantity, available)
  {
    var remaining: int;
    plans, remaining := PlanEachRack(store, rackIds, restricted, height, quantity);
    planned := quantity - remaining;
    available := SumCapacities(plans);
    AllocatedIsMinimum(store.View(), rackIds, restricted, height, quantity, plans);
  }

  /** The loop over the racks. */
  method PlanEachRack(store: Store, rackIds: seq<int>, restricted: set<int>, height: int, quantity: int)
    returns (plans: seq<RackPlan>, remaining: int)
    requires RacksSound(store.View()) && height >= 1
    requires forall i :: 0 <= i < |rackIds| ==> rackIds[i] in store.racks
    ensures IsBatchPlan(store.View(), rackIds, restricted, height, quantity, plans)
    ensures remaining == quantity - Allocated(plans)
  {
    plans, remaining := [], quantity;
    var i := 0;
    while i < |rackIds|
      invariant 0 <= i <= |rackIds| && IsBatchPlan(store.View(), rackIds[..i], restricted, height, quantity, plans)
      invariant remaining == quantity - Allocated(plans)
    {
      plans, remaining := PlanNext(store, rackIds, i, restricted, height, quantity, plans, remaining);
      i := i + 1;
    }
    assert rackIds[..i] == rackIds;
  }

  method SumCapacities(plans: seq<RackPlan>) returns (available: int)
    ensures available == Available(plans)
  {
    available := 0;
    for i := 0 to |plans|
      invariant available == Available(plans[..i])
    {
      assert plans[..i + 1][..i] == plans[..i];
      if plans[i].Ready? { available := available + plans[i].capacity; }
    }
    assert plans[..|plans|] == plans;
  }

  /** Together the racks get the whole quantity, or as much as they can take. */
  lemma {:induction false} AllocatedIsMinimum(db: Db, rackIds: seq<int>, restricted: set<int>, height: int,
                                              quantity: int, plans: seq<RackPlan>)
    requires IsBatchPlan(db, rackIds, restricted, height, quantity, plans) && quantity >= 0
    ensures Available(plans) >= 0 && Allocated(plans) == Min(quantity, Available(plans))
    decreases |plans|
  {
    if plans != [] {
      var n := |plans| - 1;
      AllocatedIsMinimum(db, rackIds[..n], restricted, height, quantity, plans[..n]);
      CapacityNonNegative(db, rackIds[n], restricted, height, quantity - Allocated(plans[..n]), plans[n]);
    }
  }

  /** One turn of the loop. */
  method PlanNext(store: Store, rackIds: seq<int>, i: nat, restricted: set<int>, height: int, ghost quantity: int,
                  plans: seq<RackPlan>, remaining: int)
    returns (longer: seq<RackPlan>, left: int)
    requires i < |rackIds| && rackIds[i] in store.racks && RacksSound(store.View()) && height >= 1
    requires IsBatchPlan(store.View(), rackIds[..i], restricted, height, quantity, plans)
    requires remaining == quantity - Allocated(plans)
    ensures IsBatchPlan(store.View(), rackIds[..i + 1], restricted, height, quantity, longer)
    ensures left == quantity - Allocated(longer)
  {
    var plan := PlanOne(store, rackIds[i], restricted, height, remaining);
    NextPlanned(store.View(), rackIds, i, restricted, height, quantity, plans, plan);
    LongerTotals(plans, plan);
    longer, left := plans + [plan], remaining - |PlacementsOf(plan)|;
  }

  method PlanOne(store: Store, rackId: int, restricted: set<int>, height: int, quantity: int) returns (plan: RackPlan)
    requires RacksSound(store.View()) && rackId in store.racks && height >= 1
    ensures IsRackPlan(store.View(), rackId, restricted, height, quantity, plan)
  {
    plan := Restricted;
    if rackId !in restricted {
      var ready, capacity, placements := PlanRack(store, rackId, height, quantity);
      plan := if ready then Ready(capacity, placements) else Unavailable;
    }
  }

  lemma LongerPlan(db: Db, planned: seq<int>, rackId: int, restricted: set<int>, height: int, quantity: int,
                   plans: seq<RackPlan>, plan: RackPlan)
    requires IsBatchPlan(db, planned, restricted, height, quantity, plans)
    requires IsRackPlan(db, rackId, restricted, height, quantity - Allocated(plans), plan)
    ensures IsBatchPlan(db, planned + [rackId], restricted, height, quantity, plans + [plan])
  {
    assert (plans + [plan])[..|plans|] == plans && (planned + [rackId])[..|planned|] == planned;
  }

  lemma NextPlanned(db: Db, rackIds: seq<int>, i: nat, restricted: set<int>, height: int, quantity: int,
                    plans: seq<RackPlan>, plan: RackPlan)
    requires i < |rackIds| && IsBatchPlan(db, rackIds[..i], restricted, height, quantity, plans)
    requires IsRackPlan(db, rackIds[i], restricted, height, quantity - Allocated(plans), plan)
    ensures IsBatchPlan(db, rackIds[..i + 1], restricted, height, quantity, plans + [plan])
  {
    NextPrefix(rackIds, i);
    LongerPlan(db, rackIds[..i], rackIds[i], restricted, height, quantity, plans, plan);
  }

  lemma NextPrefix(rackIds: seq<int>, i: nat)
    requires i < |rackIds|
    ensures rackIds[..i + 1] == rackIds[..i] + [rackIds[i]]
  {}

  lemma LongerTotals(plans: seq<RackPlan>, plan: RackPlan)
    ensures Allocated(plans + [plan]) == Allocated(plans) + |PlacementsOf(plan)|
  {
    assert (plans + [plan])[..|plans|] == plans;
  }

  /** The part of the plan that is about one rack. */
  lemma {:induction false} PlanAt(db: Db, rackIds: seq<int>, restricted: set<int>, height: int, quantity: int,
                                  plans: seq<RackPlan>, i: nat)
    requires IsBatchPlan(db, rackIds, restricted, height, quantity, plans) && i < |plans|
    ensures IsRackPlan(db, rackIds[i], restricted, height, quantity - Allocated(plans[..i]), plans[i])
    decreases |plans|
  {
    var n := |plans| - 1;
    if i < n {
      PlanAt(db, rackIds[..n], restricted, height, quantity, plans[..n], i);
      assert plans[..n][..i] == plans[..i];
    }
  }

  // ---------- the plan is the optimum over all racks ----------

  lemma UnusablePlacesNothing(db: Db, rackId: int, devices: seq<Device>)
    requires !Usable(db, rackId) && AllNew(db, rackId, devices) && PlaceAll(db, rackId, devices).Committed?
    ensures devices == []
  {}

  /** In one open rack no more placements of a committing batch fit than its capacity. */
  lemma OneRackBound(db: Db, racks: set<int>, rackId: int, restricted: set<int>, height: int, quantity: int,
                     plan: RackPlan, writes: seq<Write>)
    requires IsBatch(db, racks, writes) && Uniform(height, writes) && rackId in racks && rackId !in restricted
    requires IsRackPlan(db, rackId, restricted, height, quantity, plan)
    requires PlaceAll(db, rackId, Of(writes, rackId)).Committed?
    ensures |Of(writes, rackId)| <= CapacityOf(plan)
  {
    OfNew(db, racks, writes, rackId);
    if plan.Ready? {
      forall k | 0 <= k < |Of(writes, rackId)|
        ensures Of(writes, rackId)[k].span.endU - Of(writes, rackId)[k].span.startU + 1 == height
      {
        OfMembers(writes, rackId, Of(writes, rackId)[k]);
        var j :| 0 <= j < |writes| && writes[j] == Write(rackId, Of(writes, rackId)[k]);
      }
      assert Newcomers(db, rackId, height, Of(writes, rackId));
    } else {
      UnusablePlacesNothing(db, rackId, Of(writes, rackId));
    }
  }

  lemma NothingIn(writes: seq<Write>, rackId: int)
    requires forall k :: 0 <= k < |writes| ==> writes[k].rack != rackId
    ensures Of(writes, rackId) == []
  {
    forall d ensures d !in Of(writes, rackId) { OfMembers(writes, rackId, d); }
    FirstIsMember(Of(writes, rackId));
  }

  lemma FirstIsMember(devices: seq<Device>)
    ensures devices != [] ==> devices[0] in devices
  {}

  lemma {:induction false} BoundedRackByRack(db: Db, racks: set<int>, rackIds: seq<int>, restricted: set<int>,
                                             height: int, quantity: int, plans: seq<RackPlan>, writes: seq<Write>)
    requires IsBatchPlan(db, rackIds, restricted, height, quantity, plans)
    requires IsBatch(db, racks, writes) && Uniform(height, writes)
    requires forall i :: 0 <= i < |rackIds| ==> (rackIds[i] in racks <==> rackIds[i] !in restricted)
    requires forall r :: r in racks ==> PlaceAll(db, r, Of(writes, r)).Committed?
    ensures CountIn(rackIds, writes) <= Available(plans)
    decreases |rackIds|
  {
    if rackIds != [] {
      var n := |rackIds| - 1;
      BoundedRackByRack(db, racks, rackIds[..n], restricted, height, quantity, plans[..n], writes);
      LastRackBound(db, racks, rackIds[n], restricted, height, quantity - Allocated(plans[..n]), plans[n], writes);
    }
  }

  lemma LastRackBound(db: Db, racks: set<int>, rackId: int, restricted: set<int>, height: int, quantity: int,
                      plan: RackPlan, writes: seq<Write>)
    requires IsBatch(db, racks, writes) && Uniform(height, writes) && (rackId in racks <==> rackId !in restricted)
    requires IsRackPlan(db, rackId, restricted, height, quantity, plan)
    requires rackId in racks ==> PlaceAll(db, rackId, Of(writes, rackId)).Committed?
    ensures |Of(writes, rackId)| <= CapacityOf(plan)
  {
    CapacityNonNegative(db, rackId, restricted, height, quantity, plan);
    if rackId in restricted {
      NothingIn(writes, rackId);
    } else {
      OneRackBound(db, racks, rackId, restricted, height, quantity, plan, writes);
    }
  }

  /** No batch of newcomers over the open racks that commits, in any order and any split, is
      larger than the available capacity that is reported. */
  lemma {:induction false} AvailableBoundsEveryBatch(db: Db, rackIds: seq<int>, restricted: set<int>, height: int,
                                                     quantity: int, plans: seq<RackPlan>, writes: seq<Write>)
    requires Distinct(rackIds) && IsBatchPlan(db, rackIds, restricted, height, quantity, plans)
    requires IsBatch(db, OpenRacks(rackIds, restricted), writes) && Uniform(height, writes)
    requires PlaceEach(db, writes).Committed?
    ensures |writes| <= Available(plans)
  {
    var racks := OpenRacks(rackIds, restricted);
    RacksAreIndependent(db, racks, writes);
    BoundedRackByRack(db, racks, rackIds, restricted, height, quantity, plans, writes);
    CountIsAll(rackIds, writes);
  }

  lemma AllocatedStep(plans: seq<RackPlan>, i: nat)
    requires i < |plans|
    ensures Allocated(plans[..i + 1]) == Allocated(plans[..i]) + |PlacementsOf(plans[i])|
  {
    assert plans[..i + 1][..i] == plans[..i];
  }

  /** The assets that the plan's sequence numbers give to one rack. */
  function Share(plans: seq<RackPlan>, assets: seq<int>, i: nat): (share: seq<int>)
    requires i < |plans| && Allocated(plans[..i + 1]) <= |assets|
    ensures |share| == |PlacementsOf(plans[i])|
  {
    AllocatedStep(plans, i);
    assets[Allocated(plans[..i])..Allocated(plans[..i + 1])]
  }

  function InRack(rackId: int, assets: seq<int>, placements: seq<Span>): seq<Write>
    requires |assets| == |placements|
  {
    seq(|assets|, k requires 0 <= k < |assets| => Write(rackId, Device(assets[k], placements[k])))
  }

  /** The placements suggested for the first `n` racks, for the given assets in the order of the
      sequence numbers. */
  function Suggested(rackIds: seq<int>, plans: seq<RackPlan>, assets: seq<int>, n: nat): seq<Write>
    requires n <= |plans| == |rackIds| && Allocated(plans[..n]) <= |assets|
  {
    if n == 0 then []
    else
      AllocatedStep(plans, n - 1);
      Suggested(rackIds, plans, assets, n - 1)
      + InRack(rackIds[n - 1], Share(plans, assets, n - 1), PlacementsOf(plans[n - 1]))
  }

  lemma OfFirst(first: Write, rest: seq<Write>, rackId: int)
    ensures Of([first] + rest, rackId) == (if first.rack == rackId then [first.device] else []) + Of(rest, rackId)
  {
    assert ([first] + rest)[1..] == rest;
  }

  lemma {:induction false} OfConcat(a: seq<Write>, b: seq<Write>, rackId: int)
    ensures Of(a + b, rackId) == Of(a, rackId) + Of(b, rackId)
    decreases |a|
  {
    if a == [] {
      assert a + b == b;
    } else {
      var rest := a[1..];
      OfConcat(rest, b, rackId);
      OfFirst(a[0], rest, rackId);
      OfFirst(a[0], rest + b, rackId);
      assert a == [a[0]] + rest && a + b == [a[0]] + (rest + b);
    }
  }

  lemma {:induction false} OfInRack(target: int, assets: seq<int>, placements: seq<Span>, rackId: int)
    requires |assets| == |placements|
    ensures Of(InRack(target, assets, placements), rackId) ==
            if target == rackId then Assign(assets, placements) else []
    decreases |assets|
  {
    if assets != [] {
      assert InRack(target, assets, placements)[1..] == InRack(target, assets[1..], placements[1..]);
      OfInRack(target, assets[1..], placements[1..], rackId);
      assert Assign(assets, placements) == [Device(assets[0], placements[0])] + Assign(assets[1..], placements[1..]);
    }
  }

  /** Assets that are in none of the racks, each only once. */
  ghost predicate FreshAssets(db: Db, racks: set<int>, assets: seq<int>) {
    && (forall k :: 0 <= k < |assets| ==> NewTo(db, racks, assets[k]))
    && (forall j, k :: 0 <= j < k < |assets| ==> assets[j] != assets[k])
  }

  predicate FromReadyRack(rackIds: seq<int>, plans: seq<RackPlan>, rackId: int)
    requires |plans| == |rackIds|
  {
    exists i :: 0 <= i < |rackIds| && rackIds[i] == rackId && plans[i].Ready?
  }

  lemma {:induction false} SuggestedLength(rackIds: seq<int>, plans: seq<RackPlan>, assets: seq<int>, n: nat)
    requires n <= |plans| == |rackIds| && Allocated(plans[..n]) <= |assets|
    ensures |Suggested(rackIds, plans, assets, n)| == Allocated(plans[..n])
  {
    if n > 0 {
      AllocatedStep(plans, n - 1);
      SuggestedLength(rackIds, plans, assets, n - 1);
    }
  }

  /** The k-th placement is for the k-th asset and in a rack that is ready. */
  lemma {:induction false} SuggestedAt(rackIds: seq<int>, plans: seq<RackPlan>, assets: seq<int>, n: nat, k: nat)
    requires n <= |plans| == |rackIds| && k < Allocated(plans[..n]) <= |assets|
    ensures |Suggested(rackIds, plans, assets, n)| == Allocated(plans[..n])
    ensures Suggested(rackIds, plans, assets, n)[k].device.assetId == assets[k]
    ensures FromReadyRack(rackIds, plans, Suggested(rackIds, plans, assets, n)[k].rack)
  {
    AllocatedStep(plans, n - 1);
    SuggestedLength(rackIds, plans, assets, n - 1);
    var before := Allocated(plans[..n - 1]);
    if k < before {
      SuggestedAt(rackIds, plans, assets, n - 1, k);
    } else {
      var here := InRack(rackIds[n - 1], Share(plans, assets, n - 1), PlacementsOf(plans[n - 1]));
      assert Suggested(rackIds, plans, assets, n)[k] == here[k - before];
      assert here[k - before].rack == rackIds[n - 1] && plans[n - 1].Ready?;
    }
  }

  /** One more rack in the suggestion, seen from one rack. */
  lemma SuggestedStep(rackIds: seq<int>, plans: seq<RackPlan>, assets: seq<int>, n: nat, rackId: int)
    requires n < |plans| == |rackIds| && Allocated(plans[..n + 1]) <= |assets|
    ensures Allocated(plans[..n]) <= |assets|
    ensures Of(Suggested(rackIds, plans, assets, n + 1), rackId) ==
            Of(Suggested(rackIds, plans, assets, n), rackId)
            + if rackIds[n] == rackId then Assign(Share(plans, assets, n), PlacementsOf(plans[n])) else []
  {
    AllocatedStep(plans, n);
    var here := InRack(rackIds[n], Share(plans, assets, n), PlacementsOf(plans[n]));
    OfConcat(Suggested(rackIds, plans, assets, n), here, rackId);
    OfInRack(rackIds[n], Share(plans, assets, n), PlacementsOf(plans[n]), rackId);
  }

  lemma {:induction false} SuggestedElsewhere(rackIds: seq<int>, plans: seq<RackPlan>, assets: seq<int>, n: nat,
                                              rackId: int)
    requires n <= |plans| == |rackIds| && Allocated(plans[..n]) <= |assets|
    requires forall i :: 0 <= i < n ==> rackIds[i] != rackId
    ensures Of(Suggested(rackIds, plans, assets, n), rackId) == []
  {
    if n > 0 {
      SuggestedStep(rackIds, plans, assets, n - 1, rackId);
      SuggestedElsewhere(rackIds, plans, assets, n - 1, rackId);
    }
  }

  lemma AllocatedGrows(plans: seq<RackPlan>, i: nat, n: nat)
    requires i <= n <= |plans|
    ensures Allocated(plans[..i]) <= Allocated(plans[..n])
    decreases n - i
  {
    if i < n {
      AllocatedStep(plans, i);
      AllocatedGrows(plans, i + 1, n);
    }
  }

  /** In each rack the suggestion is that rack's own plan, with its share of the assets. */
  lemma {:induction false} SuggestedInRack(rackIds: seq<int>, plans: seq<RackPlan>, assets: seq<int>, n: nat, i: nat)
    requires Distinct(rackIds) && i < n <= |plans| == |rackIds| && Allocated(plans[..n]) <= |assets|
    ensures Allocated(plans[..i + 1]) <= |assets|
    ensures Of(Suggested(rackIds, plans, assets, n), rackIds[i]) ==
            Assign(Share(plans, assets, i), PlacementsOf(plans[i]))
  {
    AllocatedGrows(plans, i + 1, n);
    SuggestedStep(rackIds, plans, assets, n - 1, rackIds[i]);
    if i < n - 1 {
      SuggestedInRack(rackIds, plans, assets, n - 1, i);
    } else {
      SuggestedElsewhere(rackIds, plans, assets, n - 1, rackIds[i]);
    }
  }

  lemma SuggestionIsBatch(db: Db, rackIds: seq<int>, racks: set<int>, plans: seq<RackPlan>, assets: seq<int>)
    requires |plans| == |rackIds| && |assets| == Allocated(plans[..|plans|]) && FreshAssets(db, racks, assets)
    requires forall i :: 0 <= i < |rackIds| && plans[i].Ready? ==> rackIds[i] in racks
    ensures IsBatch(db, racks, Suggested(rackIds, plans, assets, |plans|))
  {
    var n := |plans|;
    SuggestedLength(rackIds, plans, assets, n);
    forall k | 0 <= k < |assets|
      ensures Suggested(rackIds, plans, assets, n)[k].device.assetId == assets[k]
      ensures Suggested(rackIds, plans, assets, n)[k].rack in racks
    {
      SuggestedAt(rackIds, plans, assets, n, k);
    }
    BatchOfFresh(db, racks, Suggested(rackIds, plans, assets, n), assets);
  }

  lemma BatchOfFresh(db: Db, racks: set<int>, writes: seq<Write>, assets: seq<int>)
    requires |writes| == |assets| && FreshAssets(db, racks, assets)
    requires forall k :: 0 <= k < |assets| ==> writes[k].device.assetId == assets[k] && writes[k].rack in racks
    ensures IsBatch(db, racks, writes)
  {}

  lemma SuggestionInRack(db: Db, racks: set<int>, rackIds: seq<int>, restricted: set<int>, height: int, quantity: int,
                         plans: seq<RackPlan>, assets: seq<int>, i: nat)
    requires Distinct(rackIds) && i < |plans| == |rackIds| && rackIds[i] in racks
    requires IsRackPlan(db, rackIds[i], restricted, height, quantity, plans[i])
    requires |assets| == Allocated(plans[..|plans|]) && FreshAssets(db, racks, assets)
    ensures PlaceAll(db, rackIds[i], Of(Suggested(rackIds, plans, assets, |plans|), rackIds[i])).Committed?
  {
    AllocatedGrows(plans, i + 1, |plans|);
    SuggestedInRack(rackIds, plans, assets, |plans|, i);
    ShareIsFresh(db, racks, plans, assets, i);
    ShareCommits(db, racks, rackIds[i], restricted, height, quantity, plans[i], Share(plans, assets, i),
                 Of(Suggested(rackIds, plans, assets, |plans|), rackIds[i]));
  }

  lemma ShareIsFresh(db: Db, racks: set<int>, plans: seq<RackPlan>, assets: seq<int>, i: nat)
    requires i < |plans| && Allocated(plans[..i + 1]) <= |assets| && FreshAssets(db, racks, assets)
    ensures FreshAssets(db, racks, Share(plans, assets, i))
  {
    AllocatedStep(plans, i);
    var share := Share(plans, assets, i);
    assert forall k :: 0 <= k < |share| ==> share[k] == assets[Allocated(plans[..i]) + k];
  }

  lemma ShareCommits(db: Db, racks: set<int>, rackId: int, restricted: set<int>, height: int, quantity: int,
                     plan: RackPlan, share: seq<int>, devices: seq<Device>)
    requires IsRackPlan(db, rackId, restricted, height, quantity, plan) && rackId in racks
    requires |share| == |PlacementsOf(plan)| && FreshAssets(db, racks, share)
    requires devices == Assign(share, PlacementsOf(plan))
    ensures PlaceAll(db, rackId, devices).Committed?
  {
    if plan.Ready? {
      assert NewcomerIds(db, rackId, share);
    } else {
      assert devices == [];
    }
  }

  lemma {:induction false} ReadyIsOpen(db: Db, rackIds: seq<int>, restricted: set<int>, height: int, quantity: int,
                                       plans: seq<RackPlan>)
    requires IsBatchPlan(db, rackIds, restricted, height, quantity, plans)
    ensures forall i :: 0 <= i < |rackIds| && plans[i].Ready? ==> rackIds[i] in OpenRacks(rackIds, restricted)
  {
    forall i | 0 <= i < |rackIds| && plans[i].Ready? ensures rackIds[i] in OpenRacks(rackIds, restricted) {
      PlanAt(db, rackIds, restricted, height, quantity, plans, i);
    }
  }

  /** The suggestion commits in the ledger, call by call over all racks, for every choice of
      assets that are in none of them. */
  lemma {:induction false} SuggestionCommits(db: Db, rackIds: seq<int>, restricted: set<int>, height: int,
                                             quantity: int, plans: seq<RackPlan>, assets: seq<int>)
    requires Distinct(rackIds) && IsBatchPlan(db, rackIds, restricted, height, quantity, plans)
    requires |assets| == Allocated(plans[..|plans|]) && FreshAssets(db, OpenRacks(rackIds, restricted), assets)
    ensures PlaceEach(db, Suggested(rackIds, plans, assets, |plans|)).Committed?
  {
    var racks, writes := OpenRacks(rackIds, restricted), Suggested(rackIds, plans, assets, |plans|);
    ReadyIsOpen(db, rackIds, restricted, height, quantity, plans);
    SuggestionIsBatch(db, rackIds, racks, plans, assets);
    forall r | r in racks ensures PlaceAll(db, r, Of(writes, r)).Committed? {
      var i :| 0 <= i < |rackIds| && rackIds[i] == r;
      PlanAt(db, rackIds, restricted, height, quantity, plans, i);
      SuggestionInRack(db, racks, rackIds, restricted, height, quantity - Allocated(plans[..i]), plans, assets, i);
    }
    RacksAreIndependent(db, racks, writes);
  }
}
