/** Import of a department hierarchy: analysis, parents-first order and the save loop.

    Models backend/assets/department_imports.py:169-225, 242-418 and 430-481. Codes and
    names stand for their identity keys; a department refers to its parent by code.
 */
module DepartmentImport {
  import opened RackRanges
  import opened ParentGraph

  datatype Dept = Dept(name: Key, parent: Option<Key>)

  type Hierarchy = map<Key, Dept>

  /** A row of the file; an empty text is an empty cell. */
  datatype Row = Row(code: Key, name: Key, parentCode: Key)

  datatype Spec = Spec(key: Key, name: Key, parent: Option<Key>)

  datatype RowError =
    | CodeRequired
    | DuplicateCode
    | NameRequired
    | SelfParent
    | MissingParent
    | ParentRowInvalid
    | DuplicateName
    | HierarchyCycle

  function ParentsOf(tree: Hierarchy): Parents {
    map c | c in tree :: tree[c].parent
  }

  /** What the database guarantees: codes are not empty, parents exist, names are unique. */
  ghost predicate Sound(tree: Hierarchy) {
    "" !in tree && ParentsExist(tree) && NamesUnique(tree)
  }

  ghost predicate ParentsExist(tree: Hierarchy) {
    forall c :: c in tree && tree[c].parent.Some? ==> tree[c].parent.value in tree
  }

  ghost predicate NamesUnique(tree: Hierarchy) {
    forall c, d :: c in tree && d in tree && c != d ==> tree[c].name != tree[d].name
  }

  // ---------- parents-first order ----------

  ghost predicate KeysDistinct(specs: seq<Spec>) {
    && (forall i :: 0 <= i < |specs| ==> specs[i].key != "")
    && (forall i, j :: 0 <= i < j < |specs| ==> specs[i].key != specs[j].key)
  }

  function KeysOf(specs: seq<Spec>): set<Key> {
    set i | 0 <= i < |specs| :: specs[i].key
  }

  /** The parent map of the file's rows. */
  ghost predicate Describes(parents: Parents, specs: seq<Spec>) {
    && (forall k :: k in parents ==> exists i :: 0 <= i < |specs| && specs[i].key == k)
    && (forall i :: 0 <= i < |specs| ==> specs[i].key in parents && parents[specs[i].key] == specs[i].parent)
  }

  /** Every row comes after the row of its parent, if the file has one. */
  ghost predicate ParentsFirst(order: seq<Spec>, keys: set<Key>) {
    forall j :: 0 <= j < |order| && order[j].parent.Some? && order[j].parent.value in keys ==>
      Placed(order, j, order[j].parent.value)
  }

  ghost predicate Placed(order: seq<Spec>, before: nat, key: Key) {
    exists i :: 0 <= i < before && i < |order| && order[i].key == key
  }

  ghost predicate OrderInv(specs: seq<Spec>, pending: set<Key>, ordered: seq<Spec>) {
    && pending <= KeysOf(specs)
    && KeysDistinct(ordered)
    && (forall j :: 0 <= j < |ordered| ==> ordered[j] in specs && ordered[j].key !in pending)
    && (forall i :: 0 <= i < |specs| && specs[i].key !in pending ==> specs[i] in ordered)
    && ParentsFirst(ordered, KeysOf(specs))
  }

  /** A pending row whose parent is not pending. */
  predicate IsReady(spec: Spec, pending: set<Key>) {
    spec.key in pending && !(spec.parent.Some? && spec.parent.value in pending)
  }

  /** The ready rows in the order of the file. */
  function ReadyRows(specs: seq<Spec>, pending: set<Key>): (layer: seq<Spec>)
    ensures forall k :: 0 <= k < |layer| ==> IsReady(layer[k], pending) && layer[k] in specs
  {
    if specs == [] then []
    else
      var init, last := specs[..|specs| - 1], specs[|specs| - 1];
      ReadyRows(init, pending) + if IsReady(last, pending) then [last] else []
  }

  /** Layer after layer, until nothing is pending or nothing is ready. */
  function Layers(specs: seq<Spec>, pending: set<Key>): seq<Spec>
    decreases pending
  {
    var layer := ReadyRows(specs, pending);
    if layer == [] then []
    else
      assert layer[0].key in KeysOf(layer);
      layer + Layers(specs, pending - KeysOf(layer))
  }

  /** The order in which the rows are saved, fixed by the rows and their places in the file. */
  function SaveOrder(specs: seq<Spec>): seq<Spec> {
    Layers(specs, KeysOf(specs))
  }

  /** No pending row is ready: each has its parent among the pending ones. */
  lemma NoneReady(specs: seq<Spec>, parents: Parents, pending: set<Key>)
    requires KeysDistinct(specs) && Describes(parents, specs) && pending != {} && pending <= KeysOf(specs)
    requires forall i {:trigger IsReady(specs[i], pending)} :: 0 <= i < |specs| ==> !IsReady(specs[i], pending)
    ensures !Acyclic(parents)
  {
    PendingFollow(specs, parents, pending);
    ClosedSetIsCyclic(parents, pending);
  }

  lemma PendingFollow(specs: seq<Spec>, parents: Parents, pending: set<Key>)
    requires pending <= KeysOf(specs)
    requires forall i :: 0 <= i < |specs| ==>
               specs[i].key != "" && specs[i].key in parents && parents[specs[i].key] == specs[i].parent
    requires forall i {:trigger IsReady(specs[i], pending)} :: 0 <= i < |specs| ==> !IsReady(specs[i], pending)
    ensures forall n ::
              n in pending ==> Walkable(parents, n) && Follow(parents, n).Some? && Follow(parents, n).value in pending
  {
    forall n | n in pending
      ensures Walkable(parents, n) && Follow(parents, n).Some? && Follow(parents, n).value in pending
    {
      var i := IndexOf(specs, n);
      assert !IsReady(specs[i], pending) && parents[specs[i].key] == specs[i].parent;
    }
  }

  lemma IndexOf(specs: seq<Spec>, key: Key) returns (i: nat)
    requires key in KeysOf(specs)
    ensures i < |specs| && specs[i].key == key
  {
    i :| 0 <= i < |specs| && specs[i].key == key;
  }

  lemma PlacedKeys(specs: seq<Spec>, pending: set<Key>, ordered: seq<Spec>, key: Key)
    requires OrderInv(specs, pending, ordered) && key in KeysOf(specs) && key !in pending
    ensures Placed(ordered, |ordered|, key)
  {
    var i :| 0 <= i < |specs| && specs[i].key == key;
    assert specs[i] in ordered;
  }

  lemma RowPlaced(specs: seq<Spec>, pending: set<Key>, ordered: seq<Spec>, spec: Spec)
    requires OrderInv(specs, pending, ordered) && KeysDistinct(specs) && spec in specs && spec.key in pending
    requires spec.parent.Some? ==> spec.parent.value !in pending
    ensures OrderInv(specs, pending - {spec.key}, ordered + [spec])
  {
    var longer := ordered + [spec];
    if spec.parent.Some? && spec.parent.value in KeysOf(specs) {
      PlacedKeys(specs, pending, ordered, spec.parent.value);
      var i :| 0 <= i < |ordered| && ordered[i].key == spec.parent.value;
      assert longer[i].key == spec.parent.value;
    }
    forall j | 0 <= j < |longer| && longer[j].parent.Some? && longer[j].parent.value in KeysOf(specs)
      ensures Placed(longer, j, longer[j].parent.value)
    {
      if j < |ordered| {
        assert Placed(ordered, j, ordered[j].parent.value);
        var i :| 0 <= i < j && ordered[i].key == ordered[j].parent.value;
        assert longer[i].key == longer[j].parent.value;
      }
    }
  }

  lemma NextReady(specs: seq<Spec>, pending: set<Key>, i: nat)
    requires i < |specs|
    ensures var layer := ReadyRows(specs[..i], pending);
            if IsReady(specs[i], pending)
            then ReadyRows(specs[..i + 1], pending) == layer + [specs[i]]
                 && KeysOf(ReadyRows(specs[..i + 1], pending)) == KeysOf(layer) + {specs[i].key}
            else ReadyRows(specs[..i + 1], pending) == layer
  {
    assert specs[..i + 1][..i] == specs[..i];
    KeysOfLonger(ReadyRows(specs[..i], pending), specs[i]);
  }

  /** The first rows of a layer may be placed after what is placed already. */
  lemma {:induction false} LayerPlaced(specs: seq<Spec>, pending: set<Key>, placed: seq<Spec>, i: nat)
    requires KeysDistinct(specs) && OrderInv(specs, pending, placed) && i <= |specs|
    ensures OrderInv(specs, pending - KeysOf(ReadyRows(specs[..i], pending)), placed + ReadyRows(specs[..i], pending))
  {
    if i == 0 {
      assert placed + [] == placed && pending - KeysOf([]) == pending;
    } else {
      LayerPlaced(specs, pending, placed, i - 1);
      NextReady(specs, pending, i - 1);
      if IsReady(specs[i - 1], pending) { LayerLonger(specs, pending, placed, i - 1); }
    }
  }

  lemma LayerLonger(specs: seq<Spec>, pending: set<Key>, placed: seq<Spec>, i: nat)
    requires KeysDistinct(specs) && i < |specs| && IsReady(specs[i], pending)
    requires OrderInv(specs, pending - KeysOf(ReadyRows(specs[..i], pending)), placed + ReadyRows(specs[..i], pending))
    ensures var layer := ReadyRows(specs[..i], pending) + [specs[i]];
            OrderInv(specs, pending - KeysOf(layer), placed + layer)
  {
    var layer, spec := ReadyRows(specs[..i], pending), specs[i];
    NotInLayer(specs, pending, i);
    RowPlaced(specs, pending - KeysOf(layer), placed + layer, spec);
    KeysOfLonger(layer, spec);
    assert placed + (layer + [spec]) == placed + layer + [spec];
    assert pending - KeysOf(layer + [spec]) == pending - KeysOf(layer) - {spec.key};
  }

  lemma KeysOfLonger(specs: seq<Spec>, spec: Spec)
    ensures KeysOf(specs + [spec]) == KeysOf(specs) + {spec.key}
  {
    assert forall i :: 0 <= i < |specs| ==> (specs + [spec])[i] == specs[i];
    assert (specs + [spec])[|specs|] == spec;
  }

  lemma NotInLayer(specs: seq<Spec>, pending: set<Key>, i: nat)
    requires KeysDistinct(specs) && i < |specs|
    ensures specs[i].key !in KeysOf(ReadyRows(specs[..i], pending))
  {
    var layer := ReadyRows(specs[..i], pending);
    forall k | 0 <= k < |layer| ensures layer[k].key != specs[i].key {
      var j :| 0 <= j < |specs[..i]| && specs[..i][j] == layer[k];
    }
  }

  /** One layer, in the order of the file. */
  method TakeReady(specs: seq<Spec>, ready: set<Key>, before: set<Key>, placed: seq<Spec>)
    returns (ordered: seq<Spec>, pending: set<Key>)
    requires KeysDistinct(specs)
    requires IsReadySet(specs, ready, before)
    ensures ordered == placed + ReadyRows(specs, before) && pending == before - KeysOf(ReadyRows(specs, before))
  {
    ordered, pending := placed, before;
    var i := 0;
    while i < |specs|
      invariant 0 <= i <= |specs|
      invariant ordered == placed + ReadyRows(specs[..i], before)
      invariant pending == before - KeysOf(ReadyRows(specs[..i], before))
    {
      NextReady(specs, before, i);
      if specs[i].key in ready {
        ordered := ordered + [specs[i]];
        pending := pending - {specs[i].key};
      }
      i := i + 1;
    }
    assert specs[..i] == specs;
  }

  lemma {:induction false} NoRepeats(s: seq<Spec>, x: Spec)
    requires KeysDistinct(s)
    ensures multiset(s)[x] == if x in s then 1 else 0
  {
    if s != [] {
      var init := s[..|s| - 1];
      NoRepeats(init, x);
      assert s == init + [s[|s| - 1]];
    }
  }

  lemma SameRows(specs: seq<Spec>, ordered: seq<Spec>)
    requires KeysDistinct(specs) && OrderInv(specs, {}, ordered)
    ensures multiset(ordered) == multiset(specs)
  {
    forall x ensures multiset(ordered)[x] == multiset(specs)[x] {
      NoRepeats(ordered, x);
      NoRepeats(specs, x);
    }
  }

  function PositionOf(order: seq<Spec>, key: Key): nat {
    if order == [] || order[|order| - 1].key == key then |order| else PositionOf(order[..|order| - 1], key)
  }

  lemma {:induction false} PositionIs(order: seq<Spec>, i: nat)
    requires KeysDistinct(order) && i < |order|
    ensures PositionOf(order, order[i].key) == i + 1
  {
    if i < |order| - 1 {
      assert order[..|order| - 1][i] == order[i];
      PositionIs(order[..|order| - 1], i);
    }
  }

  /** A parents-first order leaves no room for a cycle among the rows. */
  lemma OrderedIsAcyclic(specs: seq<Spec>, parents: Parents, ordered: seq<Spec>)
    requires KeysDistinct(specs) && Describes(parents, specs) && OrderInv(specs, {}, ordered)
    ensures Acyclic(parents)
  {
    var rank: map<Key, nat> := map k | k in parents :: PositionOf(ordered, k);
    forall n | Walkable(parents, n) && parents[n].Some? && Walkable(parents, parents[n].value)
      ensures n in rank && parents[n].value in rank && rank[parents[n].value] < rank[n]
    {
      ParentIsEarlier(specs, parents, ordered, n);
    }
    RankedIsAcyclic(parents, rank);
  }

  lemma ParentIsEarlier(specs: seq<Spec>, parents: Parents, ordered: seq<Spec>, n: Key)
    requires KeysDistinct(specs) && Describes(parents, specs) && OrderInv(specs, {}, ordered)
    requires Walkable(parents, n) && parents[n].Some? && Walkable(parents, parents[n].value)
    ensures PositionOf(ordered, parents[n].value) < PositionOf(ordered, n)
  {
    var k :| 0 <= k < |specs| && specs[k].key == n;
    var j :| 0 <= j < |ordered| && ordered[j] == specs[k];
    var m :| 0 <= m < |specs| && specs[m].key == parents[n].value;
    assert Placed(ordered, j, ordered[j].parent.value);
    var i :| 0 <= i < j && ordered[i].key == ordered[j].parent.value;
    PositionIs(ordered, i);
    PositionIs(ordered, j);
  }

  /** The rows placed so far start the layered order, and the layers of the pending ones end it. */
  ghost predicate Progress(specs: seq<Spec>, pending: set<Key>, ordered: seq<Spec>) {
    OrderInv(specs, pending, ordered) && SaveOrder(specs) == ordered + Layers(specs, pending)
  }

  /** The ready keys among the pending ones. */
  ghost predicate IsReadySet(specs: seq<Spec>, ready: set<Key>, pending: set<Key>) {
    && ready <= pending
    && forall i :: 0 <= i < |specs| ==> (specs[i].key in ready <==> IsReady(specs[i], pending))
  }

  /** `_dependency_order`: None where the source raises, else the layered order; `parents` is
      the rows' parent map. */
  method DependencyOrder(specs: seq<Spec>, ghost parents: Parents) returns (order: Option<seq<Spec>>)
    requires KeysDistinct(specs) && Describes(parents, specs)
    ensures order == None <==> !Acyclic(parents)
    ensures order.Some? ==> order.value == SaveOrder(specs) && IsOrderOf(order.value, specs)
  {
    var pending := KeysOf(specs);
    var ordered: seq<Spec> := [];
    ProgressStarts(specs);
    while pending != {}
      invariant pending <= KeysOf(specs) && Progress(specs, pending, ordered)
      decreases pending
    {
      var ready := Ready(specs, pending);
      if ready == {} {
        NothingIsReady(specs, pending);
        NoneReady(specs, parents, pending);
        return None;
      }
      LayerTaken(specs, pending, ready, ordered);
      ordered, pending := TakeReady(specs, ready, pending, ordered);
    }
    AllPlaced(specs, parents, ordered);
    return Some(ordered);
  }

  lemma NothingIsReady(specs: seq<Spec>, pending: set<Key>)
    requires IsReadySet(specs, {}, pending)
    ensures forall i {:trigger IsReady(specs[i], pending)} :: 0 <= i < |specs| ==> !IsReady(specs[i], pending)
  {}

  lemma ProgressStarts(specs: seq<Spec>)
    ensures Progress(specs, KeysOf(specs), [])
  {
    NothingPlaced(specs);
    assert [] + SaveOrder(specs) == SaveOrder(specs);
  }

  lemma LayerTaken(specs: seq<Spec>, pending: set<Key>, ready: set<Key>, ordered: seq<Spec>)
    requires KeysDistinct(specs) && pending <= KeysOf(specs) && Progress(specs, pending, ordered)
    requires IsReadySet(specs, ready, pending) && ready != {}
    ensures var layer := ReadyRows(specs, pending);
            Progress(specs, pending - KeysOf(layer), ordered + layer) && pending - KeysOf(layer) < pending
  {
    ReadyLayer(specs, pending, ready);
    OneLayer(specs, pending, ordered);
  }

  lemma AllPlaced(specs: seq<Spec>, parents: Parents, ordered: seq<Spec>)
    requires KeysDistinct(specs) && Describes(parents, specs) && Progress(specs, {}, ordered)
    ensures Acyclic(parents) && ordered == SaveOrder(specs) && IsOrderOf(ordered, specs)
  {
    NothingPending(specs);
    assert ordered + [] == ordered;
    SameRows(specs, ordered);
    OrderedIsAcyclic(specs, parents, ordered);
  }

  lemma NothingPending(specs: seq<Spec>)
    ensures Layers(specs, {}) == []
  {
    var layer := ReadyRows(specs, {});
    assert layer != [] ==> IsReady(layer[0], {});
  }

  /** A whole layer is placed and the rest of the order follows. */
  lemma OneLayer(specs: seq<Spec>, pending: set<Key>, placed: seq<Spec>)
    requires KeysDistinct(specs) && OrderInv(specs, pending, placed) && ReadyRows(specs, pending) != []
    ensures var layer := ReadyRows(specs, pending);
            && OrderInv(specs, pending - KeysOf(layer), placed + layer)
            && placed + Layers(specs, pending) == placed + layer + Layers(specs, pending - KeysOf(layer))
            && pending - KeysOf(layer) < pending
  {
    LayerPlaced(specs, pending, placed, |specs|);
    assert specs[..|specs|] == specs;
    LayersNext(specs, pending);
    Regroup(placed, ReadyRows(specs, pending), Layers(specs, pending - KeysOf(ReadyRows(specs, pending))));
  }

  lemma LayersNext(specs: seq<Spec>, pending: set<Key>)
    requires ReadyRows(specs, pending) != []
    ensures var layer := ReadyRows(specs, pending);
            Layers(specs, pending) == layer + Layers(specs, pending - KeysOf(layer))
            && pending - KeysOf(layer) < pending
  {
    var layer := ReadyRows(specs, pending);
    assert IsReady(layer[0], pending) && layer[0].key in KeysOf(layer);
  }

  lemma Regroup(a: seq<Spec>, b: seq<Spec>, c: seq<Spec>)
    ensures a + (b + c) == a + b + c
  {}

  /** A ready key has its row in the layer. */
  lemma ReadyLayer(specs: seq<Spec>, pending: set<Key>, ready: set<Key>)
    requires pending <= KeysOf(specs) && ready <= pending && ready != {}
    requires forall i :: 0 <= i < |specs| && specs[i].key in ready ==> IsReady(specs[i], pending)
    ensures ReadyRows(specs, pending) != []
  {
    HasKey(ready);
    var k :| k in ready;
    var i :| 0 <= i < |specs| && specs[i].key == k;
    ReadyIsTaken(specs, pending, i);
  }

  lemma {:induction false} ReadyIsTaken(specs: seq<Spec>, pending: set<Key>, i: nat)
    requires i < |specs| && IsReady(specs[i], pending)
    ensures specs[i] in ReadyRows(specs, pending)
  {
    if i < |specs| - 1 {
      assert specs[..|specs| - 1][i] == specs[i];
      ReadyIsTaken(specs[..|specs| - 1], pending, i);
    }
  }

  lemma NothingPlaced(specs: seq<Spec>)
    ensures OrderInv(specs, KeysOf(specs), [])
  {}

  /** Without a cycle among the rows the layered order is an order of all of them. */
  lemma SaveOrderIsOrder(specs: seq<Spec>, parents: Parents)
    requires KeysDistinct(specs) && Describes(parents, specs) && Acyclic(parents)
    ensures IsOrderOf(SaveOrder(specs), specs)
  {
    ProgressStarts(specs);
    LayersPlaced(specs, parents, KeysOf(specs), []);
    SameRows(specs, SaveOrder(specs));
  }

  lemma SomeReady(specs: seq<Spec>, parents: Parents, pending: set<Key>)
    requires KeysDistinct(specs) && Describes(parents, specs) && Acyclic(parents) && pending != {}
             && pending <= KeysOf(specs)
    ensures ReadyRows(specs, pending) != []
  {
    if ReadyRows(specs, pending) == [] {
      forall i | 0 <= i < |specs| ensures !IsReady(specs[i], pending) {
        if IsReady(specs[i], pending) { ReadyIsTaken(specs, pending, i); }
      }
      NoneReady(specs, parents, pending);
    }
  }

  lemma {:induction false} LayersPlaced(specs: seq<Spec>, parents: Parents, pending: set<Key>, placed: seq<Spec>)
    requires KeysDistinct(specs) && Describes(parents, specs) && Acyclic(parents) && OrderInv(specs, pending, placed)
    ensures OrderInv(specs, {}, placed + Layers(specs, pending))
    decreases pending
  {
    if pending == {} {
      NothingPending(specs);
      assert placed + [] == placed;
    } else {
      SomeReady(specs, parents, pending);
      OneLayer(specs, pending, placed);
      var layer := ReadyRows(specs, pending);
      LayersPlaced(specs, parents, pending - KeysOf(layer), placed + layer);
    }
  }

  /** The keys of the ready rows. */
  method Ready(specs: seq<Spec>, pending: set<Key>) returns (ready: set<Key>)
    requires KeysDistinct(specs) && pending <= KeysOf(specs)
    ensures IsReadySet(specs, ready, pending)
  {
    ready := {};
    var i := 0;
    while i < |specs|
      invariant 0 <= i <= |specs| && ready <= pending
      invariant forall k :: k in ready ==> exists j :: 0 <= j < i && specs[j].key == k
      invariant forall j :: 0 <= j < i ==> (specs[j].key in ready <==> IsReady(specs[j], pending))
    {
      if specs[i].key in pending && !(specs[i].parent.Some? && specs[i].parent.value in pending) {
        ready := ready + {specs[i].key};
      }
      i := i + 1;
    }
  }

  ghost predicate IsOrderOf(order: seq<Spec>, specs: seq<Spec>) {
    multiset(order) == multiset(specs) && KeysDistinct(order) && ParentsFirst(order, KeysOf(specs))
  }

  // ---------- analysis of the rows ----------

  function CountOf(rows: seq<Row>, code: Key): nat {
    if rows == [] then 0 else CountOf(rows[..|rows| - 1], code) + if rows[|rows| - 1].code == code then 1 else 0
  }

  /** Rows without a usable key take no part in the proposed hierarchy. */
  predicate Skipped(rows: seq<Row>, row: Row) {
    row.code == "" || CountOf(rows, row.code) > 1
  }

  /** Empty cells of an update keep the present name and parent. */
  function SpecOf(tree: Hierarchy, row: Row): Spec {
    Spec(row.code,
         if row.name == "" && row.code in tree then tree[row.code].name else row.name,
         if row.parentCode != "" then Some(row.parentCode)
         else if row.code in tree then tree[row.code].parent
         else None)
  }

  predicate LocalError(tree: Hierarchy, rows: seq<Row>, row: Row, error: RowError) {
    var parent := SpecOf(tree, row).parent;
    match error
    case CodeRequired => row.code == ""
    case DuplicateCode => row.code != "" && CountOf(rows, row.code) > 1
    case NameRequired => row.name == "" && row.code !in tree
    case SelfParent => !Skipped(rows, row) && parent == Some(row.code)
    case MissingParent =>
      !Skipped(rows, row) && parent.Some? && parent.value != row.code && parent.value !in tree
      && CountOf(rows, parent.value) == 0
    case ParentRowInvalid =>
      !Skipped(rows, row) && parent.Some? && parent.value != row.code && CountOf(rows, parent.value) > 1
    case _ => false
  }

  ghost predicate NameClash(tree: Hierarchy, rows: seq<Row>, i: nat)
    requires i < |rows|
  {
    var name := SpecOf(tree, rows[i]).name;
    && !Skipped(rows, rows[i])
    && (|| (exists d :: d in tree && d != rows[i].code && tree[d].name == name)
        || (name != "" && exists j ::
              0 <= j < |rows| && j != i && !Skipped(rows, rows[j]) && SpecOf(tree, rows[j]).name == name))
  }

  predicate IsRowKey(rows: seq<Row>, key: Key) {
    exists j :: 0 <= j < |rows| && rows[j].code == key && !Skipped(rows, rows[j])
  }

  /** The whole hierarchy as it would be, with the rows before `n` applied. */
  function Proposed(tree: Hierarchy, rows: seq<Row>, n: nat): Parents
    requires n <= |rows|
  {
    if n == 0 then ParentsOf(tree)
    else
      var before, row := Proposed(tree, rows, n - 1), rows[n - 1];
      var parent := SpecOf(tree, row).parent;
      if Skipped(rows, row) || (parent.Some? && parent.value !in tree && !IsRowKey(rows, parent.value)) then before
      else before[row.code := parent]
  }

  /** A row on a cycle; and every row, when the cycles are all outside the file. */
  ghost predicate CycleError(tree: Hierarchy, rows: seq<Row>, i: nat)
    requires i < |rows|
  {
    var proposed := Proposed(tree, rows, |rows|);
    && !Skipped(rows, rows[i])
    && (|| OnCycle(proposed, rows[i].code)
        || (!Acyclic(proposed)
            && forall j :: 0 <= j < |rows| && !Skipped(rows, rows[j]) ==> !OnCycle(proposed, rows[j].code)))
  }

  ghost predicate HasError(tree: Hierarchy, rows: seq<Row>, i: nat, error: RowError)
    requires i < |rows|
  {
    match error
    case DuplicateName => NameClash(tree, rows, i)
    case HierarchyCycle => CycleError(tree, rows, i)
    case _ => LocalError(tree, rows, rows[i], error)
  }

  ghost predicate ErrorFree(tree: Hierarchy, rows: seq<Row>) {
    forall i, e :: 0 <= i < |rows| ==> !HasError(tree, rows, i, e)
  }

  method CountCodes(rows: seq<Row>) returns (counts: map<Key, nat>)
    ensures forall k :: k in counts <==> CountOf(rows, k) > 0
    ensures forall k :: k in counts ==> counts[k] == CountOf(rows, k)
  {
    counts := map[];
    var i := 0;
    while i < |rows|
      invariant 0 <= i <= |rows|
      invariant forall k :: k in counts <==> CountOf(rows[..i], k) > 0
      invariant forall k :: k in counts ==> counts[k] == CountOf(rows[..i], k)
    {
      assert rows[..i + 1][..i] == rows[..i];
      var code := rows[i].code;
      counts := counts[code := (if code in counts then counts[code] else 0) + 1];
      i := i + 1;
    }
    assert rows[..i] == rows;
  }

  lemma {:induction false} Counted(rows: seq<Row>, i: nat)
    requires i < |rows|
    ensures CountOf(rows, rows[i].code) > 0
  {
    if i < |rows| - 1 { Counted(rows[..|rows| - 1], i); }
  }

  /** The checks of one row on its own. */
  method CheckRow(tree: Hierarchy, rows: seq<Row>, counts: map<Key, nat>, row: Row)
    returns (errors: set<RowError>, spec: Option<Spec>)
    requires row in rows
    requires forall k :: k in counts <==> CountOf(rows, k) > 0
    requires forall k :: k in counts ==> counts[k] == CountOf(rows, k)
    ensures forall e :: e in errors <==> LocalError(tree, rows, row, e)
    ensures spec == if Skipped(rows, row) then None else Some(SpecOf(tree, row))
  {
    var i :| 0 <= i < |rows| && rows[i] == row;
    Counted(rows, i);
    errors := {};
    if row.code == "" {
      errors := errors + {CodeRequired};
    } else if counts[row.code] > 1 {
      errors := errors + {DuplicateCode};
    }
    var name := row.name;
    if name == "" && row.code in tree {
      name := tree[row.code].name;
    } else if name == "" {
      errors := errors + {NameRequired};
    }
    if row.code == "" || counts[row.code] > 1 { return errors, None; }
    var parent := None;
    if row.parentCode != "" {
      parent := Some(row.parentCode);
    } else if row.code in tree {
      parent := tree[row.code].parent;
    }
    if parent == Some(row.code) {
      errors := errors + {SelfParent};
    } else if parent.Some? {
      if parent.value !in tree && parent.value !in counts {
        errors := errors + {MissingParent};
      } else if parent.value in counts && counts[parent.value] > 1 {
        errors := errors + {ParentRowInvalid};
      }
    }
    return errors, Some(Spec(row.code, name, parent));
  }

  /** The specifications of the rows that take part, each with its row number. */
  ghost predicate SpecsOf(tree: Hierarchy, rows: seq<Row>, specs: seq<Option<Spec>>) {
    && |specs| == |rows|
    && forall i :: 0 <= i < |rows| ==> specs[i] == if Skipped(rows, rows[i]) then None else Some(SpecOf(tree, rows[i]))
  }

  /** The graph check's input: the present parents overlaid with those of the rows. */
  method ProposedParents(tree: Hierarchy, rows: seq<Row>, specs: seq<Option<Spec>>) returns (proposed: Parents)
    requires SpecsOf(tree, rows, specs)
    ensures proposed == Proposed(tree, rows, |rows|)
  {
    var rowKeys := set i | 0 <= i < |specs| && specs[i].Some? :: specs[i].value.key;
    proposed := map c | c in tree :: tree[c].parent;
    var i := 0;
    while i < |specs|
      invariant 0 <= i <= |specs| && proposed == Proposed(tree, rows, i)
    {
      if specs[i].Some? {
        var spec := specs[i].value;
        assert spec.parent.Some? ==> (spec.parent.value in rowKeys <==> IsRowKey(rows, spec.parent.value));
        if !(spec.parent.Some? && spec.parent.value !in tree && spec.parent.value !in rowKeys) {
          proposed := proposed[spec.key := spec.parent];
        }
      }
      i := i + 1;
    }
  }

  /** A name held by another department now, or chosen by another row of the file. */
  method CheckName(tree: Hierarchy, rows: seq<Row>, specs: seq<Option<Spec>>, i: nat) returns (clash: bool)
    requires SpecsOf(tree, rows, specs) && i < |rows|
    ensures clash <==> NameClash(tree, rows, i)
  {
    if specs[i] == None { return false; }
    var spec := specs[i].value;
    if exists d | d in tree :: d != spec.key && tree[d].name == spec.name { return true; }
    if spec.name == "" { return false; }
    var j := 0;
    while j < |specs|
      invariant 0 <= j <= |specs|
      invariant forall k :: 0 <= k < j && k != i && !Skipped(rows, rows[k]) ==> SpecOf(tree, rows[k]).name != spec.name
    {
      if j != i && specs[j].Some? && specs[j].value.name == spec.name { return true; }
      j := j + 1;
    }
    return false;
  }

  /** `_analyze_rows`: the errors of every row, and the specification of each usable one. */
  method AnalyzeRows(tree: Hierarchy, rows: seq<Row>) returns (errors: seq<set<RowError>>, specs: seq<Option<Spec>>)
    ensures |errors| == |rows| && forall i, e :: 0 <= i < |rows| ==> (e in errors[i] <==> HasError(tree, rows, i, e))
    ensures SpecsOf(tree, rows, specs)
  {
    var counts := CountCodes(rows);
    errors, specs := [], [];
    var i := 0;
    while i < |rows|
      invariant 0 <= i <= |rows| && |errors| == |specs| == i
      invariant forall k, e :: 0 <= k < i ==> (e in errors[k] <==> LocalError(tree, rows, rows[k], e))
      invariant forall k ::
                  0 <= k < i ==> specs[k] == if Skipped(rows, rows[k]) then None else Some(SpecOf(tree, rows[k]))
    {
      var found, spec := CheckRow(tree, rows, counts, rows[i]);
      errors, specs := errors + [found], specs + [spec];
      i := i + 1;
    }
    errors := AddNameErrors(tree, rows, specs, errors);
    errors := AddCycleErrors(tree, rows, specs, errors);
  }

  method AddNameErrors(tree: Hierarchy, rows: seq<Row>, specs: seq<Option<Spec>>, before: seq<set<RowError>>)
    returns (errors: seq<set<RowError>>)
    requires SpecsOf(tree, rows, specs) && |before| == |rows|
    ensures |errors| == |rows|
    ensures forall i, e ::
              0 <= i < |rows| ==>
                (e in errors[i] <==> e in before[i] || (e == DuplicateName && NameClash(tree, rows, i)))
  {
    errors := before;
    var i := 0;
    while i < |rows|
      invariant 0 <= i <= |rows| && |errors| == |rows|
      invariant forall k, e ::
                  0 <= k < i ==>
                    (e in errors[k] <==> e in before[k] || (e == DuplicateName && NameClash(tree, rows, k)))
      invariant forall k :: i <= k < |rows| ==> errors[k] == before[k]
    {
      var clash := CheckName(tree, rows, specs, i);
      if clash { errors := errors[i := errors[i] + {DuplicateName}]; }
      i := i + 1;
    }
  }

  method AddCycleErrors(tree: Hierarchy, rows: seq<Row>, specs: seq<Option<Spec>>, before: seq<set<RowError>>)
    returns (errors: seq<set<RowError>>)
    requires SpecsOf(tree, rows, specs) && |before| == |rows|
    ensures |errors| == |rows|
    ensures forall i, e ::
              0 <= i < |rows| ==>
                (e in errors[i] <==> e in before[i] || (e == HierarchyCycle && CycleError(tree, rows, i)))
  {
    var proposed := ProposedParents(tree, rows, specs);
    var nodes := FindCycleNodes(proposed);
    var outside := nodes != {} && forall i | 0 <= i < |specs| :: specs[i].Some? ==> specs[i].value.key !in nodes;
    if nodes != {} { HasKey(nodes); }
    errors := before;
    var i := 0;
    while i < |rows|
      invariant 0 <= i <= |rows| && |errors| == |rows|
      invariant forall k, e ::
                  0 <= k < i ==>
                    (e in errors[k] <==> e in before[k] || (e == HierarchyCycle && CycleError(tree, rows, k)))
      invariant forall k :: i <= k < |rows| ==> errors[k] == before[k]
    {
      if specs[i].Some? && (specs[i].value.key in nodes || outside) {
        errors := errors[i := errors[i] + {HierarchyCycle}];
      }
      i := i + 1;
    }
  }

  // ---------- the save loop ----------

  /** `by_code.get(parent_key) if parent_key else None`: a parent that is not found is none. */
  function FoundParent(now: Hierarchy, parent: Option<Key>): Option<Key> {
    if parent.Some? && parent.value != "" && parent.value in now then parent else None
  }

  function Save(now: Hierarchy, spec: Spec): Hierarchy {
    if spec.key in now && now[spec.key] == Dept(spec.name, spec.parent) then now
    else now[spec.key := Dept(spec.name, FoundParent(now, spec.parent))]
  }

  function SaveAll(tree: Hierarchy, order: seq<Spec>): Hierarchy {
    if order == [] then tree else Save(SaveAll(tree, order[..|order| - 1]), order[|order| - 1])
  }

  /** What error-free rows amount to. */
  ghost predicate GoodSpecs(tree: Hierarchy, specs: seq<Spec>) {
    && KeysDistinct(specs)
    && (forall i :: 0 <= i < |specs| && specs[i].parent.Some? ==>
          specs[i].parent.value != specs[i].key
          && (specs[i].parent.value in tree || specs[i].parent.value in KeysOf(specs)))
    && (forall i, d :: 0 <= i < |specs| && d in tree && d != specs[i].key ==> tree[d].name != specs[i].name)
    && (forall i, j :: 0 <= i < |specs| && 0 <= j < |specs| && i != j ==> specs[i].name != specs[j].name)
  }

  lemma OrderedRows(order: seq<Spec>, specs: seq<Spec>, x: Spec)
    requires multiset(order) == multiset(specs)
    ensures x in order <==> x in specs
  {
    assert x in order <==> x in multiset(order);
    assert x in specs <==> x in multiset(specs);
  }

  /** The state between two saves: saved rows as in the file, everything else as before. */
  ghost predicate Between(tree: Hierarchy, order: seq<Spec>, k: nat, now: Hierarchy)
    requires k <= |order|
  {
    && (forall j :: 0 <= j < k ==> order[j].key in now && now[order[j].key] == Dept(order[j].name, order[j].parent))
    && (forall c :: c in now ==> c in tree || exists j :: 0 <= j < k && order[j].key == c)
    && (forall c :: c in tree ==> c in now && ((forall j :: 0 <= j < k ==> order[j].key != c) ==> now[c] == tree[c]))
  }

  lemma ParentIsThere(tree: Hierarchy, specs: seq<Spec>, order: seq<Spec>, k: nat, now: Hierarchy)
    requires GoodSpecs(tree, specs) && IsOrderOf(order, specs)
    requires "" !in tree && k < |order| && Between(tree, order, k, now)
    ensures FoundParent(now, order[k].parent) == order[k].parent
  {
    OrderedRows(order, specs, order[k]);
    var i :| 0 <= i < |specs| && specs[i] == order[k];
    if order[k].parent.Some? {
      var p := order[k].parent.value;
      if p in KeysOf(specs) {
        assert Placed(order, k, p);
        var j :| 0 <= j < k && order[j].key == p;
        assert order[j].key in now;
      }
    }
  }

  lemma SaveBetween(tree: Hierarchy, specs: seq<Spec>, order: seq<Spec>, k: nat, now: Hierarchy)
    requires GoodSpecs(tree, specs) && IsOrderOf(order, specs)
    requires "" !in tree && k < |order| && Between(tree, order, k, now)
    ensures Between(tree, order, k + 1, Save(now, order[k]))
  {
    ParentIsThere(tree, specs, order, k, now);
    var later := Save(now, order[k]);
    assert later[order[k].key] == Dept(order[k].name, order[k].parent);
    forall c | c in later ensures c in tree || exists j :: 0 <= j < k + 1 && order[j].key == c {
      if c == order[k].key { assert order[k].key == c; }
    }
  }

  lemma BetweenAtStart(tree: Hierarchy, order: seq<Spec>)
    ensures Between(tree, order, 0, SaveAll(tree, order[..0]))
  {
    assert order[..0] == [];
  }

  lemma {:induction false} EverySaveBetween(tree: Hierarchy, specs: seq<Spec>, order: seq<Spec>, k: nat)
    requires GoodSpecs(tree, specs) && IsOrderOf(order, specs) && "" !in tree && k <= |order|
    ensures Between(tree, order, k, SaveAll(tree, order[..k]))
  {
    if k == 0 {
      BetweenAtStart(tree, order);
    } else {
      var before := SaveAll(tree, order[..k - 1]);
      SaveAllNext(tree, order, k - 1);
      assert SaveAll(tree, order[..k]) == Save(before, order[k - 1]);
      EverySaveBetween(tree, specs, order, k - 1);
      SaveBetween(tree, specs, order, k - 1, before);
    }
  }

  lemma SaveAllNext(tree: Hierarchy, order: seq<Spec>, k: nat)
    requires k < |order|
    ensures SaveAll(tree, order[..k + 1]) == Save(SaveAll(tree, order[..k]), order[k])
  {
    assert order[..k + 1][..k] == order[..k];
  }

  lemma BetweenNames(tree: Hierarchy, specs: seq<Spec>, order: seq<Spec>, k: nat, now: Hierarchy)
    requires GoodSpecs(tree, specs) && IsOrderOf(order, specs) && NamesUnique(tree) && k <= |order|
             && Between(tree, order, k, now)
    ensures NamesUnique(now)
  {
    forall c, d | c in now && d in now && c != d ensures now[c].name != now[d].name {
      NamesDiffer(tree, specs, order, k, now, c, d);
    }
  }

  lemma NamesDiffer(tree: Hierarchy, specs: seq<Spec>, order: seq<Spec>, k: nat, now: Hierarchy, c: Key, d: Key)
    requires GoodSpecs(tree, specs) && IsOrderOf(order, specs) && NamesUnique(tree) && k <= |order|
             && Between(tree, order, k, now)
    requires c in now && d in now && c != d
    ensures now[c].name != now[d].name
  {
    if i :| 0 <= i < k && order[i].key == c {
      OrderedRows(order, specs, order[i]);
      var a :| 0 <= a < |specs| && specs[a] == order[i];
      if j :| 0 <= j < k && order[j].key == d {
        OrderedRows(order, specs, order[j]);
        var b :| 0 <= b < |specs| && specs[b] == order[j];
        assert a != b;
      }
    } else if j :| 0 <= j < k && order[j].key == d {
      OrderedRows(order, specs, order[j]);
      var b :| 0 <= b < |specs| && specs[b] == order[j];
    }
  }

  lemma BetweenParents(tree: Hierarchy, specs: seq<Spec>, order: seq<Spec>, k: nat, now: Hierarchy)
    requires GoodSpecs(tree, specs) && IsOrderOf(order, specs)
    requires "" !in tree && ParentsExist(tree) && k <= |order| && Between(tree, order, k, now)
    ensures ParentsExist(now) && "" !in now
  {
    forall c | c in now && now[c].parent.Some? ensures now[c].parent.value in now {
      if j :| 0 <= j < k && order[j].key == c {
        OrderedRows(order, specs, order[j]);
        var i :| 0 <= i < |specs| && specs[i] == order[j];
        if order[j].parent.value in KeysOf(specs) {
          assert Placed(order, j, order[j].parent.value);
          var m :| 0 <= m < j && order[m].key == order[j].parent.value;
          assert order[m].key in now;
        }
      } else {
        assert now[c] == tree[c];
      }
    }
  }

  /** After every single save the names are unique, every parent exists, every saved row
      has exactly the parent of the file, and the other departments are untouched. */
  lemma EverySaveSound(tree: Hierarchy, specs: seq<Spec>, order: seq<Spec>, k: nat)
    requires Sound(tree) && GoodSpecs(tree, specs) && IsOrderOf(order, specs) && k <= |order|
    ensures Sound(SaveAll(tree, order[..k])) && Between(tree, order, k, SaveAll(tree, order[..k]))
  {
    EverySaveBetween(tree, specs, order, k);
    BetweenNames(tree, specs, order, k, SaveAll(tree, order[..k]));
    BetweenParents(tree, specs, order, k, SaveAll(tree, order[..k]));
  }

  // ---------- error-free rows ----------

  function Rows(tree: Hierarchy, rows: seq<Row>): (specs: seq<Spec>)
    ensures |specs| == |rows| && forall i :: 0 <= i < |rows| ==> specs[i] == SpecOf(tree, rows[i])
  {
    seq(|rows|, i requires 0 <= i < |rows| => SpecOf(tree, rows[i]))
  }

  lemma NothingSkipped(tree: Hierarchy, rows: seq<Row>, i: nat)
    requires ErrorFree(tree, rows) && i < |rows|
    ensures !Skipped(rows, rows[i])
  {
    assert !HasError(tree, rows, i, CodeRequired);
    assert !HasError(tree, rows, i, DuplicateCode);
  }

  lemma {:induction false} CountTwice(rows: seq<Row>, i: nat, j: nat)
    requires i < j < |rows| && rows[i].code == rows[j].code
    ensures CountOf(rows, rows[i].code) > 1
  {
    var init := rows[..|rows| - 1];
    if j < |init| {
      assert init[i] == rows[i] && init[j] == rows[j];
      CountTwice(init, i, j);
    } else {
      assert init[i] == rows[i];
      Counted(init, i);
    }
  }

  lemma {:induction false} CountPositive(rows: seq<Row>, code: Key)
    requires CountOf(rows, code) > 0
    ensures exists i :: 0 <= i < |rows| && rows[i].code == code
  {
    if rows[|rows| - 1].code != code {
      CountPositive(rows[..|rows| - 1], code);
      var i :| 0 <= i < |rows| - 1 && rows[..|rows| - 1][i].code == code;
      assert rows[i].code == code;
    }
  }

  lemma RowsDistinct(tree: Hierarchy, rows: seq<Row>)
    requires ErrorFree(tree, rows)
    ensures KeysDistinct(Rows(tree, rows))
  {
    var specs := Rows(tree, rows);
    forall i | 0 <= i < |specs| ensures specs[i].key != "" { NothingSkipped(tree, rows, i); }
    forall i, j | 0 <= i < j < |specs| ensures specs[i].key != specs[j].key {
      NothingSkipped(tree, rows, i);
      if specs[i].key == specs[j].key { CountTwice(rows, i, j); }
    }
  }

  lemma RowParent(tree: Hierarchy, rows: seq<Row>, i: nat)
    requires ErrorFree(tree, rows) && i < |rows| && SpecOf(tree, rows[i]).parent.Some?
    ensures var p := SpecOf(tree, rows[i]).parent.value;
            p != rows[i].code && (p in tree || p in KeysOf(Rows(tree, rows)))
  {
    NothingSkipped(tree, rows, i);
    var p := SpecOf(tree, rows[i]).parent.value;
    assert !HasError(tree, rows, i, SelfParent);
    assert !HasError(tree, rows, i, MissingParent);
    if p !in tree {
      CountPositive(rows, p);
      var j :| 0 <= j < |rows| && rows[j].code == p;
      assert Rows(tree, rows)[j].key == p;
    }
  }

  lemma RowNames(tree: Hierarchy, rows: seq<Row>, i: nat, j: nat)
    requires ErrorFree(tree, rows) && NamesUnique(tree) && i < |rows| && j < |rows| && i != j
    ensures SpecOf(tree, rows[i]).name != SpecOf(tree, rows[j]).name
  {
    NothingSkipped(tree, rows, i);
    NothingSkipped(tree, rows, j);
    assert !HasError(tree, rows, i, DuplicateName);
    assert !HasError(tree, rows, i, NameRequired);
    assert !HasError(tree, rows, j, NameRequired);
    if rows[i].code == rows[j].code {
      if i < j { CountTwice(rows, i, j); } else { CountTwice(rows, j, i); }
    }
    assert rows[i].code != rows[j].code;
  }

  lemma ErrorFreeIsGood(tree: Hierarchy, rows: seq<Row>)
    requires ErrorFree(tree, rows) && NamesUnique(tree)
    ensures GoodSpecs(tree, Rows(tree, rows))
  {
    var specs := Rows(tree, rows);
    RowsDistinct(tree, rows);
    forall i | 0 <= i < |specs| && specs[i].parent.Some?
      ensures specs[i].parent.value != specs[i].key
              && (specs[i].parent.value in tree || specs[i].parent.value in KeysOf(specs))
    {
      RowParent(tree, rows, i);
    }
    forall i, d | 0 <= i < |specs| && d in tree && d != specs[i].key ensures tree[d].name != specs[i].name {
      NothingSkipped(tree, rows, i);
      assert !HasError(tree, rows, i, DuplicateName);
    }
    forall i, j | 0 <= i < |specs| && 0 <= j < |specs| && i != j ensures specs[i].name != specs[j].name {
      RowNames(tree, rows, i, j);
    }
  }

  lemma ErrorFreeIsAcyclic(tree: Hierarchy, rows: seq<Row>)
    requires ErrorFree(tree, rows) && rows != []
    ensures Acyclic(Proposed(tree, rows, |rows|))
  {
    forall j | 0 <= j < |rows| && !Skipped(rows, rows[j]) ensures !OnCycle(Proposed(tree, rows, |rows|), rows[j].code) {
      assert !HasError(tree, rows, j, HierarchyCycle);
    }
    NothingSkipped(tree, rows, 0);
    assert !HasError(tree, rows, 0, HierarchyCycle);
  }

  // ---------- the whole import ----------

  /** The present parents overlaid by those of the rows before `n`. */
  ghost predicate Overlaid(tree: Hierarchy, rows: seq<Row>, n: nat, parents: Parents)
    requires n <= |rows|
  {
    && (forall j :: 0 <= j < n ==> rows[j].code in parents && parents[rows[j].code] == SpecOf(tree, rows[j]).parent)
    && (forall c :: c in parents ==> c in tree || IsCode(rows[..n], c))
    && (forall c :: c in tree ==> c in parents && (!IsCode(rows[..n], c) ==> parents[c] == tree[c].parent))
  }

  ghost predicate IsCode(rows: seq<Row>, code: Key) {
    exists j :: 0 <= j < |rows| && rows[j].code == code
  }

  lemma OneMoreCode(rows: seq<Row>, n: nat, code: Key)
    requires n < |rows|
    ensures IsCode(rows[..n + 1], code) <==> IsCode(rows[..n], code) || rows[n].code == code
  {
    if IsCode(rows[..n], code) {
      var j :| 0 <= j < n && rows[..n][j].code == code;
      assert rows[..n + 1][j].code == code;
    }
    assert rows[..n + 1][n] == rows[n];
  }

  lemma OverlaidNext(tree: Hierarchy, rows: seq<Row>, n: nat, before: Parents)
    requires n < |rows| && Overlaid(tree, rows, n, before) && forall j :: 0 <= j < n ==> rows[j].code != rows[n].code
    ensures Overlaid(tree, rows, n + 1, before[rows[n].code := SpecOf(tree, rows[n]).parent])
  {
    forall c
      ensures IsCode(rows[..n + 1], c) <==> IsCode(rows[..n], c) || rows[n].code == c
    {
      OneMoreCode(rows, n, c);
    }
  }

  lemma RowApplies(tree: Hierarchy, rows: seq<Row>, n: nat)
    requires ErrorFree(tree, rows) && n < |rows|
    ensures Proposed(tree, rows, n + 1) == Proposed(tree, rows, n)[rows[n].code := SpecOf(tree, rows[n]).parent]
  {
    NothingSkipped(tree, rows, n);
    if SpecOf(tree, rows[n]).parent.Some? {
      RowParent(tree, rows, n);
      var p := SpecOf(tree, rows[n]).parent.value;
      if p !in tree {
        var j :| 0 <= j < |rows| && Rows(tree, rows)[j].key == p;
        NothingSkipped(tree, rows, j);
        assert rows[j].code == p;
      }
    }
  }

  ghost predicate CodesDistinct(rows: seq<Row>) {
    forall i, j :: 0 <= i < j < |rows| ==> rows[i].code != rows[j].code
  }

  ghost predicate AllApply(tree: Hierarchy, rows: seq<Row>) {
    forall n :: 0 <= n < |rows| ==> Applied(tree, rows, n)
  }

  ghost predicate Applied(tree: Hierarchy, rows: seq<Row>, n: nat)
    requires n < |rows|
  {
    Proposed(tree, rows, n + 1) == Proposed(tree, rows, n)[rows[n].code := SpecOf(tree, rows[n]).parent]
  }

  lemma {:induction false} AppliedOverlay(tree: Hierarchy, rows: seq<Row>, n: nat)
    requires CodesDistinct(rows) && AllApply(tree, rows) && n <= |rows|
    ensures Overlaid(tree, rows, n, Proposed(tree, rows, n))
  {
    if n > 0 {
      AppliedOverlay(tree, rows, n - 1);
      OverlaidNext(tree, rows, n - 1, Proposed(tree, rows, n - 1));
      assert Applied(tree, rows, n - 1);
    }
  }

  /** With error-free rows the proposed parents are the present ones overlaid by the file's. */
  lemma ProposedIs(tree: Hierarchy, rows: seq<Row>)
    requires ErrorFree(tree, rows)
    ensures Overlaid(tree, rows, |rows|, Proposed(tree, rows, |rows|)) && rows[..|rows|] == rows
  {
    RowsDistinct(tree, rows);
    forall i, j | 0 <= i < j < |rows| ensures rows[i].code != rows[j].code {
      assert Rows(tree, rows)[i].key != Rows(tree, rows)[j].key;
    }
    forall n | 0 <= n < |rows| ensures Applied(tree, rows, n) { RowApplies(tree, rows, n); }
    AppliedOverlay(tree, rows, |rows|);
  }

  lemma SavedCodes(tree: Hierarchy, rows: seq<Row>, order: seq<Spec>, now: Hierarchy)
    requires multiset(order) == multiset(Rows(tree, rows)) && Between(tree, order, |order|, now)
    ensures forall i ::
              0 <= i < |rows| ==> rows[i].code in now && now[rows[i].code].parent == SpecOf(tree, rows[i]).parent
    ensures forall j :: 0 <= j < |order| ==> IsCode(rows, order[j].key)
  {
    var specs := Rows(tree, rows);
    forall i | 0 <= i < |rows| ensures rows[i].code in now && now[rows[i].code].parent == SpecOf(tree, rows[i]).parent {
      OrderedRows(order, specs, specs[i]);
      var j :| 0 <= j < |order| && order[j] == specs[i];
    }
    forall j | 0 <= j < |order| ensures IsCode(rows, order[j].key) {
      OrderedRows(order, specs, order[j]);
      var i :| 0 <= i < |specs| && specs[i] == order[j];
      assert rows[i].code == order[j].key;
    }
  }

  lemma FinalParents(tree: Hierarchy, rows: seq<Row>, order: seq<Spec>, now: Hierarchy)
    requires ErrorFree(tree, rows) && multiset(order) == multiset(Rows(tree, rows))
             && Between(tree, order, |order|, now)
    ensures ParentsOf(now) == Proposed(tree, rows, |rows|)
  {
    ProposedIs(tree, rows);
    SavedCodes(tree, rows, order, now);
    OverlaidIsSaved(tree, rows, order, now, Proposed(tree, rows, |rows|));
  }

  lemma OverlaidIsSaved(tree: Hierarchy, rows: seq<Row>, order: seq<Spec>, now: Hierarchy, parents: Parents)
    requires Between(tree, order, |order|, now) && Overlaid(tree, rows, |rows|, parents) && rows[..|rows|] == rows
    requires forall i ::
               0 <= i < |rows| ==> rows[i].code in now && now[rows[i].code].parent == SpecOf(tree, rows[i]).parent
    requires forall j :: 0 <= j < |order| ==> IsCode(rows, order[j].key)
    ensures ParentsOf(now) == parents
  {
    forall c | c in now ensures c in parents && now[c].parent == parents[c] {
      if IsCode(rows, c) {
        var i :| 0 <= i < |rows| && rows[i].code == c;
      } else {
        assert c in tree && now[c] == tree[c];
      }
    }
    forall c | c in parents ensures c in now {
      if IsCode(rows, c) { var i :| 0 <= i < |rows| && rows[i].code == c; }
    }
  }

  /** What the rows ask for, read off the file: a filled cell sets the value, an empty one keeps
      the present value, and an empty parent of a new department makes it a root. */
  predicate RowHonoured(tree: Hierarchy, row: Row, dept: Dept) {
    && (row.name != "" ==> dept.name == row.name)
    && (row.name == "" && row.code in tree ==> dept.name == tree[row.code].name)
    && (row.parentCode != "" ==> dept.parent == Some(row.parentCode))
    && (row.parentCode == "" && row.code in tree ==> dept.parent == tree[row.code].parent)
    && (row.parentCode == "" && row.code !in tree ==> dept.parent == None)
  }

  /** Every row is honoured and every department that the file does not name is as before. */
  ghost predicate AsAsked(tree: Hierarchy, rows: seq<Row>, saved: Hierarchy) {
    && (forall i :: 0 <= i < |rows| ==> rows[i].code in saved && RowHonoured(tree, rows[i], saved[rows[i].code]))
    && (forall c :: c in saved ==> c in tree || IsCode(rows, c))
    && (forall c :: c in tree ==> c in saved && (!IsCode(rows, c) ==> saved[c] == tree[c]))
  }

  lemma SavedAsAsked(tree: Hierarchy, rows: seq<Row>, order: seq<Spec>, saved: Hierarchy)
    requires multiset(order) == multiset(Rows(tree, rows)) && Between(tree, order, |order|, saved)
    ensures AsAsked(tree, rows, saved)
  {
    var specs := Rows(tree, rows);
    SavedCodes(tree, rows, order, saved);
    forall i | 0 <= i < |rows| ensures rows[i].code in saved && RowHonoured(tree, rows[i], saved[rows[i].code]) {
      OrderedRows(order, specs, specs[i]);
      var j :| 0 <= j < |order| && order[j] == specs[i];
    }
  }

  /** The departments that the file creates, changes and leaves as they are. */
  function Created(tree: Hierarchy, saved: Hierarchy): set<Key> {
    saved.Keys - tree.Keys
  }

  function Changed(tree: Hierarchy, saved: Hierarchy): set<Key> {
    set c | c in tree && c in saved && saved[c] != tree[c]
  }

  /** The three counts of an import after its first rows. */
  predicate Tallied(tree: Hierarchy, now: Hierarchy, rows: nat, created: nat, updated: nat, kept: int) {
    created == |Created(tree, now)| && updated == |Changed(tree, now)| && kept == rows - created - updated
  }

  /** The rows' own parent map, cut out of the proposed one, has no cycle: the order never fails. */
  lemma RowsCanBeOrdered(tree: Hierarchy, rows: seq<Row>) returns (parents: Parents)
    requires ErrorFree(tree, rows) && rows != []
    ensures Describes(parents, Rows(tree, rows)) && Acyclic(parents)
  {
    var proposed, specs := Proposed(tree, rows, |rows|), Rows(tree, rows);
    ProposedIs(tree, rows);
    ErrorFreeIsAcyclic(tree, rows);
    parents := map c | c in proposed && c in KeysOf(specs) :: proposed[c];
    forall i | 0 <= i < |specs| ensures specs[i].key in parents && parents[specs[i].key] == specs[i].parent {
      assert specs[i].key == rows[i].code;
    }
    PartOfAcyclic(parents, proposed);
  }

  /** `commit_department_import`: all rows or none, saved in the layered order. */
  method CommitDepartmentImport(tree: Hierarchy, rows: seq<Row>)
    returns (accepted: bool, saved: Hierarchy, created: nat, updated: nat, kept: nat)
    requires Sound(tree)
    ensures accepted <==> rows != [] && ErrorFree(tree, rows)
    ensures !accepted ==> saved == tree
    ensures accepted ==> Sound(saved) && ParentsOf(saved) == Proposed(tree, rows, |rows|) && Acyclic(ParentsOf(saved))
    ensures accepted ==>
              IsOrderOf(SaveOrder(Rows(tree, rows)), Rows(tree, rows))
              && saved == SaveAll(tree, SaveOrder(Rows(tree, rows)))
    ensures accepted ==> AsAsked(tree, rows, saved)
    ensures accepted ==> Tallied(tree, saved, |rows|, created, updated, kept)
  {
    saved, created, updated, kept := tree, 0, 0, 0;
    accepted := false;
    if rows == [] { return; }
    var errors, found := AnalyzeRows(tree, rows);
    if exists i | 0 <= i < |errors| :: errors[i] != {} {
      var i :| 0 <= i < |errors| && errors[i] != {};
      HasRowError(errors[i]);
      return;
    }
    assert ErrorFree(tree, rows) by {
      forall i, e | 0 <= i < |rows| ensures !HasError(tree, rows, i, e) { assert e !in errors[i]; }
    }
    forall i | 0 <= i < |rows| ensures found[i].Some? { NothingSkipped(tree, rows, i); }
    var specs := seq(|rows|, i requires 0 <= i < |rows| && |found| == |rows|
        && (forall k :: 0 <= k < |found| ==> found[k].Some?) => found[i].value);
    assert specs == Rows(tree, rows);
    accepted := true;
    saved, created, updated, kept := SaveImport(tree, rows, specs);
  }

  /** Orders and saves the rows of an error-free file. */
  method SaveImport(tree: Hierarchy, rows: seq<Row>, specs: seq<Spec>)
    returns (saved: Hierarchy, created: nat, updated: nat, kept: nat)
    requires Sound(tree) && rows != [] && ErrorFree(tree, rows) && specs == Rows(tree, rows)
    ensures Sound(saved) && ParentsOf(saved) == Proposed(tree, rows, |rows|) && Acyclic(ParentsOf(saved))
    ensures IsOrderOf(SaveOrder(specs), specs) && saved == SaveAll(tree, SaveOrder(specs))
    ensures AsAsked(tree, rows, saved)
    ensures Tallied(tree, saved, |rows|, created, updated, kept)
  {
    ghost var parents := RowsCanBeOrdered(tree, rows);
    RowsDistinct(tree, rows);
    var sorted := DependencyOrder(specs, parents);
    SameLength(sorted.value, specs);
    ErrorFreeIsGood(tree, rows);
    saved, created, updated, kept := SaveRows(tree, sorted.value, specs);
    AllSaved(tree, rows, sorted.value, saved);
    AllAsAsked(tree, rows, sorted.value, saved);
  }

  lemma AllAsAsked(tree: Hierarchy, rows: seq<Row>, order: seq<Spec>, saved: Hierarchy)
    requires Sound(tree) && ErrorFree(tree, rows) && IsOrderOf(order, Rows(tree, rows)) && saved == SaveAll(tree, order)
    ensures AsAsked(tree, rows, saved)
  {
    ErrorFreeIsGood(tree, rows);
    EverySaveBetween(tree, Rows(tree, rows), order, |order|);
    assert order[..|order|] == order;
    SavedAsAsked(tree, rows, order, saved);
  }

  lemma AllSaved(tree: Hierarchy, rows: seq<Row>, order: seq<Spec>, saved: Hierarchy)
    requires Sound(tree) && rows != [] && ErrorFree(tree, rows) && IsOrderOf(order, Rows(tree, rows))
             && saved == SaveAll(tree, order)
    ensures Sound(saved) && ParentsOf(saved) == Proposed(tree, rows, |rows|) && Acyclic(ParentsOf(saved))
  {
    ErrorFreeIsGood(tree, rows);
    EverySaveSound(tree, Rows(tree, rows), order, |order|);
    assert order[..|order|] == order;
    FinalParents(tree, rows, order, saved);
    ErrorFreeIsAcyclic(tree, rows);
  }

  lemma HasRowError(errors: set<RowError>)
    requires errors != {}
    ensures exists e :: e in errors
  {
    assert (exists e :: e in errors) || errors == {};
  }

  lemma SameLength(a: seq<Spec>, b: seq<Spec>)
    requires multiset(a) == multiset(b)
    ensures |a| == |b|
  {
    assert |multiset(a)| == |a| && |multiset(b)| == |b|;
  }

  /** One turn of the loop; `operation` in the source compares with the tree as it was read. */
  method SaveRow(tree: Hierarchy, now: Hierarchy, spec: Spec) returns (later: Hierarchy, made: bool, changed: bool)
    requires spec.key in now ==> spec.key in tree && now[spec.key] == tree[spec.key]
    requires FoundParent(now, spec.parent) == spec.parent
    ensures later == Save(now, spec) && (made <==> spec.key !in now)
    ensures changed <==> spec.key in now && later[spec.key] != tree[spec.key]
  {
    var parent := None;
    if spec.parent.Some? && spec.parent.value != "" && spec.parent.value in now { parent := spec.parent; }
    later, made, changed := now, false, false;
    if spec.key !in now {
      later, made := now[spec.key := Dept(spec.name, parent)], true;
    } else if tree[spec.key].name != spec.name || tree[spec.key].parent != spec.parent {
      later, changed := now[spec.key := Dept(spec.name, parent)], true;
    }
  }

  lemma OneMoreKey(keys: set<Key>, present: set<Key>, key: Key)
    requires key !in keys ==> key !in present
    ensures |keys + {key} - present| == |keys - present| + if key !in keys then 1 else 0
  {
    if key in keys {
      assert keys + {key} == keys;
    } else {
      assert keys + {key} - present == (keys - present) + {key};
    }
  }

  lemma CreatedNext(tree: Hierarchy, now: Hierarchy, key: Key, dept: Dept)
    requires key !in now ==> key !in tree
    ensures |Created(tree, now[key := dept])| == |Created(tree, now)| + if key !in now then 1 else 0
  {
    assert now[key := dept].Keys == now.Keys + {key};
    OneMoreKey(now.Keys, tree.Keys, key);
  }

  lemma ChangedNext(tree: Hierarchy, now: Hierarchy, key: Key, dept: Dept)
    requires key in now ==> key in tree && now[key] == tree[key]
    requires key !in now ==> key !in tree
    ensures |Changed(tree, now[key := dept])| ==
            |Changed(tree, now)| + if key in now && dept != tree[key] then 1 else 0
  {
    var later := now[key := dept];
    if key in now && dept != tree[key] {
      assert Changed(tree, later) == Changed(tree, now) + {key};
    } else {
      assert Changed(tree, later) == Changed(tree, now);
    }
  }

  /** How the two sets grow with one more row saved. */
  lemma OneMoreSaved(tree: Hierarchy, now: Hierarchy, spec: Spec)
    requires spec.key in now ==> spec.key in tree && now[spec.key] == tree[spec.key]
    requires spec.key !in now ==> spec.key !in tree
    ensures var later := Save(now, spec);
            && |Created(tree, later)| == |Created(tree, now)| + (if spec.key !in now then 1 else 0)
            && |Changed(tree, later)| ==
               |Changed(tree, now)| + (if spec.key in now && later[spec.key] != tree[spec.key] then 1 else 0)
  {
    var later := Save(now, spec);
    assert later == now[spec.key := later[spec.key]];
    CreatedNext(tree, now, spec.key, later[spec.key]);
    ChangedNext(tree, now, spec.key, later[spec.key]);
  }

  /** One row saved adds to exactly one of the three counts. */
  lemma TalliedNext(tree: Hierarchy, now: Hierarchy, spec: Spec, rows: nat, created: nat, updated: nat, kept: int)
    requires Tallied(tree, now, rows, created, updated, kept)
    requires spec.key in now ==> spec.key in tree && now[spec.key] == tree[spec.key]
    requires spec.key !in now ==> spec.key !in tree
    ensures var later := Save(now, spec);
            var made, changed := spec.key !in now, spec.key in now && later[spec.key] != tree[spec.key];
            Tallied(tree, later, rows + 1, created + (if made then 1 else 0), updated + (if changed then 1 else 0),
                    kept + (if made || changed then 0 else 1))
  {
    OneMoreSaved(tree, now, spec);
  }

  /** The first rows of the order are saved. */
  ghost predicate SavedSoFar(tree: Hierarchy, order: seq<Spec>, i: nat, now: Hierarchy) {
    i <= |order| && now == SaveAll(tree, order[..i])
  }

  lemma SavedNext(tree: Hierarchy, order: seq<Spec>, i: nat, now: Hierarchy)
    requires i < |order| && SavedSoFar(tree, order, i, now)
    ensures SavedSoFar(tree, order, i + 1, Save(now, order[i]))
  {
    SaveAllNext(tree, order, i);
  }

  /** The save loop over the ordered rows. */
  method SaveRows(tree: Hierarchy, order: seq<Spec>, ghost specs: seq<Spec>)
    returns (now: Hierarchy, created: nat, updated: nat, kept: nat)
    requires Sound(tree) && GoodSpecs(tree, specs) && IsOrderOf(order, specs)
    ensures now == SaveAll(tree, order)
    ensures Tallied(tree, now, |order|, created, updated, kept)
  {
    now, created, updated, kept := tree, 0, 0, 0;
    assert Created(tree, tree) == {} && Changed(tree, tree) == {};
    var i := 0;
    while i < |order|
      invariant 0 <= i <= |order| && SavedSoFar(tree, order, i, now)
      invariant Tallied(tree, now, i, created, updated, kept)
    {
      NotYetSaved(tree, specs, order, i);
      TalliedNext(tree, now, order[i], i, created, updated, kept);
      SavedNext(tree, order, i, now);
      var made, changed;
      now, made, changed := SaveRow(tree, now, order[i]);
      if made { created := created + 1; } else if changed { updated := updated + 1; } else { kept := kept + 1; }
      i := i + 1;
    }
    assert order[..i] == order;
  }

  lemma NotYetSaved(tree: Hierarchy, specs: seq<Spec>, order: seq<Spec>, i: nat)
    requires Sound(tree) && GoodSpecs(tree, specs) && IsOrderOf(order, specs) && i < |order|
    ensures var now := SaveAll(tree, order[..i]);
            && (order[i].key in now ==> order[i].key in tree && now[order[i].key] == tree[order[i].key])
            && (order[i].key !in now ==> order[i].key !in tree)
            && FoundParent(now, order[i].parent) == order[i].parent
  {
    EverySaveBetween(tree, specs, order, i);
    Untouched(tree, order, i, SaveAll(tree, order[..i]));
    ParentIsThere(tree, specs, order, i, SaveAll(tree, order[..i]));
  }

  lemma Untouched(tree: Hierarchy, order: seq<Spec>, i: nat, now: Hierarchy)
    requires KeysDistinct(order) && i < |order| && Between(tree, order, i, now)
    ensures order[i].key in now ==> order[i].key in tree && now[order[i].key] == tree[order[i].key]
  {}

  // ---------- the hierarchy between two saves ----------

  /** The department is not its new parent, nor above it. */
  ghost predicate ParentNotBelow(parents: Parents, spec: Spec) {
    spec.parent.Some? ==> !IsAbove(parents, spec.parent.value, spec.key)
  }

  /** A save keeps the hierarchy acyclic exactly when the new parent is not below the row. */
  lemma SaveKeepsAcyclic(now: Hierarchy, spec: Spec)
    requires Acyclic(ParentsOf(now)) && spec.key != "" && FoundParent(now, spec.parent) == spec.parent
    ensures Acyclic(ParentsOf(Save(now, spec))) <==> ParentNotBelow(ParentsOf(now), spec)
  {
    var parents := ParentsOf(now);
    SavedParents(now, spec);
    if spec.parent.Some? {
      NewParentKeepsAcyclic(parents, spec.key, spec.parent.value);
    } else {
      RootKeepsAcyclic(parents, spec.key);
    }
  }

  lemma SavedParents(now: Hierarchy, spec: Spec)
    requires FoundParent(now, spec.parent) == spec.parent
    ensures ParentsOf(Save(now, spec)) == ParentsOf(now)[spec.key := spec.parent]
  {}

  /** The parent map overlaid by the parents of some rows, one after the other. */
  function WithRows(parents: Parents, rows: seq<Spec>): Parents {
    if rows == []
    then parents else WithRows(parents, rows[..|rows| - 1])[rows[|rows| - 1].key := rows[|rows| - 1].parent]
  }

  ghost predicate AcyclicAfter(tree: Hierarchy, order: seq<Spec>, k: nat)
    requires k <= |order|
  {
    Acyclic(ParentsOf(SaveAll(tree, order[..k])))
  }

  /** Read off the present parents and the first rows of the order: walking up from the new
      parent of the next row never meets that row. */
  ghost predicate MayMove(parents: Parents, order: seq<Spec>, k: nat)
    requires k < |order|
  {
    ParentNotBelow(WithRows(parents, order[..k]), order[k])
  }

  /** The saved hierarchy is the present one overlaid by the rows saved so far. */
  lemma {:induction false} SavedIsOverlaid(tree: Hierarchy, specs: seq<Spec>, order: seq<Spec>, k: nat)
    requires Sound(tree) && GoodSpecs(tree, specs) && IsOrderOf(order, specs) && k <= |order|
    ensures ParentsOf(SaveAll(tree, order[..k])) == WithRows(ParentsOf(tree), order[..k])
  {
    if k == 0 {
      assert order[..0] == [];
    } else {
      SavedIsOverlaid(tree, specs, order, k - 1);
      OverlaidOnce(tree, specs, order, k - 1);
      assert order[..k][..k - 1] == order[..k - 1];
    }
  }

  lemma OverlaidOnce(tree: Hierarchy, specs: seq<Spec>, order: seq<Spec>, k: nat)
    requires Sound(tree) && GoodSpecs(tree, specs) && IsOrderOf(order, specs) && k < |order|
    ensures FoundParent(SaveAll(tree, order[..k]), order[k].parent) == order[k].parent
    ensures ParentsOf(SaveAll(tree, order[..k + 1])) ==
              ParentsOf(SaveAll(tree, order[..k]))[order[k].key := order[k].parent]
  {
    EverySaveBetween(tree, specs, order, k);
    ParentIsThere(tree, specs, order, k, SaveAll(tree, order[..k]));
    SaveAllNext(tree, order, k);
    SavedParents(SaveAll(tree, order[..k]), order[k]);
  }

  lemma OneSaveAcyclic(tree: Hierarchy, specs: seq<Spec>, order: seq<Spec>, k: nat)
    requires Sound(tree) && GoodSpecs(tree, specs) && IsOrderOf(order, specs) && k < |order|
    ensures AcyclicAfter(tree, order, k) ==> (AcyclicAfter(tree, order, k + 1) <==> MayMove(ParentsOf(tree), order, k))
  {
    SavedIsOverlaid(tree, specs, order, k);
    OverlaidOnce(tree, specs, order, k);
    SaveAllNext(tree, order, k);
    if AcyclicAfter(tree, order, k) { SaveKeepsAcyclic(SaveAll(tree, order[..k]), order[k]); }
  }

  lemma {:induction false} SavesAcyclic(tree: Hierarchy, specs: seq<Spec>, order: seq<Spec>, n: nat)
    requires Sound(tree) && Acyclic(ParentsOf(tree)) && GoodSpecs(tree, specs) && IsOrderOf(order, specs)
             && n <= |order|
    ensures (forall k :: 0 <= k <= n ==> AcyclicAfter(tree, order, k)) <==>
              (forall k :: 0 <= k < n ==> MayMove(ParentsOf(tree), order, k))
  {
    if n == 0 {
      assert order[..0] == [];
    } else {
      SavesAcyclic(tree, specs, order, n - 1);
      OneSaveAcyclic(tree, specs, order, n - 1);
    }
  }

  /** An accepted import keeps the hierarchy acyclic after every single save exactly when each
      row may move in its turn. Both sides of the turn are known beforehand: the order is that
      of the file's layers, the map is the present one overlaid by the rows before it. */
  lemma EverySaveAcyclic(tree: Hierarchy, rows: seq<Row>)
    requires Sound(tree) && Acyclic(ParentsOf(tree)) && rows != [] && ErrorFree(tree, rows)
    ensures var order := SaveOrder(Rows(tree, rows));
            (forall k :: 0 <= k <= |order| ==> AcyclicAfter(tree, order, k)) <==>
            (forall k :: 0 <= k < |order| ==> MayMove(ParentsOf(tree), order, k))
  {
    var specs := Rows(tree, rows);
    ErrorFreeIsGood(tree, rows);
    var parents := RowsCanBeOrdered(tree, rows);
    SaveOrderIsOrder(specs, parents);
    SavesAcyclic(tree, specs, SaveOrder(specs), |SaveOrder(specs)|);
  }

  // ---------- when every save keeps the hierarchy acyclic ----------

  /** No department outside the file that a row names as parent has a row of the file above it now. */
  ghost predicate Detached(tree: Hierarchy, specs: seq<Spec>) {
    forall i, c ::
      0 <= i < |specs| && specs[i].parent.Some? && specs[i].parent.value !in KeysOf(specs) && c in KeysOf(specs) ==>
      !IsAbove(ParentsOf(tree), specs[i].parent.value, c)
  }

  /** Departments outside the file with no row of the file above them. */
  ghost predicate Outside(tree: Hierarchy, specs: seq<Spec>, key: Key) {
    key !in KeysOf(specs) && forall c :: c in KeysOf(specs) ==> !IsAbove(ParentsOf(tree), key, c)
  }

  lemma OutsideParent(tree: Hierarchy, specs: seq<Spec>, key: Key)
    requires Outside(tree, specs, key) && Follow(ParentsOf(tree), key).Some?
    ensures Outside(tree, specs, Follow(ParentsOf(tree), key).value)
  {
    var parent := Follow(ParentsOf(tree), key).value;
    forall c | c in KeysOf(specs) ensures !IsAbove(ParentsOf(tree), parent, c) {
      assert IsAbove(ParentsOf(tree), parent, c) ==> IsAbove(ParentsOf(tree), key, c) by {
        if IsAbove(ParentsOf(tree), parent, c) { AboveParent(ParentsOf(tree), key, c); }
      }
    }
    assert Iter(ParentsOf(tree), parent, 0) == Some(parent);
    assert parent in KeysOf(specs) ==> IsAbove(ParentsOf(tree), parent, parent);
  }

  /** A map between the present and the final one: some rows are saved, the rest is as it was. */
  ghost predicate Mixed(tree: Hierarchy, final: Parents, specs: seq<Spec>, saved: set<Key>, now: Parents) {
    saved <= KeysOf(specs) && forall c :: MixedAt(tree, final, specs, saved, now, c)
  }

  ghost predicate MixedAt(tree: Hierarchy, final: Parents, specs: seq<Spec>, saved: set<Key>, now: Parents, c: Key) {
    && (if c in saved
        then Follow(now, c) == Follow(final, c)
             && (Follow(now, c).Some? ==> Follow(now, c).value in saved || Outside(tree, specs, Follow(now, c).value))
        else Follow(now, c) == Follow(ParentsOf(tree), c))
    && (c !in KeysOf(specs) ==> Follow(final, c) == Follow(ParentsOf(tree), c))
  }

  lemma MixedIsAcyclic(tree: Hierarchy, final: Parents, specs: seq<Spec>, saved: set<Key>, now: Parents)
    requires Mixed(tree, final, specs, saved, now) && Acyclic(ParentsOf(tree)) && Acyclic(final)
    ensures Acyclic(now)
  {
    var part := iset c | c in saved || Outside(tree, specs, c);
    forall c | c in part
      ensures Follow(now, c) == Follow(final, c) && (Follow(now, c).Some? ==> Follow(now, c).value in part)
    {
      assert MixedAt(tree, final, specs, saved, now, c);
      if c !in saved && Follow(now, c).Some? { OutsideParent(tree, specs, c); }
    }
    assert forall c ::
             MixedAt(tree, final, specs, saved, now, c) && c !in saved ==> Follow(ParentsOf(tree), c) == Follow(now, c);
    forall c | c in saved ensures !OnCycle(now, c) {
      assert !OnCycle(final, c);
      forall k: nat | 1 <= k ensures Iter(now, c, k) != Some(c) { SameInside(now, final, part, c, k); }
    }
    forall c ensures !OnCycle(now, c) {
      if OnCycle(now, c) { OldCycle(ParentsOf(tree), now, saved, c); }
    }
  }

  lemma SavedKeys(specs: seq<Spec>, order: seq<Spec>, k: nat)
    requires multiset(order) == multiset(specs) && k <= |order|
    ensures forall c :: c in KeysOf(order[..k]) <==> exists j :: 0 <= j < k && order[j].key == c
    ensures forall j :: 0 <= j < |order| ==> order[j].key in KeysOf(specs)
  {
    forall c | c in KeysOf(order[..k]) ensures exists j :: 0 <= j < k && order[j].key == c {
      var j :| 0 <= j < k && order[..k][j].key == c;
      assert order[j].key == c;
    }
    forall j | 0 <= j < k ensures order[j].key in KeysOf(order[..k]) { assert order[..k][j].key == order[j].key; }
    forall j | 0 <= j < |order| ensures order[j].key in KeysOf(specs) {
      OrderedRows(order, specs, order[j]);
      var i :| 0 <= i < |specs| && specs[i] == order[j];
    }
  }

  lemma SavedFollow(tree: Hierarchy, order: seq<Spec>, k: nat, now: Hierarchy, j: nat)
    requires KeysDistinct(order) && j < k <= |order| && Between(tree, order, k, now)
    ensures Follow(ParentsOf(now), order[j].key) == order[j].parent
  {}

  lemma UnsavedFollow(tree: Hierarchy, order: seq<Spec>, k: nat, now: Hierarchy, c: Key)
    requires k <= |order| && Between(tree, order, k, now) && forall j :: 0 <= j < k ==> order[j].key != c
    ensures Follow(ParentsOf(now), c) == Follow(ParentsOf(tree), c)
  {}

  lemma BetweenIsMixed(tree: Hierarchy, specs: seq<Spec>, order: seq<Spec>, k: nat, now: Hierarchy, final: Hierarchy)
    requires GoodSpecs(tree, specs) && IsOrderOf(order, specs) && Detached(tree, specs) && k <= |order|
    requires Between(tree, order, k, now) && Between(tree, order, |order|, final)
    ensures Mixed(tree, ParentsOf(final), specs, KeysOf(order[..k]), ParentsOf(now))
  {
    SavedKeys(specs, order, k);
    forall c ensures MixedAt(tree, ParentsOf(final), specs, KeysOf(order[..k]), ParentsOf(now), c) {
      if c in KeysOf(order[..k]) {
        var j :| 0 <= j < k && order[j].key == c;
        SavedFollow(tree, order, k, now, j);
        SavedFollow(tree, order, |order|, final, j);
        if order[j].parent.Some? { SavedParent(tree, specs, order, k, j); }
      } else {
        UnsavedFollow(tree, order, k, now, c);
        if c !in KeysOf(specs) { UnsavedFollow(tree, order, |order|, final, c); }
      }
    }
  }

  lemma SavedParent(tree: Hierarchy, specs: seq<Spec>, order: seq<Spec>, k: nat, j: nat)
    requires IsOrderOf(order, specs) && Detached(tree, specs) && j < k <= |order| && order[j].parent.Some?
    ensures order[j].parent.value in KeysOf(order[..k]) || Outside(tree, specs, order[j].parent.value)
  {
    OrderedRows(order, specs, order[j]);
    var i :| 0 <= i < |specs| && specs[i] == order[j];
    if order[j].parent.value in KeysOf(specs) {
      assert Placed(order, j, order[j].parent.value);
      var m :| 0 <= m < j && order[m].key == order[j].parent.value;
      assert order[..k][m].key == order[j].parent.value;
    }
  }

  /** For a detached file the hierarchy is acyclic after every single save. */
  lemma DetachedImportStaysAcyclic(tree: Hierarchy, rows: seq<Row>, order: seq<Spec>, k: nat)
    requires Sound(tree) && Acyclic(ParentsOf(tree)) && rows != [] && ErrorFree(tree, rows)
    requires IsOrderOf(order, Rows(tree, rows)) && Detached(tree, Rows(tree, rows)) && k <= |order|
    ensures AcyclicAfter(tree, order, k)
  {
    var specs := Rows(tree, rows);
    ErrorFreeIsGood(tree, rows);
    EverySaveBetween(tree, specs, order, k);
    EverySaveBetween(tree, specs, order, |order|);
    var now, final := SaveAll(tree, order[..k]), SaveAll(tree, order[..|order|]);
    FinalParents(tree, rows, order, final);
    ErrorFreeIsAcyclic(tree, rows);
    BetweenIsMixed(tree, specs, order, k, now, final);
    MixedIsAcyclic(tree, ParentsOf(final), specs, KeysOf(order[..k]), ParentsOf(now));
  }

  // ---------- a file whose first save closes a cycle ----------

  /** p below u below x below r. */
  const CHAIN := map["r" := Dept("R", None), "x" := Dept("X", Some("r")), "u" := Dept("U", Some("x")),
                     "p" := Dept("P", Some("u"))]

  /** x moves under p, and only then u moves away to r. */
  const MOVES := [Row("x", "X", "p"), Row("u", "U", "r")]

  const MOVE_SPECS := [Spec("x", "X", Some("p")), Spec("u", "U", Some("r"))]

  lemma MovedParents()
    ensures Proposed(CHAIN, MOVES, 2) == map["r" := None, "x" := Some("p"), "u" := Some("r"), "p" := Some("u")]
    ensures CountOf(MOVES, "x") == 1 && CountOf(MOVES, "u") == 1 && CountOf(MOVES, "p") == 0 && CountOf(MOVES, "r") == 0
  {
    assert MOVES[..1] == [Row("x", "X", "p")];
    assert [Row("x", "X", "p")][..0] == [];
    assert Proposed(CHAIN, MOVES, 0) == ParentsOf(CHAIN);
    assert Proposed(CHAIN, MOVES, 1) == ParentsOf(CHAIN)["x" := Some("p")];
  }

  lemma MoveHasNoError(i: nat, e: RowError)
    requires i < 2 && Acyclic(Proposed(CHAIN, MOVES, 2))
    ensures !HasError(CHAIN, MOVES, i, e)
  {
    MovedParents();
  }

  lemma ChainIsSound()
    ensures Sound(CHAIN)
  {}

  lemma ChainIsAcyclic()
    ensures Acyclic(ParentsOf(CHAIN))
  {
    var parents := ParentsOf(CHAIN);
    assert parents == map["r" := None, "x" := Some("r"), "u" := Some("x"), "p" := Some("u")];
    RankedIsAcyclic(parents, map["r" := 0, "x" := 1, "u" := 2, "p" := 3]);
  }

  lemma MovesAreErrorFree()
    ensures ErrorFree(CHAIN, MOVES)
  {
    MovedParents();
    RankedIsAcyclic(Proposed(CHAIN, MOVES, 2), map["r" := 0, "u" := 1, "p" := 2, "x" := 3]);
    forall i, e | 0 <= i < |MOVES| ensures !HasError(CHAIN, MOVES, i, e) { MoveHasNoError(i, e); }
  }

  lemma FirstMoveSaved()
    ensures ParentsOf(SaveAll(CHAIN, MOVE_SPECS[..1])) == ParentsOf(CHAIN)["x" := Some("p")]
  {
    assert MOVE_SPECS[..1] == [Spec("x", "X", Some("p"))] && MOVE_SPECS[..1][..0] == [];
    assert SaveAll(CHAIN, []) == CHAIN;
  }

  lemma LoopThroughX(after: Parents)
    requires Follow(after, "x") == Some("p") && Follow(after, "p") == Some("u") && Follow(after, "u") == Some("x")
    ensures OnCycle(after, "x")
  {
    assert Iter(after, "u", 1) == Some("x");
    assert Iter(after, "p", 2) == Some("x");
    assert Iter(after, "x", 3) == Some("x");
  }

  lemma MoveSpecs()
    ensures Rows(CHAIN, MOVES) == MOVE_SPECS
  {
    assert SpecOf(CHAIN, MOVES[0]) == MOVE_SPECS[0] && SpecOf(CHAIN, MOVES[1]) == MOVE_SPECS[1];
  }

  /** Neither row waits for the other, so they are saved in the order of the file. */
  lemma MovesInFileOrder()
    ensures SaveOrder(MOVE_SPECS) == MOVE_SPECS
  {
    var x, u := MOVE_SPECS[0], MOVE_SPECS[1];
    var pending := KeysOf(MOVE_SPECS);
    assert x.key in pending && u.key in pending;
    assert "p" !in pending && "r" !in pending;
    assert MOVE_SPECS[..1] == [x] && [x][..0] == [];
    assert ReadyRows([x], pending) == [x];
    assert ReadyRows(MOVE_SPECS, pending) == MOVE_SPECS;
    assert pending - KeysOf(MOVE_SPECS) == {};
    NothingPending(MOVE_SPECS);
  }

  lemma CycleAfterFirstMove()
    ensures !AcyclicAfter(CHAIN, MOVE_SPECS, 1)
  {
    FirstMoveSaved();
    LoopThroughX(ParentsOf(SaveAll(CHAIN, MOVE_SPECS[..1])));
  }

  /** The import is accepted, yet after its first save the hierarchy has a cycle. */
  lemma FirstSaveCanCloseACycle()
    ensures Sound(CHAIN) && Acyclic(ParentsOf(CHAIN)) && ErrorFree(CHAIN, MOVES)
    ensures SaveOrder(Rows(CHAIN, MOVES)) == MOVE_SPECS && !AcyclicAfter(CHAIN, MOVE_SPECS, 1)
  {
    ChainIsSound();
    ChainIsAcyclic();
    MovesAreErrorFree();
    MoveSpecs();
    MovesInFileOrder();
    CycleAfterFirstMove();
  }
}
