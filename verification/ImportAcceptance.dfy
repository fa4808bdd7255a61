/** Which files an import accepts, said of the hierarchy that the file asks for.

    The errors of `DepartmentImport` are found row by row; together they refuse exactly the files
    described here (backend/assets/department_imports.py:242-418).
 */
module ImportAcceptance {
  import opened RackRanges
  import opened ParentGraph
  import opened DepartmentImport

  /** Every row names a department of its own. */
  ghost predicate OwnCodes(rows: seq<Row>) {
    (forall i :: 0 <= i < |rows| ==> rows[i].code != "") && CodesDistinct(rows)
  }

  /** No row takes a name that another department has now, or that another row asks for. */
  ghost predicate OwnNames(tree: Hierarchy, rows: seq<Row>, wanted: Hierarchy)
    requires AsAsked(tree, rows, wanted)
  {
    && (forall i :: 0 <= i < |rows| && rows[i].code !in tree ==> rows[i].name != "")
    && (forall i, d :: 0 <= i < |rows| && d in tree && d != rows[i].code ==> tree[d].name != wanted[rows[i].code].name)
    && (forall i, j :: 0 <= i < |rows| && 0 <= j < |rows| && i != j ==>
          wanted[rows[i].code].name != wanted[rows[j].code].name)
  }

  /** The hierarchy has what the rows ask for and nothing speaks against it. */
  ghost predicate Grants(tree: Hierarchy, rows: seq<Row>, wanted: Hierarchy) {
    AsAsked(tree, rows, wanted) && OwnNames(tree, rows, wanted) && ParentsExist(wanted) && Acyclic(ParentsOf(wanted))
  }

  lemma {:induction false} CountedOnce(rows: seq<Row>, code: Key)
    requires CodesDistinct(rows)
    ensures CountOf(rows, code) == if IsCode(rows, code) then 1 else 0
  {
    if rows != [] {
      var n := |rows| - 1;
      CountedOnce(rows[..n], code);
      OneMoreCode(rows, n, code);
      assert rows[..n + 1] == rows;
      if rows[n].code == code { assert !IsCode(rows[..n], code); }
    }
  }

  /** A row's specification is what is wanted for its department. */
  lemma SpecIsWanted(tree: Hierarchy, rows: seq<Row>, wanted: Hierarchy, i: nat)
    requires Grants(tree, rows, wanted) && i < |rows|
    ensures SpecOf(tree, rows[i]) == Spec(rows[i].code, wanted[rows[i].code].name, wanted[rows[i].code].parent)
  {
    assert RowHonoured(tree, rows[i], wanted[rows[i].code]);
  }

  lemma NotSkipped(rows: seq<Row>, i: nat)
    requires OwnCodes(rows) && i < |rows|
    ensures !Skipped(rows, rows[i]) && IsCode(rows, rows[i].code) && IsRowKey(rows, rows[i].code)
  {
    CountedOnce(rows, rows[i].code);
  }

  lemma ParentKnown(tree: Hierarchy, rows: seq<Row>, wanted: Hierarchy, i: nat)
    requires OwnCodes(rows) && Grants(tree, rows, wanted) && i < |rows| && wanted[rows[i].code].parent.Some?
    ensures var p := wanted[rows[i].code].parent.value; p in tree || (IsCode(rows, p) && IsRowKey(rows, p))
  {
    var p := wanted[rows[i].code].parent.value;
    assert p in wanted;
    if p !in tree {
      var j :| 0 <= j < |rows| && rows[j].code == p;
      NotSkipped(rows, j);
    }
  }

  lemma NotOwnParent(rows: seq<Row>, tree: Hierarchy, wanted: Hierarchy, i: nat)
    requires OwnCodes(rows) && Grants(tree, rows, wanted) && i < |rows|
    ensures wanted[rows[i].code].parent != Some(rows[i].code)
  {
    var parents, code := ParentsOf(wanted), rows[i].code;
    if parents[code] == Some(code) { SelfLoop(parents, code); }
  }

  lemma SelfLoop(parents: Parents, node: Key)
    requires Walkable(parents, node) && parents[node] == Some(node)
    ensures OnCycle(parents, node)
  {
    assert Iter(parents, node, 0) == Some(node);
    assert Iter(parents, node, 1) == Some(node);
  }

  lemma NoLocalError(tree: Hierarchy, rows: seq<Row>, wanted: Hierarchy, i: nat, e: RowError)
    requires OwnCodes(rows) && Grants(tree, rows, wanted) && i < |rows|
    ensures !LocalError(tree, rows, rows[i], e)
  {
    NotSkipped(rows, i);
    SpecIsWanted(tree, rows, wanted, i);
    NotOwnParent(rows, tree, wanted, i);
    CountedOnce(rows, rows[i].code);
    if wanted[rows[i].code].parent.Some? {
      ParentKnown(tree, rows, wanted, i);
      CountedOnce(rows, wanted[rows[i].code].parent.value);
    }
  }

  lemma NoNameClash(tree: Hierarchy, rows: seq<Row>, wanted: Hierarchy, i: nat)
    requires OwnCodes(rows) && Grants(tree, rows, wanted) && i < |rows|
    ensures !NameClash(tree, rows, i)
  {
    SpecIsWanted(tree, rows, wanted, i);
    forall j | 0 <= j < |rows| ensures SpecOf(tree, rows[j]).name == wanted[rows[j].code].name {
      SpecIsWanted(tree, rows, wanted, j);
    }
  }

  lemma ProposedIsWanted(tree: Hierarchy, rows: seq<Row>, wanted: Hierarchy)
    requires OwnCodes(rows) && Grants(tree, rows, wanted)
    ensures Proposed(tree, rows, |rows|) == ParentsOf(wanted)
  {
    forall n | 0 <= n < |rows| ensures Applied(tree, rows, n) {
      NotSkipped(rows, n);
      SpecIsWanted(tree, rows, wanted, n);
      if wanted[rows[n].code].parent.Some? { ParentKnown(tree, rows, wanted, n); }
    }
    AppliedOverlay(tree, rows, |rows|);
    forall i | 0 <= i < |rows| ensures SpecOf(tree, rows[i]).parent == wanted[rows[i].code].parent {
      SpecIsWanted(tree, rows, wanted, i);
    }
    OverlaidIsWanted(tree, rows, wanted, Proposed(tree, rows, |rows|));
  }

  lemma OverlaidIsWanted(tree: Hierarchy, rows: seq<Row>, wanted: Hierarchy, parents: Parents)
    requires AsAsked(tree, rows, wanted) && Overlaid(tree, rows, |rows|, parents)
    requires forall i :: 0 <= i < |rows| ==> SpecOf(tree, rows[i]).parent == wanted[rows[i].code].parent
    ensures parents == ParentsOf(wanted)
  {
    assert rows[..|rows|] == rows;
    forall c | c in wanted ensures c in parents && parents[c] == wanted[c].parent {
      if IsCode(rows, c) { var i :| 0 <= i < |rows| && rows[i].code == c; }
    }
    forall c | c in parents ensures c in wanted {
      if IsCode(rows, c) { var i :| 0 <= i < |rows| && rows[i].code == c; }
    }
  }

  lemma GrantedIsErrorFree(tree: Hierarchy, rows: seq<Row>, wanted: Hierarchy)
    requires OwnCodes(rows) && Grants(tree, rows, wanted)
    ensures ErrorFree(tree, rows)
  {
    ProposedIsWanted(tree, rows, wanted);
    forall i, e | 0 <= i < |rows| ensures !HasError(tree, rows, i, e) {
      NoLocalError(tree, rows, wanted, i, e);
      NoNameClash(tree, rows, wanted, i);
    }
  }

  /** What an error-free file asks for is what the import saves. */
  lemma ErrorFreeIsGranted(tree: Hierarchy, rows: seq<Row>) returns (wanted: Hierarchy)
    requires Sound(tree) && rows != [] && ErrorFree(tree, rows)
    ensures OwnCodes(rows) && Grants(tree, rows, wanted)
  {
    var specs := DepartmentImport.Rows(tree, rows);
    var parents := RowsCanBeOrdered(tree, rows);
    RowsDistinct(tree, rows);
    SaveOrderIsOrder(specs, parents);
    wanted := SaveAll(tree, SaveOrder(specs));
    AllSaved(tree, rows, SaveOrder(specs), wanted);
    AllAsAsked(tree, rows, SaveOrder(specs), wanted);
    CodesAreOwn(tree, rows);
    NamesAreOwn(tree, rows, wanted);
  }

  lemma CodesAreOwn(tree: Hierarchy, rows: seq<Row>)
    requires ErrorFree(tree, rows)
    ensures OwnCodes(rows)
  {
    var specs := DepartmentImport.Rows(tree, rows);
    RowsDistinct(tree, rows);
    forall i | 0 <= i < |rows| ensures rows[i].code != "" { assert specs[i].key != ""; }
    forall i, j | 0 <= i < j < |rows| ensures rows[i].code != rows[j].code { assert specs[i].key != specs[j].key; }
  }

  lemma NamesAreOwn(tree: Hierarchy, rows: seq<Row>, wanted: Hierarchy)
    requires Sound(tree) && ErrorFree(tree, rows) && AsAsked(tree, rows, wanted)
    ensures OwnNames(tree, rows, wanted)
  {
    var specs := DepartmentImport.Rows(tree, rows);
    ErrorFreeIsGood(tree, rows);
    forall i | 0 <= i < |rows|
      ensures (rows[i].code !in tree ==> rows[i].name != "") && specs[i].name == wanted[rows[i].code].name
    {
      assert !HasError(tree, rows, i, NameRequired);
      assert RowHonoured(tree, rows[i], wanted[rows[i].code]);
    }
  }

  /** An import accepts exactly the files whose rows name departments of their own and ask for a
      hierarchy with names of their own, existing parents and no cycle. */
  lemma AcceptedIff(tree: Hierarchy, rows: seq<Row>)
    requires Sound(tree) && rows != []
    ensures ErrorFree(tree, rows) <==> OwnCodes(rows) && exists wanted :: Grants(tree, rows, wanted)
  {
    if ErrorFree(tree, rows) {
      var wanted := ErrorFreeIsGranted(tree, rows);
    } else if OwnCodes(rows) && exists wanted :: Grants(tree, rows, wanted) {
      var wanted :| Grants(tree, rows, wanted);
      GrantedIsErrorFree(tree, rows, wanted);
    }
  }

  // ---------- the errors of a row ----------

  ghost predicate Twice(rows: seq<Row>, code: Key) {
    exists i, j :: 0 <= i < j < |rows| && rows[i].code == code && rows[j].code == code
  }

  lemma {:induction false} CountedTwice(rows: seq<Row>, code: Key)
    ensures CountOf(rows, code) > 0 <==> IsCode(rows, code)
    ensures CountOf(rows, code) > 1 <==> Twice(rows, code)
  {
    if rows != [] {
      var n := |rows| - 1;
      CountedTwice(rows[..n], code);
      OneMoreCode(rows, n, code);
      assert rows[..n + 1] == rows;
      OneMoreTwice(rows, n, code);
    }
  }

  lemma OneMoreTwice(rows: seq<Row>, n: nat, code: Key)
    requires n == |rows| - 1
    ensures Twice(rows, code) <==> Twice(rows[..n], code) || (IsCode(rows[..n], code) && rows[n].code == code)
  {
    if i, j :| 0 <= i < j < |rows| && rows[i].code == code && rows[j].code == code {
      assert rows[..n][i].code == code;
      if j < n { assert rows[..n][j].code == code; }
    }
    if i, j :| 0 <= i < j < n && rows[..n][i].code == code && rows[..n][j].code == code {
      assert rows[i].code == code && rows[j].code == code;
    }
    if i :| 0 <= i < n && rows[..n][i].code == code { assert rows[i].code == code; }
  }

  /** Each error of a row on its own, said of the cells: codes that are missing or used twice, a new
      department without a name, and a parent that is the row itself, unknown, or ambiguous. */
  lemma RowErrorsMean(tree: Hierarchy, rows: seq<Row>, i: nat, e: RowError, dept: Dept)
    requires i < |rows| && RowHonoured(tree, rows[i], dept)
    ensures var row := rows[i];
            var usable := row.code != "" && !Twice(rows, row.code);
            match e
            case CodeRequired => HasError(tree, rows, i, e) <==> row.code == ""
            case DuplicateCode => HasError(tree, rows, i, e) <==> row.code != "" && Twice(rows, row.code)
            case NameRequired => HasError(tree, rows, i, e) <==> row.name == "" && row.code !in tree
            case SelfParent => HasError(tree, rows, i, e) <==> usable && dept.parent == Some(row.code)
            case MissingParent =>
              HasError(tree, rows, i, e) <==>
              usable && dept.parent.Some? && dept.parent.value != row.code && dept.parent.value !in tree
              && !IsCode(rows, dept.parent.value)
            case ParentRowInvalid =>
              HasError(tree, rows, i, e) <==>
              usable && dept.parent.Some? && dept.parent.value != row.code && Twice(rows, dept.parent.value)
            case _ => true
  {
    CountedTwice(rows, rows[i].code);
    if dept.parent.Some? { CountedTwice(rows, dept.parent.value); }
  }
}
