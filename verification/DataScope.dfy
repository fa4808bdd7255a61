/** Centre and department scopes: the predicate on coordinates and the database query.

    Models backend/assets/data_scope.py:33-133, 162-196, 220-224 and the Asset branch of
    `scoped` (317-324). Identifiers are database keys; None is an unset column.
 */
module DataScope {
  import opened RackRanges

  /** Which columns of a rule a request is checked against. */
  datatype Mode = Read | Write

  datatype Clause = Clause(centres: set<nat>, unlocated: bool, departments: set<nat>, allDepartments: bool,
                           unowned: bool)

  /** One rule: what it allows to read and to write, and the flags that lift every limit. */
  datatype Rule = Rule(globalRead: bool, globalWrite: bool, reading: Clause, writing: Clause) {
    predicate Global(mode: Mode) { if mode == Write then globalWrite else globalRead }

    function Of(mode: Mode): Clause { if mode == Write then writing else reading }

    predicate Contains(centre: Option<nat>, mode: Mode) {
      Global(mode) || if centre == None then Of(mode).unlocated else centre.value in Of(mode).centres
    }

    predicate ContainsDepartment(department: Option<nat>, mode: Mode) {
      Global(mode) || if department == None then Of(mode).unowned
          else Of(mode).allDepartments || department.value in Of(mode).departments
    }
  }

  const NOTHING := Clause({}, false, {}, false, false)

  /** A scope is a rule of its own with the complete rules it was put together from. */
  datatype Scope = Scope(whole: Rule, rules: seq<Rule>)

  function Boundaries(scope: Scope): seq<Rule> {
    if scope.rules == [] then [scope.whole] else scope.rules
  }

  /** A write clause read as a rule of its own, so that write access includes read access. */
  function WriteAsRead(rule: Rule): Rule {
    Rule(false, false, rule.writing, NOTHING)
  }

  function WithWrites(rules: seq<Rule>, mode: Mode): seq<Rule> {
    if rules == [] then []
    else
      var init, last := rules[..|rules| - 1], rules[|rules| - 1];
      WithWrites(init, mode) + (if mode == Read && last.reading != last.writing then [last, WriteAsRead(last)]
          else [last])
  }

  function AssetBoundaries(scope: Scope, mode: Mode): seq<Rule> {
    WithWrites(Boundaries(scope), mode)
  }

  predicate ContainsAsset(scope: Scope, centre: Option<nat>, department: Option<nat>, mode: Mode) {
    || scope.whole.Global(mode)
    || exists rule ::
         rule in AssetBoundaries(scope, mode) && rule.Contains(centre, mode)
         && rule.ContainsDepartment(department, mode)
  }

  // ---------- queries over nullable columns ----------

  datatype Column = RackCentre | DirectCentre | Owner | Allocation

  /** A query as Django builds it: the empty one disappears in every combination. */
  datatype Q =
    | Empty
    | In(column: Column, ids: set<nat>)
    | IsNull(column: Column)
    | NoRows
    | And(left: Q, right: Q)
    | Or(left: Q, right: Q)
    | Not(inner: Q)

  function AndQ(a: Q, b: Q): Q {
    if a == Empty then b else if b == Empty then a else And(a, b)
  }

  function OrQ(a: Q, b: Q): Q {
    if a == Empty then b else if b == Empty then a else Or(a, b)
  }

  datatype Truth = True | False | Unknown

  /** The columns of an asset joined with its allocation. */
  datatype AssetRow = AssetRow(allocation: Option<nat>, rackCentre: Option<nat>, directCentre: Option<nat>,
                               owner: Option<nat>)

  /** A mounted asset's rack is in some centre, and identifiers start at one. */
  predicate IsJoined(row: AssetRow) {
    && (row.allocation.Some? <==> row.rackCentre.Some?)
    && (row.rackCentre.Some? ==> row.rackCentre.value >= 1)
    && (row.directCentre.Some? ==> row.directCentre.value >= 1)
  }

  function ValueOf(row: AssetRow, column: Column): Option<nat> {
    match column
    case RackCentre => row.rackCentre
    case DirectCentre => row.directCentre
    case Owner => row.owner
    case Allocation => row.allocation
  }

  /** Three-valued evaluation: comparing an unset column is unknown, testing it for null is not. */
  function Eval(q: Q, row: AssetRow): Truth {
    match q
    case Empty => True
    case NoRows => False
    case In(column, ids) =>
      if ids == {} then False
      else if ValueOf(row, column) == None then Unknown
      else if ValueOf(row, column).value in ids then True else False
    case IsNull(column) => if ValueOf(row, column) == None then True else False
    case And(a, b) =>
      if Eval(a, row) == False || Eval(b, row) == False then False
      else if Eval(a, row) == True && Eval(b, row) == True then True else Unknown
    case Or(a, b) =>
      if Eval(a, row) == True || Eval(b, row) == True then True
      else if Eval(a, row) == False && Eval(b, row) == False then False else Unknown
    case Not(a) => if Eval(a, row) == True then False else if Eval(a, row) == False then True else Unknown
  }

  predicate Keeps(q: Q, row: AssetRow) {
    Eval(q, row) == True
  }

  function LocationQ(rule: Rule, column: Column, mode: Mode, nullable: bool): Q {
    if rule.Global(mode) then Empty
    else
      var condition := In(column, rule.Of(mode).centres);
      if nullable && rule.Of(mode).unlocated then OrQ(condition, IsNull(column)) else condition
  }

  function DepartmentQ(rule: Rule, column: Column, mode: Mode): Q {
    if rule.Global(mode) then Empty
    else
      var condition := if rule.Of(mode).allDepartments then Not(IsNull(column))
          else In(column, rule.Of(mode).departments);
      if rule.Of(mode).unowned then OrQ(condition, IsNull(column)) else condition
  }

  function Clauses(rules: seq<Rule>, column: Column, mode: Mode, nullable: bool): Q {
    if rules == [] then NoRows
    else
      var init, last := rules[..|rules| - 1], rules[|rules| - 1];
      OrQ(Clauses(init, column, mode, nullable),
          AndQ(LocationQ(last, column, mode, nullable), DepartmentQ(last, Owner, mode)))
  }

  function BoundaryCondition(scope: Scope, column: Column, mode: Mode, nullable: bool): Q {
    if scope.whole.Global(mode) then Empty else Clauses(AssetBoundaries(scope, mode), column, mode, nullable)
  }

  /** `boundary_q` as the loop it is. */
  method BoundaryQ(scope: Scope, column: Column, mode: Mode, nullable: bool) returns (condition: Q)
    ensures condition == BoundaryCondition(scope, column, mode, nullable)
  {
    if scope.whole.Global(mode) { return Empty; }
    condition := NoRows;
    var rules := AssetBoundaries(scope, mode);
    var i := 0;
    while i < |rules|
      invariant 0 <= i <= |rules| && condition == Clauses(rules[..i], column, mode, nullable)
    {
      assert rules[..i + 1][..i] == rules[..i];
      var location := LocationQ(rules[i], column, mode, nullable);
      condition := OrQ(condition, AndQ(location, DepartmentQ(rules[i], Owner, mode)));
      i := i + 1;
    }
    assert rules[..i] == rules;
  }

  /** The filter of the Asset branch of `scoped`. */
  function AssetQuery(scope: Scope, mode: Mode): Q {
    if scope.whole.Global(mode) then Empty
    else OrQ(AndQ(Not(IsNull(Allocation)), BoundaryCondition(scope, RackCentre, mode, false)),
             AndQ(IsNull(Allocation), BoundaryCondition(scope, DirectCentre, mode, true)))
  }

  /** `_asset_coordinates`: the rack's centre, or the direct one. */
  function Centre(row: AssetRow): Option<nat> {
    if row.rackCentre.Some? && row.rackCentre.value != 0 then row.rackCentre else row.directCentre
  }

  // ---------- the two forms mean the same ----------

  predicate NoGlobal(rules: seq<Rule>, mode: Mode) {
    forall rule :: rule in rules ==> !rule.Global(mode)
  }

  lemma AndKeeps(a: Q, b: Q, row: AssetRow)
    ensures Keeps(AndQ(a, b), row) <==> Keeps(a, row) && Keeps(b, row)
  {}

  lemma OrKeeps(a: Q, b: Q, row: AssetRow)
    requires a != Empty && b != Empty
    ensures Keeps(OrQ(a, b), row) <==> Keeps(a, row) || Keeps(b, row)
  {}

  /** The rule admits the value of the column; an unset one only where the column is nullable. */
  predicate AdmitsColumn(rule: Rule, column: Column, mode: Mode, nullable: bool, row: AssetRow) {
    if ValueOf(row, column) == None then nullable && rule.Of(mode).unlocated
    else rule.Contains(ValueOf(row, column), mode)
  }

  /** Both halves of a rule's clause in the query. */
  predicate AdmitsRow(rule: Rule, column: Column, mode: Mode, nullable: bool, row: AssetRow) {
    !rule.Global(mode) && AdmitsColumn(rule, column, mode, nullable, row) && rule.ContainsDepartment(row.owner, mode)
  }

  lemma LocationMeans(rule: Rule, column: Column, mode: Mode, nullable: bool, row: AssetRow)
    requires !rule.Global(mode)
    ensures Keeps(LocationQ(rule, column, mode, nullable), row) <==>
            AdmitsColumn(rule, column, mode, nullable, row)
  {
    OrKeeps(In(column, rule.Of(mode).centres), IsNull(column), row);
  }

  lemma DepartmentMeans(rule: Rule, mode: Mode, row: AssetRow)
    requires !rule.Global(mode)
    ensures Keeps(DepartmentQ(rule, Owner, mode), row) <==> rule.ContainsDepartment(row.owner, mode)
  {
    var condition := if rule.Of(mode).allDepartments then Not(IsNull(Owner)) else In(Owner, rule.Of(mode).departments);
    OrKeeps(condition, IsNull(Owner), row);
    assert Eval(IsNull(Owner), row) == if row.owner == None then True else False;
  }

  lemma ClauseMeans(rule: Rule, column: Column, mode: Mode, nullable: bool, row: AssetRow)
    requires !rule.Global(mode)
    ensures Keeps(AndQ(LocationQ(rule, column, mode, nullable), DepartmentQ(rule, Owner, mode)), row) <==>
            AdmitsRow(rule, column, mode, nullable, row)
  {
    LocationMeans(rule, column, mode, nullable, row);
    DepartmentMeans(rule, mode, row);
    AndKeeps(LocationQ(rule, column, mode, nullable), DepartmentQ(rule, Owner, mode), row);
  }

  lemma {:induction false} NeverEmpty(rules: seq<Rule>, column: Column, mode: Mode, nullable: bool)
    ensures Clauses(rules, column, mode, nullable) != Empty
  {
    if rules != [] { NeverEmpty(rules[..|rules| - 1], column, mode, nullable); }
  }

  lemma OneMoreClause(init: seq<Rule>, last: Rule, column: Column, mode: Mode, nullable: bool, row: AssetRow)
    ensures var clause := AndQ(LocationQ(last, column, mode, nullable), DepartmentQ(last, Owner, mode));
            Keeps(OrQ(Clauses(init, column, mode, nullable), clause), row) <==>
            Keeps(Clauses(init, column, mode, nullable), row) || AdmitsRow(last, column, mode, nullable, row)
  {
    var clause := AndQ(LocationQ(last, column, mode, nullable), DepartmentQ(last, Owner, mode));
    NeverEmpty(init, column, mode, nullable);
    if !last.Global(mode) {
      ClauseMeans(last, column, mode, nullable, row);
      OrKeeps(Clauses(init, column, mode, nullable), clause, row);
    }
  }

  /** A clause of the loop is kept by its own rule; rules with a global flag add nothing. */
  lemma {:induction false} ClausesMean(rules: seq<Rule>, column: Column, mode: Mode, nullable: bool, row: AssetRow)
    ensures Keeps(Clauses(rules, column, mode, nullable), row) <==>
            exists rule :: rule in rules && AdmitsRow(rule, column, mode, nullable, row)
  {
    if rules != [] {
      var init, last := rules[..|rules| - 1], rules[|rules| - 1];
      ClausesMean(init, column, mode, nullable, row);
      OneMoreClause(init, last, column, mode, nullable, row);
      assert forall rule :: rule in rules <==> rule in init || rule == last;
    }
  }

  /** What the query keeps: one rule without a global flag that allows both coordinates. */
  lemma QueryMeans(scope: Scope, mode: Mode, row: AssetRow)
    requires IsJoined(row)
    ensures Keeps(AssetQuery(scope, mode), row) <==>
            || scope.whole.Global(mode)
            || exists rule :: rule in AssetBoundaries(scope, mode) && !rule.Global(mode)
                 && rule.Contains(Centre(row), mode) && rule.ContainsDepartment(row.owner, mode)
  {
    var rules := AssetBoundaries(scope, mode);
    ClausesMean(rules, RackCentre, mode, false, row);
    ClausesMean(rules, DirectCentre, mode, true, row);
    NeverEmpty(rules, RackCentre, mode, false);
    NeverEmpty(rules, DirectCentre, mode, true);
    if !scope.whole.Global(mode) {
      var mounted, direct := Clauses(rules, RackCentre, mode, false), Clauses(rules, DirectCentre, mode, true);
      AndKeeps(Not(IsNull(Allocation)), mounted, row);
      AndKeeps(IsNull(Allocation), direct, row);
      OrKeeps(AndQ(Not(IsNull(Allocation)), mounted), AndQ(IsNull(Allocation), direct), row);
      assert Eval(IsNull(Allocation), row) == if row.allocation == None then True else False;
    }
  }

  lemma {:induction false} WithWritesMembers(rules: seq<Rule>, mode: Mode, rule: Rule)
    ensures rule in WithWrites(rules, mode) <==>
            exists r :: r in rules && (rule == r || (mode == Read && r.reading != r.writing && rule == WriteAsRead(r)))
  {
    if rules != [] {
      var init, last := rules[..|rules| - 1], rules[|rules| - 1];
      WithWritesMembers(init, mode, rule);
      assert forall r :: r in rules <==> r in init || r == last;
    }
  }

  function UsedIds(rules: seq<Rule>, mode: Mode): set<nat> {
    if rules == [] then {}
    else
      var last := rules[|rules| - 1].Of(mode);
      UsedIds(rules[..|rules| - 1], mode) + last.centres + last.departments
  }

  lemma {:induction false} UsedIdsHold(rules: seq<Rule>, mode: Mode, rule: Rule)
    requires rule in rules
    ensures rule.Of(mode).centres <= UsedIds(rules, mode) && rule.Of(mode).departments <= UsedIds(rules, mode)
  {
    var init, last := rules[..|rules| - 1], rules[|rules| - 1];
    if rule != last { UsedIdsHold(init, mode, rule); }
  }

  /** Some identifier from `low` on is not in a finite set. */
  lemma {:induction false} AboveSets(ids: set<nat>, low: nat) returns (id: nat)
    ensures id >= low && id !in ids
    decreases |ids|
  {
    if low in ids {
      id := AboveSets(ids - {low}, low + 1);
    } else {
      id := low;
    }
  }

  lemma BeyondAll(rules: seq<Rule>, mode: Mode) returns (id: nat)
    ensures id >= 1 && forall rule :: rule in rules ==> id !in rule.Of(mode).centres && id !in rule.Of(mode).departments
  {
    id := AboveSets(UsedIds(rules, mode), 1);
    forall rule | rule in rules ensures id !in rule.Of(mode).centres && id !in rule.Of(mode).departments {
      UsedIdsHold(rules, mode, rule);
    }
  }

  /** The query keeps exactly the assets that the predicate contains, for every asset, if and
      only if no rule of the scope carries a global flag itself. */
  lemma QueryIsPredicate(scope: Scope, mode: Mode)
    requires !scope.whole.Global(mode)
    ensures (forall row ::
              IsJoined(row) ==>
                (Keeps(AssetQuery(scope, mode), row) <==> ContainsAsset(scope, Centre(row), row.owner, mode)))
            <==> NoGlobal(Boundaries(scope), mode)
  {
    if NoGlobal(Boundaries(scope), mode) {
      NoneGlobal(Boundaries(scope), mode);
      forall row | IsJoined(row)
        ensures Keeps(AssetQuery(scope, mode), row) <==> ContainsAsset(scope, Centre(row), row.owner, mode)
      {
        QueryMeans(scope, mode, row);
      }
    } else {
      var flagged :| flagged in Boundaries(scope) && flagged.Global(mode);
      var row := FlaggedDiffers(scope, mode, flagged);
    }
  }

  lemma NoneGlobal(rules: seq<Rule>, mode: Mode)
    requires NoGlobal(rules, mode)
    ensures NoGlobal(WithWrites(rules, mode), mode)
  {
    forall rule | rule in WithWrites(rules, mode) ensures !rule.Global(mode) { WithWritesMembers(rules, mode, rule); }
  }

  /** A rule with a global flag contains assets that no clause of the query mentions. */
  lemma FlaggedDiffers(scope: Scope, mode: Mode, flagged: Rule) returns (row: AssetRow)
    requires !scope.whole.Global(mode) && flagged in Boundaries(scope) && flagged.Global(mode)
    ensures IsJoined(row) && ContainsAsset(scope, Centre(row), row.owner, mode) && !Keeps(AssetQuery(scope, mode), row)
  {
    WithWritesMembers(Boundaries(scope), mode, flagged);
    var id := BeyondAll(AssetBoundaries(scope, mode), mode);
    row := AssetRow(Some(1), Some(id), None, Some(id));
    QueryMeans(scope, mode, row);
  }

  // ---------- the scope of a user ----------

  /** Saved authorization: the user's own boundary, its rules and the global switches. */
  datatype Grant = Grant(globalRead: bool, globalWrite: bool, own: Rule, rules: seq<Rule>)

  /** Saved boundaries never carry global flags (`_saved_boundary`). */
  predicate IsSaved(grant: Grant) {
    NoFlags(grant.own) && forall rule :: rule in grant.rules ==> NoFlags(rule)
  }

  predicate NoFlags(rule: Rule) {
    !rule.globalRead && !rule.globalWrite
  }

  function JoinClauses(a: Clause, b: Clause): Clause {
    Clause(a.centres + b.centres, a.unlocated || b.unlocated, a.departments + b.departments,
           a.allDepartments || b.allDepartments, a.unowned || b.unowned)
  }

  /** The field-wise union over all boundaries; write grants count as read grants. */
  function Union(rules: seq<Rule>, mode: Mode): Clause {
    if rules == [] then NOTHING
    else
      var last := rules[|rules| - 1];
      JoinClauses(Union(rules[..|rules| - 1], mode), if mode == Write then last.writing
          else JoinClauses(last.reading, last.writing))
  }

  /** `scope_for`: `admitted` is an authenticated active user, `manager` manages the organization. */
  function ScopeFor(admitted: bool, manager: bool, grant: Option<Grant>): Scope {
    if !admitted then Scope(Rule(false, false, NOTHING, NOTHING), [])
    else if manager then Scope(Rule(true, true, NOTHING.(unlocated := true), NOTHING.(unlocated := true)), [])
    else if grant == None then Scope(Rule(false, false, NOTHING, NOTHING), [])
    else
      var boundaries := [grant.value.own] + grant.value.rules;
      Scope(Rule(grant.value.globalRead || grant.value.globalWrite, grant.value.globalWrite,
                 Union(boundaries, Read), Union(boundaries, Write)),
            boundaries)
  }

  // ---------- laws of the scopes that exist ----------

  lemma {:induction false} UnionHolds(rules: seq<Rule>, mode: Mode, rule: Rule)
    requires rule in rules
    ensures var part := if mode == Write then rule.writing else JoinClauses(rule.reading, rule.writing);
            var all := Union(rules, mode);
            && part.centres <= all.centres && part.departments <= all.departments
            && (part.unlocated ==> all.unlocated) && (part.allDepartments ==> all.allDepartments)
            && (part.unowned ==> all.unowned)
  {
    if rule != rules[|rules| - 1] { UnionHolds(rules[..|rules| - 1], mode, rule); }
  }

  /** The rules of a user's scope carry no global flag, unless the whole scope is global. */
  lemma UserRulesPlain(admitted: bool, manager: bool, grant: Option<Grant>, mode: Mode)
    requires grant.Some? ==> IsSaved(grant.value)
    ensures var scope := ScopeFor(admitted, manager, grant);
            scope.whole.Global(mode) || NoGlobal(Boundaries(scope), mode)
  {}

  /** For every user the query shows exactly the assets that the predicate contains. */
  lemma UserQueryIsPredicate(admitted: bool, manager: bool, grant: Option<Grant>, mode: Mode, row: AssetRow)
    requires (grant.Some? ==> IsSaved(grant.value)) && IsJoined(row)
    ensures var scope := ScopeFor(admitted, manager, grant);
            Keeps(AssetQuery(scope, mode), row) <==> ContainsAsset(scope, Centre(row), row.owner, mode)
  {
    var scope := ScopeFor(admitted, manager, grant);
    UserRulesPlain(admitted, manager, grant, mode);
    if !scope.whole.Global(mode) { QueryIsPredicate(scope, mode); }
  }

  /** The rule allows both coordinates in its clause of the mode, or for reading in its write clause. */
  predicate Allows(rule: Rule, centre: Option<nat>, department: Option<nat>, mode: Mode) {
    || (rule.Contains(centre, mode) && rule.ContainsDepartment(department, mode))
    || (mode == Read && rule.reading != rule.writing && WriteAsRead(rule).Contains(centre, Read)
        && WriteAsRead(rule).ContainsDepartment(department, Read))
  }

  /** Access comes from one rule, in one of its two complete clauses. */
  lemma ContainsMeans(scope: Scope, centre: Option<nat>, department: Option<nat>, mode: Mode)
    ensures ContainsAsset(scope, centre, department, mode) <==>
            || scope.whole.Global(mode)
            || exists rule :: rule in Boundaries(scope) && Allows(rule, centre, department, mode)
  {
    var rules := AssetBoundaries(scope, mode);
    forall rule ensures rule in rules <==>
      exists r :: r in Boundaries(scope)
          && (rule == r || (mode == Read && r.reading != r.writing && rule == WriteAsRead(r)))
    {
      WithWritesMembers(Boundaries(scope), mode, rule);
    }
  }

  /** Write access to an asset includes read access to it. */
  lemma WriteImpliesRead(admitted: bool, manager: bool, grant: Option<Grant>, centre: Option<nat>,
                         department: Option<nat>)
    requires grant.Some? ==> IsSaved(grant.value)
    ensures var scope := ScopeFor(admitted, manager, grant);
            ContainsAsset(scope, centre, department, Write) ==> ContainsAsset(scope, centre, department, Read)
  {
    var scope := ScopeFor(admitted, manager, grant);
    ContainsMeans(scope, centre, department, Write);
    ContainsMeans(scope, centre, department, Read);
  }

  lemma RuleInFacets(scope: Scope, rule: Rule, centre: Option<nat>, department: Option<nat>, mode: Mode)
    requires rule in scope.rules && NoFlags(rule) && Allows(rule, centre, department, mode)
    requires scope.whole.Of(mode) == Union(scope.rules, mode)
    ensures scope.whole.Contains(centre, mode) && scope.whole.ContainsDepartment(department, mode)
  {
    UnionHolds(scope.rules, mode, rule);
  }

  /** Whoever reaches an asset also passes the checks of its centre and of its department alone. */
  lemma AssetImpliesFacets(admitted: bool, manager: bool, grant: Option<Grant>, centre: Option<nat>,
                           department: Option<nat>, mode: Mode)
    requires grant.Some? ==> IsSaved(grant.value)
    ensures var scope := ScopeFor(admitted, manager, grant);
            ContainsAsset(scope, centre, department, mode) ==>
              scope.whole.Contains(centre, mode) && scope.whole.ContainsDepartment(department, mode)
  {
    var scope := ScopeFor(admitted, manager, grant);
    ContainsMeans(scope, centre, department, mode);
    if ContainsAsset(scope, centre, department, mode) && !scope.whole.Global(mode) {
      if scope.rules != [] {
        var rule :| rule in scope.rules && Allows(rule, centre, department, mode);
        RuleInFacets(scope, rule, centre, department, mode);
      }
    }
  }

  /** A clause reaches the location, whatever the departments. */
  predicate Reaches(clause: Clause, centre: Option<nat>) {
    if centre == None then clause.unlocated else centre.value in clause.centres
  }

  predicate ReachesDepartment(clause: Clause, department: Option<nat>) {
    if department == None then clause.unowned else clause.allDepartments || department.value in clause.departments
  }

  /** A clause allows a centre and a department together. */
  predicate Admits(clause: Clause, centre: Option<nat>, department: Option<nat>) {
    Reaches(clause, centre) && ReachesDepartment(clause, department)
  }

  /** The user's own boundary or one of the granted rules admits both coordinates, in its write
      clause or, for reading, in either of its clauses. */
  predicate OneRuleAdmits(grant: Grant, centre: Option<nat>, department: Option<nat>, mode: Mode) {
    exists rule :: rule in [grant.own] + grant.rules
                   && (Admits(rule.writing, centre, department)
                       || (mode == Read && Admits(rule.reading, centre, department)))
  }

  lemma AdmitsIsAllows(rule: Rule, centre: Option<nat>, department: Option<nat>, mode: Mode)
    requires NoFlags(rule)
    ensures Allows(rule, centre, department, mode) <==>
            Admits(rule.writing, centre, department) || (mode == Read && Admits(rule.reading, centre, department))
  {}

  /** Access needs the global switch or a single rule that admits the centre and the department
      together: whatever the facets of different rules, they never add up. */
  lemma AccessNeedsOneRule(admitted: bool, manager: bool, grant: Option<Grant>, centre: Option<nat>,
                           department: Option<nat>, mode: Mode)
    requires grant.Some? ==> IsSaved(grant.value)
    ensures ContainsAsset(ScopeFor(admitted, manager, grant), centre, department, mode) <==>
            admitted && (manager || (grant.Some? &&
              (grant.value.globalWrite || (mode == Read && grant.value.globalRead)
                  || OneRuleAdmits(grant.value, centre, department, mode))))
  {
    var scope := ScopeFor(admitted, manager, grant);
    ContainsMeans(scope, centre, department, mode);
    if scope.rules != [] {
      assert Boundaries(scope) == [grant.value.own] + grant.value.rules;
      forall rule | rule in Boundaries(scope)
        ensures Allows(rule, centre, department, mode) <==>
                Admits(rule.writing, centre, department) || (mode == Read && Admits(rule.reading, centre, department))
      {
        AdmitsIsAllows(rule, centre, department, mode);
      }
    }
  }

  /** What the union contains, column by column. */
  lemma {:induction false} UnionIs(rules: seq<Rule>, mode: Mode, id: nat)
    ensures var all := Union(rules, mode);
            && (id in all.centres <==>
                 exists r :: r in rules && (id in r.writing.centres || (mode == Read && id in r.reading.centres)))
            && (id in all.departments <==>
                 exists r :: r in rules
                   && (id in r.writing.departments || (mode == Read && id in r.reading.departments)))
            && (all.unlocated <==>
                 exists r :: r in rules && (r.writing.unlocated || (mode == Read && r.reading.unlocated)))
            && (all.unowned <==> exists r :: r in rules && (r.writing.unowned || (mode == Read && r.reading.unowned)))
            && (all.allDepartments <==>
                 exists r :: r in rules && (r.writing.allDepartments || (mode == Read && r.reading.allDepartments)))
  {
    if rules != [] {
      var init, last := rules[..|rules| - 1], rules[|rules| - 1];
      UnionIs(init, mode, id);
      assert forall r :: r in rules <==> r in init || r == last;
    }
  }

  /** The user is a manager or has the global switch of the mode. */
  predicate Unlimited(manager: bool, grant: Option<Grant>, mode: Mode) {
    manager || (grant.Some? && (grant.value.globalWrite || (mode == Read && grant.value.globalRead)))
  }

  /** The check of a location alone passes exactly for users without limits and for those with a
      boundary that reaches it in its write clause or, for reading, in its read clause. */
  lemma CentreFacet(admitted: bool, manager: bool, grant: Option<Grant>, centre: Option<nat>, mode: Mode)
    ensures ScopeFor(admitted, manager, grant).whole.Contains(centre, mode) <==>
            admitted && (Unlimited(manager, grant, mode) || (grant.Some? &&
              exists rule :: rule in [grant.value.own] + grant.value.rules
                && (Reaches(rule.writing, centre) || (mode == Read && Reaches(rule.reading, centre)))))
  {
    if grant.Some? {
      UnionIs([grant.value.own] + grant.value.rules, mode, if centre.Some? then centre.value else 0);
    }
  }

  /** The same for the check of a department alone. */
  lemma DepartmentFacet(admitted: bool, manager: bool, grant: Option<Grant>, department: Option<nat>, mode: Mode)
    ensures ScopeFor(admitted, manager, grant).whole.ContainsDepartment(department, mode) <==>
            admitted && (Unlimited(manager, grant, mode) || (grant.Some? &&
              exists rule :: rule in [grant.value.own] + grant.value.rules
                && (ReachesDepartment(rule.writing, department)
                    || (mode == Read && ReachesDepartment(rule.reading, department)))))
  {
    if grant.Some? {
      UnionIs([grant.value.own] + grant.value.rules, mode, if department.Some? then department.value else 0);
    }
  }

  /** A rule for one centre and one department. */
  function OneRule(centre: nat, department: nat): Rule {
    var clause := Clause({centre}, false, {department}, false, false);
    Rule(false, false, clause, clause)
  }

  /** The facet checks alone do combine: two rules, each with its own centre and department. */
  lemma FacetsDoNotCombine()
    ensures var scope := ScopeFor(true, false, Some(Grant(false, false, OneRule(1, 1), [OneRule(2, 2)])));
            && scope.whole.Contains(Some(1), Read) && scope.whole.ContainsDepartment(Some(2), Read)
            && !ContainsAsset(scope, Some(1), Some(2), Read)
  {
    var scope := ScopeFor(true, false, Some(Grant(false, false, OneRule(1, 1), [OneRule(2, 2)])));
    assert scope.rules == [OneRule(1, 1), OneRule(2, 2)];
    UnionHolds(scope.rules, Read, OneRule(1, 1));
    UnionHolds(scope.rules, Read, OneRule(2, 2));
    ContainsMeans(scope, Some(1), Some(2), Read);
  }

  /** `full_department_access` at one location. */
  predicate FullDepartmentAccess(scope: Scope, centre: Option<nat>, mode: Mode) {
    || scope.whole.Global(mode)
    || (&& (exists rule ::
         rule in AssetBoundaries(scope, mode) && rule.Contains(centre, mode) && rule.Of(mode).allDepartments)
        && (exists rule ::
             rule in AssetBoundaries(scope, mode) && rule.Contains(centre, mode) && rule.Of(mode).unowned))
  }

  /** Full access at a location is access to every department there, present or future, and to
      unowned assets; no finite list of departments amounts to it. */
  lemma FullAccessMeansAll(scope: Scope, centre: Option<nat>, mode: Mode)
    requires scope.whole.Global(mode) || NoGlobal(Boundaries(scope), mode)
    ensures FullDepartmentAccess(scope, centre, mode) <==>
              forall department :: ContainsAsset(scope, centre, department, mode)
  {
    if !scope.whole.Global(mode) {
      var rules := AssetBoundaries(scope, mode);
      NoneGlobal(Boundaries(scope), mode);
      if forall department :: ContainsAsset(scope, centre, department, mode) {
        var id := BeyondAll(rules, mode);
        assert ContainsAsset(scope, centre, Some(id), mode);
        assert ContainsAsset(scope, centre, None, mode);
      }
    }
  }

  /** `full_department_access` without a location: at every location the scope reaches. */
  method FullDepartmentAccessEverywhere(scope: Scope, mode: Mode) returns (full: bool)
    ensures full <==> scope.whole.Global(mode)
                      || (&& (scope.whole.Of(mode).centres != {} || scope.whole.Of(mode).unlocated)
                          && forall centre ::
                               scope.whole.Contains(centre, mode) ==> FullDepartmentAccess(scope, centre, mode))
  {
    if scope.whole.Global(mode) { return true; }
    var centres := set c | c in scope.whole.Of(mode).centres :: Some(c);
    if scope.whole.Of(mode).unlocated { centres := centres + {None}; }
    assert forall centre :: centre in centres <==> scope.whole.Contains(centre, mode);
    full := centres != {} && forall c | c in centres :: FullDepartmentAccess(scope, c, mode);
    assert (scope.whole.Of(mode).centres != {} || scope.whole.Of(mode).unlocated) <==> centres != {} by {
      if scope.whole.Of(mode).unlocated { assert None in centres; }
      assert scope.whole.Of(mode).centres == {} && !scope.whole.Of(mode).unlocated ==> centres == {};
      assert forall c :: c in scope.whole.Of(mode).centres ==> Some(c) in centres;
    }
  }
}
