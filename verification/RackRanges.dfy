/** U positions of one rack: which cells are occupied, held, forbidden or free.

    Models `rack_position_ranges` (backend/assets/physical_location.py:217-233)
    and the U checks of `place_asset` (lines 268-309 of the same file).
    A lone free U between two neighbouring rows is a "gap" and may not be used.
 */
module RackRanges {

  datatype Option<+T> = None | Some(value: T)

  lemma HasMember(s: set<int>)
    ensures s != {} ==> exists x :: x in s
  {
    if !(exists x :: x in s) {
      assert s == {};
    }
  }

  datatype Span = Span(startU: int, endU: int) {
    predicate Overlaps(other: Span) {
      startU <= other.endU && endU >= other.startU
    }
  }

  datatype Device = Device(assetId: int, span: Span)

  datatype HoldStatus = Active | Released | Consumed

  datatype Hold = Hold(status: HoldStatus, span: Span)

  datatype Ranges = Ranges(occupied: seq<Span>, reserved: seq<Span>, gaps: seq<Span>, available: seq<Span>)

  // ---------- the rows that take part ----------

  function DeviceSpans(devices: seq<Device>, excluded: Option<int>): seq<Span> {
    if devices == [] then []
    else (if excluded == Some(devices[0].assetId) then [] else [devices[0].span]) + DeviceSpans(devices[1..], excluded)
  }

  function HoldSpans(holds: seq<Hold>): seq<Span> {
    if holds == [] then []
    else (if holds[0].status == Active then [holds[0].span] else []) + HoldSpans(holds[1..])
  }

  function Rows(devices: seq<Device>, excluded: Option<int>, holds: seq<Hold>): seq<Span> {
    DeviceSpans(devices, excluded) + HoldSpans(holds)
  }

  lemma DeviceSpanMembers(devices: seq<Device>, excluded: Option<int>, s: Span)
    ensures s in DeviceSpans(devices, excluded) <==>
              exists d :: d in devices && excluded != Some(d.assetId) && d.span == s
  {
    if devices != [] {
      DeviceSpanMembers(devices[1..], excluded, s);
      assert forall d :: d in devices <==> d == devices[0] || d in devices[1..];
    }
  }

  lemma HoldSpanMembers(holds: seq<Hold>, s: Span)
    ensures s in HoldSpans(holds) <==> exists h :: h in holds && h.status == Active && h.span == s
  {
    if holds != [] {
      HoldSpanMembers(holds[1..], s);
      assert forall h :: h in holds <==> h == holds[0] || h in holds[1..];
    }
  }

  lemma DeviceSpansConcat(a: seq<Device>, b: seq<Device>, excluded: Option<int>)
    ensures DeviceSpans(a + b, excluded) == DeviceSpans(a, excluded) + DeviceSpans(b, excluded)
  {
    if a == [] {
      assert a + b == b;
    } else {
      assert (a + b)[1..] == a[1..] + b;
      DeviceSpansConcat(a[1..], b, excluded);
    }
  }

  lemma ExcludedAbsent(devices: seq<Device>, assetId: int)
    requires forall d :: d in devices ==> d.assetId != assetId
    ensures DeviceSpans(devices, Some(assetId)) == DeviceSpans(devices, None)
  {
    if devices != [] {
      ExcludedAbsent(devices[1..], assetId);
    }
  }

  predicate InRange(s: Span, totalU: int) {
    1 <= s.startU <= s.endU <= totalU
  }

  /** Rows that a consistent rack holds: inside the rack and pairwise disjoint. */
  ghost predicate WellPlaced(rows: seq<Span>, totalU: int) {
    && (forall i :: 0 <= i < |rows| ==> InRange(rows[i], totalU))
    && (forall i, j :: 0 <= i < j < |rows| ==> !rows[i].Overlaps(rows[j]))
  }

  // ---------- sorting ----------

  function Insert(before: (Span, Span) -> bool, sorted: seq<Span>, s: Span): seq<Span> {
    if sorted == [] then [s]
    else if before(sorted[0], s) then [sorted[0]] + Insert(before, sorted[1..], s)
    else [s] + sorted
  }

  /** A stable sort: a later row goes behind the earlier rows with the same key. */
  function SortBy(before: (Span, Span) -> bool, spans: seq<Span>): seq<Span> {
    if spans == [] then [] else Insert(before, SortBy(before, spans[..|spans| - 1]), spans[|spans| - 1])
  }

  predicate ByStartThenEnd(a: Span, b: Span) {
    a.startU < b.startU || (a.startU == b.startU && a.endU <= b.endU)
  }

  predicate ByStart(a: Span, b: Span) {
    a.startU <= b.startU
  }

  ghost predicate OrdersByStart(before: (Span, Span) -> bool) {
    forall a, b :: if before(a, b) then a.startU <= b.startU else b.startU <= a.startU
  }

  lemma InsertMembers(before: (Span, Span) -> bool, sorted: seq<Span>, s: Span, x: Span)
    ensures x in Insert(before, sorted, s) <==> x in sorted || x == s
  {
    if sorted != [] && before(sorted[0], s) {
      InsertMembers(before, sorted[1..], s, x);
      assert x in sorted <==> x == sorted[0] || x in sorted[1..];
    }
  }

  lemma {:induction false} SortMembers(before: (Span, Span) -> bool, spans: seq<Span>, x: Span)
    ensures x in SortBy(before, spans) <==> x in spans
  {
    if spans != [] {
      var last := |spans| - 1;
      assert spans == spans[..last] + [spans[last]];
      SortMembers(before, spans[..last], x);
      InsertMembers(before, SortBy(before, spans[..last]), spans[last], x);
    }
  }

  /** Strictly increasing, disjoint spans lying in lo + 1..totalU. */
  predicate Chain(lo: int, spans: seq<Span>, totalU: int)
    decreases |spans|
  {
    if spans == [] then lo <= totalU
    else lo < spans[0].startU <= spans[0].endU && Chain(spans[0].endU, spans[1..], totalU)
  }

  lemma ChainMember(lo: int, spans: seq<Span>, totalU: int, x: Span)
    requires Chain(lo, spans, totalU) && x in spans
    ensures lo < x.startU <= x.endU <= totalU
    decreases |spans|
  {
    ChainBound(spans[0].endU, spans[1..], totalU);
    if x != spans[0] {
      ChainMember(spans[0].endU, spans[1..], totalU, x);
    }
  }

  lemma ChainBound(lo: int, spans: seq<Span>, totalU: int)
    requires Chain(lo, spans, totalU)
    ensures lo <= totalU
    decreases |spans|
  {
    if spans != [] { ChainBound(spans[0].endU, spans[1..], totalU); }
  }

  lemma {:induction false} InsertKeepsChain(before: (Span, Span) -> bool, lo: int, spans: seq<Span>, totalU: int,
                                            s: Span)
    requires OrdersByStart(before)
    requires Chain(lo, spans, totalU) && lo < s.startU <= s.endU <= totalU
    requires forall x :: x in spans ==> !x.Overlaps(s)
    ensures Chain(lo, Insert(before, spans, s), totalU)
    decreases |spans|
  {
    if spans != [] {
      var head := spans[0];
      assert head in spans;
      ChainMember(lo, spans, totalU, head);
      if before(head, s) {
        InsertKeepsChain(before, head.endU, spans[1..], totalU, s);
        assert Insert(before, spans, s)[1..] == Insert(before, spans[1..], s);
      } else {
        assert ([s] + spans)[1..] == spans;
      }
    } else {
      assert Insert(before, spans, s)[1..] == [];
    }
  }

  lemma {:induction false} SortedRowsChain(before: (Span, Span) -> bool, rows: seq<Span>, totalU: int)
    requires OrdersByStart(before) && WellPlaced(rows, totalU) && 0 <= totalU
    ensures Chain(0, SortBy(before, rows), totalU)
  {
    if rows != [] {
      var last := |rows| - 1;
      SortedRowsChain(before, rows[..last], totalU);
      var sorted := SortBy(before, rows[..last]);
      forall x | x in sorted ensures !x.Overlaps(rows[last]) {
        SortMembers(before, rows[..last], x);
        var i :| 0 <= i < last && rows[i] == x;
      }
      InsertKeepsChain(before, 0, sorted, totalU, rows[last]);
    }
  }

  /** A chain is determined by its members, so the order of the input rows is immaterial. */
  lemma {:induction false} ChainUnique(lo: int, a: seq<Span>, b: seq<Span>, totalU: int)
    requires Chain(lo, a, totalU) && Chain(lo, b, totalU)
    requires forall x :: x in a <==> x in b
    ensures a == b
    decreases |a|
  {
    assert |a| > 0 ==> a[0] in b;
    assert |b| > 0 ==> b[0] in a;
    if a != [] && b != [] {
      if a[0] != b[0] {
        assert a[0] in b[1..] && b[0] in a[1..];
        ChainMember(b[0].endU, b[1..], totalU, a[0]);
        ChainMember(a[0].endU, a[1..], totalU, b[0]);
      }
      forall x ensures x in a[1..] <==> x in b[1..] {
        if x in a[1..] { ChainMember(a[0].endU, a[1..], totalU, x); assert x in a; }
        if x in b[1..] { ChainMember(b[0].endU, b[1..], totalU, x); assert x in b; }
      }
      ChainUnique(a[0].endU, a[1..], b[1..], totalU);
    }
  }

  // ---------- gaps and free ranges ----------

  /** The single free U between two rows that are neighbours in sorted order. */
  function GapSpans(sorted: seq<Span>): seq<Span> {
    if |sorted| < 2 then []
    else (if sorted[1].startU - sorted[0].endU == 2 then [Span(sorted[0].endU + 1, sorted[0].endU + 1)] else [])
         + GapSpans(sorted[1..])
  }

  lemma GapWitness(sorted: seq<Span>, g: Span) returns (i: nat)
    requires g in GapSpans(sorted)
    ensures i + 1 < |sorted| && sorted[i + 1].startU == sorted[i].endU + 2
    ensures g == Span(sorted[i].endU + 1, sorted[i].endU + 1)
  {
    if sorted[1].startU - sorted[0].endU == 2 && g == Span(sorted[0].endU + 1, sorted[0].endU + 1) {
      i := 0;
    } else {
      i := GapWitness(sorted[1..], g);
      i := i + 1;
    }
  }

  lemma GapExists(sorted: seq<Span>, i: nat)
    requires i + 1 < |sorted| && sorted[i + 1].startU == sorted[i].endU + 2
    ensures Span(sorted[i].endU + 1, sorted[i].endU + 1) in GapSpans(sorted)
  {
    if i > 0 {
      GapExists(sorted[1..], i - 1);
    }
  }

  function Max(a: int, b: int): int { if a > b then a else b }

  function Min(a: int, b: int): int { if a < b then a else b }

  /** What the cursor of the source's loop leaves uncovered from `cursor` on. */
  function Complement(cursor: int, marks: seq<Span>, totalU: int): seq<Span>
    decreases |marks|
  {
    if marks == [] then (if cursor <= totalU then [Span(cursor, totalU)] else [])
    else (if cursor < marks[0].startU then [Span(cursor, Min(totalU, marks[0].startU - 1))] else [])
         + Complement(Max(cursor, marks[0].endU + 1), marks[1..], totalU)
  }

  function SortedRows(devices: seq<Device>, excluded: Option<int>, holds: seq<Hold>): seq<Span> {
    SortBy(ByStartThenEnd, Rows(devices, excluded, holds))
  }

  function Marks(rows: seq<Span>): seq<Span> {
    SortBy(ByStart, rows + GapSpans(SortBy(ByStartThenEnd, rows)))
  }

  /** One pass over the marked spans with a cursor, as the source does it. */
  method RackPositionRanges(devices: seq<Device>, totalU: int, excluded: Option<int>, holds: seq<Hold>)
    returns (r: Ranges)
    ensures r.occupied == DeviceSpans(devices, excluded)
    ensures r.reserved == HoldSpans(holds)
    ensures r.gaps == GapSpans(SortedRows(devices, excluded, holds))
    ensures r.available == Complement(1, Marks(Rows(devices, excluded, holds)), totalU)
  {
    var occupied := DeviceSpans(devices, excluded);
    var reserved := HoldSpans(holds);
    var rows := SortBy(ByStartThenEnd, occupied + reserved);
    var gaps := GapSpans(rows);
    var marks := SortBy(ByStart, occupied + reserved + gaps);
    assert marks == Marks(Rows(devices, excluded, holds));
    var available, cursor, i := [], 1, 0;
    while i < |marks|
      invariant 0 <= i <= |marks|
      invariant Complement(1, marks, totalU) == available + Complement(cursor, marks[i..], totalU)
    {
      ComplementStep(cursor, marks, i, totalU, available);
      if cursor < marks[i].startU {
        available := available + [Span(cursor, Min(totalU, marks[i].startU - 1))];
      }
      cursor := Max(cursor, marks[i].endU + 1);
      i := i + 1;
    }
    if cursor <= totalU {
      available := available + [Span(cursor, totalU)];
    }
    r := Ranges(occupied, reserved, gaps, available);
  }

  lemma ComplementStep(cursor: int, marks: seq<Span>, i: nat, totalU: int, done: seq<Span>)
    requires i < |marks|
    ensures done + Complement(cursor, marks[i..], totalU) ==
            done + (if cursor < marks[i].startU then [Span(cursor, Min(totalU, marks[i].startU - 1))] else [])
            + Complement(Max(cursor, marks[i].endU + 1), marks[i + 1..], totalU)
  {
    assert marks[i..][1..] == marks[i + 1..];
  }

  // ---------- what the four lists mean, cell by cell ----------

  ghost predicate Covers(spans: seq<Span>, u: int) {
    exists s :: s in spans && s.startU <= u <= s.endU
  }

  lemma GapsBetweenRows(rows: seq<Span>, totalU: int, g: Span)
    requires WellPlaced(rows, totalU) && 0 <= totalU && g in GapSpans(SortBy(ByStartThenEnd, rows))
    ensures g.startU == g.endU && 1 < g.startU < totalU
    ensures Covers(rows, g.startU - 1) && Covers(rows, g.startU + 1) && !Covers(rows, g.startU)
  {
    var sorted := SortBy(ByStartThenEnd, rows);
    SortedRowsChain(ByStartThenEnd, rows, totalU);
    var i := GapWitness(sorted, g);
    SortMembers(ByStartThenEnd, rows, sorted[i]);
    SortMembers(ByStartThenEnd, rows, sorted[i + 1]);
    forall s | s in rows ensures !(s.startU <= g.startU <= s.endU) {
      SortMembers(ByStartThenEnd, rows, s);
      ChainAround(0, sorted, totalU, i, s);
    }
  }

  lemma {:induction false} ChainAround(lo: int, spans: seq<Span>, totalU: int, i: nat, s: Span)
    requires Chain(lo, spans, totalU) && i + 1 < |spans| && s in spans
    ensures lo < spans[i].startU <= spans[i].endU < spans[i + 1].startU <= spans[i + 1].endU <= totalU
    ensures s.endU <= spans[i].endU || spans[i + 1].startU <= s.startU
    decreases |spans|
  {
    var rest := spans[1..];
    if i == 0 {
      if s != spans[0] && s != spans[1] {
        assert s in rest[1..];
        ChainMember(rest[0].endU, rest[1..], totalU, s);
      }
      ChainBound(rest[0].endU, rest[1..], totalU);
    } else {
      ChainMember(spans[0].endU, rest, totalU, rest[i - 1]);
      if s == spans[0] {
        ChainAround(spans[0].endU, rest, totalU, i - 1, rest[0]);
      } else {
        ChainAround(spans[0].endU, rest, totalU, i - 1, s);
      }
    }
  }

  lemma {:induction false} FirstRowFrom(lo: int, spans: seq<Span>, totalU: int, u: int) returns (i: nat)
    requires Chain(lo, spans, totalU) && !Covers(spans, u) && Covers(spans, u + 1) && Covers(spans, u - 1)
    ensures i + 1 < |spans| && spans[i].endU == u - 1 && spans[i + 1].startU == u + 1
    decreases |spans|
  {
    var rest := spans[1..];
    assert spans[0] in spans;
    if spans[0].endU == u - 1 {
      i := 0;
      var s :| s in spans && s.startU <= u + 1 <= s.endU;
      assert s in rest;
      assert rest[0] in spans;
      if s != rest[0] { ChainMember(rest[0].endU, rest[1..], totalU, s); }
    } else {
      forall v | (v == u - 1 || v == u + 1) ensures Covers(rest, v) {
        var s :| s in spans && s.startU <= v <= s.endU;
        if s == spans[0] {
          assert v == u + 1;
          var t :| t in spans && t.startU <= u - 1 <= t.endU;
          ChainMember(spans[0].endU, rest, totalU, t);
        }
      }
      assert forall s :: s in rest ==> s in spans;
      i := FirstRowFrom(spans[0].endU, rest, totalU, u);
      i := i + 1;
    }
  }

  /** The reported gaps are exactly the free cells squeezed between two covered ones. */
  lemma GapsExact(rows: seq<Span>, totalU: int, u: int)
    requires WellPlaced(rows, totalU) && 0 <= totalU
    ensures Covers(GapSpans(SortBy(ByStartThenEnd, rows)), u) <==>
            !Covers(rows, u) && Covers(rows, u - 1) && Covers(rows, u + 1)
  {
    var sorted := SortBy(ByStartThenEnd, rows);
    if Covers(GapSpans(sorted), u) {
      var g :| g in GapSpans(sorted) && g.startU <= u <= g.endU;
      GapsBetweenRows(rows, totalU, g);
    } else if !Covers(rows, u) && Covers(rows, u - 1) && Covers(rows, u + 1) {
      SortedRowsChain(ByStartThenEnd, rows, totalU);
      forall v ensures Covers(sorted, v) <==> Covers(rows, v) {
        forall s ensures s in sorted <==> s in rows { SortMembers(ByStartThenEnd, rows, s); }
      }
      var i := FirstRowFrom(0, sorted, totalU, u);
      GapExists(sorted, i);
    }
  }

  lemma MarksChain(rows: seq<Span>, totalU: int)
    requires WellPlaced(rows, totalU) && 0 <= totalU
    ensures Chain(0, Marks(rows), totalU)
    ensures forall s :: s in Marks(rows) <==> s in rows || s in GapSpans(SortBy(ByStartThenEnd, rows))
  {
    var gaps := GapSpans(SortBy(ByStartThenEnd, rows));
    SortedRowsChain(ByStartThenEnd, rows, totalU);
    GapSpansDistinct(0, SortBy(ByStartThenEnd, rows), totalU);
    forall i | 0 <= i < |gaps| ensures InRange(gaps[i], totalU) && forall s :: s in rows ==> !s.Overlaps(gaps[i]) {
      assert gaps[i] in gaps;
      GapsBetweenRows(rows, totalU, gaps[i]);
    }
    assert forall i :: 0 <= i < |rows| ==> rows[i] in rows;
    SortedRowsChain(ByStart, rows + gaps, totalU);
    forall s ensures s in Marks(rows) <==> s in rows || s in gaps {
      SortMembers(ByStart, rows + gaps, s);
    }
  }

  lemma {:induction false} GapSpansDistinct(lo: int, sorted: seq<Span>, totalU: int)
    requires Chain(lo, sorted, totalU)
    ensures forall i :: 0 <= i < |GapSpans(sorted)| ==> lo < GapSpans(sorted)[i].startU
    ensures forall i, j :: 0 <= i < j < |GapSpans(sorted)| ==> !GapSpans(sorted)[i].Overlaps(GapSpans(sorted)[j])
    decreases |sorted|
  {
    if |sorted| >= 2 {
      var rest := GapSpans(sorted[1..]);
      GapSpansDistinct(sorted[0].endU, sorted[1..], totalU);
      forall i | 0 <= i < |rest| ensures rest[i].startU == rest[i].endU > sorted[0].endU + 1 {
        assert rest[i] in rest;
        var k := GapWitness(sorted[1..], rest[i]);
        ChainMember(sorted[0].endU, sorted[1..], totalU, sorted[1..][k]);
      }
    }
  }

  lemma CoversHead(head: Span, rest: seq<Span>, u: int)
    ensures Covers([head] + rest, u) <==> head.startU <= u <= head.endU || Covers(rest, u)
  {
    var all := [head] + rest;
    assert all[0] == head && forall i :: 0 <= i < |rest| ==> all[i + 1] == rest[i];
    assert head in all && forall s :: s in rest ==> s in all;
  }

  lemma {:induction false} ComplementCells(lo: int, marks: seq<Span>, totalU: int, u: int)
    requires Chain(lo, marks, totalU) && lo < u <= totalU
    ensures Covers(Complement(lo + 1, marks, totalU), u) <==> !Covers(marks, u)
    decreases |marks|
  {
    if marks == [] {
      CoversHead(Span(lo + 1, totalU), [], u);
    } else {
      var head, rest := marks[0], marks[1..];
      var tail := Complement(head.endU + 1, rest, totalU);
      assert marks == [head] + rest;
      CoversHead(head, rest, u);
      ChainBound(head.endU, rest, totalU);
      CoversHead(Span(lo + 1, head.startU - 1), tail, u);
      if u <= head.endU {
        forall s | s in rest ensures u < s.startU { ChainMember(head.endU, rest, totalU, s); }
        ComplementShape(head.endU, rest, totalU);
        assert !Covers(tail, u);
      } else {
        ComplementCells(head.endU, rest, totalU, u);
      }
    }
  }

  /** Ranges inside lo + 1..totalU in increasing order, no two of them touching. */
  ghost predicate Separated(lo: int, spans: seq<Span>, totalU: int) {
    && (forall i :: 0 <= i < |spans| ==> lo < spans[i].startU <= spans[i].endU <= totalU)
    && (forall i, j :: 0 <= i < j < |spans| ==> spans[i].endU + 1 < spans[j].startU)
  }

  lemma {:induction false} ComplementShape(lo: int, marks: seq<Span>, totalU: int)
    requires Chain(lo, marks, totalU)
    ensures Separated(lo, Complement(lo + 1, marks, totalU), totalU)
    decreases |marks|
  {
    if marks != [] {
      ChainBound(marks[0].endU, marks[1..], totalU);
      ComplementShape(marks[0].endU, marks[1..], totalU);
    }
  }

  /** Every cell of the rack lies in exactly one of: a row, a gap, an available range;
      the available ranges are sorted and maximal (no two of them touch). */
  lemma RangesPartition(rows: seq<Span>, totalU: int)
    requires WellPlaced(rows, totalU) && 0 <= totalU
    ensures var gaps := GapSpans(SortBy(ByStartThenEnd, rows));
            var available := Complement(1, Marks(rows), totalU);
            && (forall u :: 1 <= u <= totalU ==> (Covers(available, u) <==> !Covers(rows, u) && !Covers(gaps, u)))
            && (forall u :: !(Covers(rows, u) && Covers(gaps, u)))
            && Separated(0, available, totalU)
  {
    var gaps := GapSpans(SortBy(ByStartThenEnd, rows));
    MarksChain(rows, totalU);
    ComplementShape(0, Marks(rows), totalU);
    forall u | 1 <= u <= totalU
      ensures Covers(Complement(1, Marks(rows), totalU), u) <==> !Covers(rows, u) && !Covers(gaps, u)
    {
      ComplementCells(0, Marks(rows), totalU, u);
      assert Covers(Marks(rows), u) <==> Covers(rows, u) || Covers(gaps, u) by {
        assert forall s :: s in Marks(rows) <==> s in rows || s in gaps;
      }
    }
    forall u ensures !(Covers(rows, u) && Covers(gaps, u)) { GapsExact(rows, totalU, u); }
  }

  // ---------- the U checks of place_asset ----------

  ghost predicate Free(rows: seq<Span>, target: Span) {
    forall s :: s in rows ==> !s.Overlaps(target)
  }

  /** The range, hold, conflict and gap tests in the order the source runs them. */
  predicate PassesUnitChecks(devices: seq<Device>, holds: seq<Hold>, totalU: int, assetId: int, target: Span) {
    var rows := Rows(devices, Some(assetId), holds);
    && 1 <= target.startU && 1 <= target.endU
    && target.startU <= target.endU
    && target.endU <= totalU
    && (forall h :: h in holds && h.status == Active ==> !target.Overlaps(h.span))
    && (forall d :: d in devices && d.assetId != assetId ==> !target.Overlaps(d.span))
    && (forall g :: g in GapSpans(SortBy(ByStartThenEnd, rows)) ==> !target.Overlaps(g))
  }

  /** For a consistent rack the checks say: inside, free, and not filling a squeezed single cell. */
  lemma UnitChecksMeaning(devices: seq<Device>, holds: seq<Hold>, totalU: int, assetId: int, target: Span)
    requires 0 <= totalU && WellPlaced(Rows(devices, Some(assetId), holds), totalU)
    ensures var rows := Rows(devices, Some(assetId), holds);
            PassesUnitChecks(devices, holds, totalU, assetId, target) <==>
            && InRange(target, totalU)
            && (forall u :: target.startU <= u <= target.endU ==> !Covers(rows, u))
            && !(target.startU == target.endU && Covers(rows, target.startU - 1) && Covers(rows, target.endU + 1))
  {
    var rows := Rows(devices, Some(assetId), holds);
    var gaps := GapSpans(SortBy(ByStartThenEnd, rows));
    forall s ensures s in rows <==>
      || (exists h :: h in holds && h.status == Active && h.span == s)
      || (exists d :: d in devices && d.assetId != assetId && d.span == s)
    {
      DeviceSpanMembers(devices, Some(assetId), s);
      HoldSpanMembers(holds, s);
    }
    if InRange(target, totalU) {
      if !Free(rows, target) {
        var s :| s in rows && s.Overlaps(target);
        assert Covers(rows, Max(s.startU, target.startU));
      }
      assert (forall u :: target.startU <= u <= target.endU ==> !Covers(rows, u)) <==> Free(rows, target);
      if Free(rows, target) {
        TargetMeetsGap(rows, totalU, target);
        assert forall h :: h in holds && h.status == Active ==> h.span in rows;
        assert forall d :: d in devices && d.assetId != assetId ==> d.span in rows;
      } else {
        var s :| s in rows && s.Overlaps(target);
      }
    }
  }

  lemma TargetMeetsGap(rows: seq<Span>, totalU: int, target: Span)
    requires 0 <= totalU && WellPlaced(rows, totalU) && InRange(target, totalU) && Free(rows, target)
    ensures (exists g :: g in GapSpans(SortBy(ByStartThenEnd, rows)) && target.Overlaps(g)) <==>
            target.startU == target.endU && Covers(rows, target.startU - 1) && Covers(rows, target.endU + 1)
  {
    var gaps := GapSpans(SortBy(ByStartThenEnd, rows));
    forall g | g in gaps && target.Overlaps(g)
      ensures target.startU == target.endU == g.startU && Covers(rows, g.startU - 1) && Covers(rows, g.startU + 1)
    {
      GapsBetweenRows(rows, totalU, g);
    }
    if target.startU == target.endU {
      GapsExact(rows, totalU, target.startU);
    }
  }
}
