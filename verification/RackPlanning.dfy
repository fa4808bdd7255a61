/** The capacity plan for a batch of equal-height devices in one rack.

    Models the capacity and placement part of `plan_rack_capacity`
    (backend/assets/rack_planning.py:20-44) and proves that the reported capacity
    is the longest sequence of legal single-device writes, and that the suggested
    placements are themselves such a sequence.
 */
module RackPlanning {
  import opened RackRanges

  // ---------- legal sequences of writes ----------

  /** Each write is for an asset that is not in the rack yet, has the wanted height and
      passes `place_asset`'s U checks in the state that the earlier writes left. */
  ghost predicate LegalRun(devices: seq<Device>, holds: seq<Hold>, totalU: int, height: int, writes: seq<Device>) {
    forall k :: 0 <= k < |writes| ==> LegalWrite(devices + writes[..k], holds, totalU, height, writes[k])
  }

  ghost predicate LegalWrite(devices: seq<Device>, holds: seq<Hold>, totalU: int, height: int, write: Device) {
    && (forall d :: d in devices ==> d.assetId != write.assetId)
    && write.span.endU - write.span.startU + 1 == height
    && PassesUnitChecks(devices, holds, totalU, write.assetId, write.span)
  }

  /** A rack in which the reported rows are consistent. */
  ghost predicate Consistent(devices: seq<Device>, holds: seq<Hold>, totalU: int) {
    0 <= totalU && WellPlaced(Rows(devices, None, holds), totalU)
  }

  lemma RunConcat(devices: seq<Device>, holds: seq<Hold>, totalU: int, height: int, a: seq<Device>, b: seq<Device>)
    requires LegalRun(devices, holds, totalU, height, a)
    requires LegalRun(devices + a, holds, totalU, height, b)
    ensures LegalRun(devices, holds, totalU, height, a + b)
  {
    forall k | 0 <= k < |a + b| ensures LegalWrite(devices + (a + b)[..k], holds, totalU, height, (a + b)[k]) {
      if k < |a| {
        assert (a + b)[..k] == a[..k];
      } else {
        assert devices + (a + b)[..k] == (devices + a) + b[..k - |a|];
      }
    }
  }

  lemma RowsOfExtended(devices: seq<Device>, holds: seq<Hold>, write: Device, s: Span)
    ensures s in Rows(devices + [write], None, holds) <==> s in Rows(devices, None, holds) || s == write.span
  {
    DeviceSpansConcat(devices, [write], None);
    assert DeviceSpans([write], None) == [write.span];
  }

  /** An accepted write leaves a consistent rack. */
  lemma WriteKeepsConsistent(devices: seq<Device>, holds: seq<Hold>, totalU: int, write: Device)
    requires Consistent(devices, holds, totalU) && InRange(write.span, totalU)
    requires Free(Rows(devices, None, holds), write.span)
    ensures Consistent(devices + [write], holds, totalU)
  {
    DeviceSpansConcat(devices, [write], None);
    assert DeviceSpans([write], None) == [write.span];
    InsertedPlaced(DeviceSpans(devices, None), write.span, HoldSpans(holds), totalU);
  }

  /** The row at index `i` once a span is put between two lists. */
  lemma InsertedAt(a: seq<Span>, span: Span, b: seq<Span>, i: nat)
    requires i < |a| + 1 + |b|
    ensures (a + [span] + b)[i] == if i < |a| then (a + b)[i] else if i == |a| then span else (a + b)[i - 1]
  {}

  lemma InsertedPlaced(a: seq<Span>, span: Span, b: seq<Span>, totalU: int)
    requires WellPlaced(a + b, totalU) && InRange(span, totalU) && Free(a + b, span)
    ensures WellPlaced(a + [span] + b, totalU)
  {
    var rows := a + [span] + b;
    forall i | 0 <= i < |rows| ensures InRange(rows[i], totalU) { InsertedAt(a, span, b, i); }
    forall i, j | 0 <= i < j < |rows| ensures !rows[i].Overlaps(rows[j]) { InsertedApart(a, span, b, totalU, i, j); }
  }

  lemma InsertedApart(a: seq<Span>, span: Span, b: seq<Span>, totalU: int, i: nat, j: nat)
    requires WellPlaced(a + b, totalU) && Free(a + b, span) && i < j < |a| + 1 + |b|
    ensures !(a + [span] + b)[i].Overlaps((a + [span] + b)[j])
  {
    InsertedAt(a, span, b, i);
    InsertedAt(a, span, b, j);
    if i == |a| {
      assert (a + b)[j - 1] in a + b;
    } else if j == |a| {
      assert (a + b)[i] in a + b;
    }
  }

  lemma AcceptedIsFree(devices: seq<Device>, holds: seq<Hold>, totalU: int, height: int, write: Device)
    requires LegalWrite(devices, holds, totalU, height, write)
    ensures Rows(devices, Some(write.assetId), holds) == Rows(devices, None, holds)
    ensures InRange(write.span, totalU) && Free(Rows(devices, None, holds), write.span)
  {
    ExcludedAbsent(devices, write.assetId);
    forall s | s in Rows(devices, None, holds) ensures !s.Overlaps(write.span) {
      DeviceSpanMembers(devices, None, s);
      HoldSpanMembers(holds, s);
    }
  }

  // ---------- the capacity of a rack as a potential ----------

  /** What one available range can take (backend/assets/rack_planning.py:32-34). */
  function SpanCapacity(span: Span, totalU: int, height: int): int
    requires height >= 1
  {
    var length := span.endU - span.startU + 1;
    var bounded := span.startU > 1 && span.endU < totalU;
    if height == 1 && bounded then Max(0, length - 1) else length / height
  }

  function TotalCapacity(spans: seq<Span>, totalU: int, height: int): int
    requires height >= 1
  {
    if spans == [] then 0 else SpanCapacity(spans[0], totalU, height) + TotalCapacity(spans[1..], totalU, height)
  }

  /** The free cells strictly between two row edges. */
  function SlotCapacity(lo: int, hi: int, totalU: int, height: int): int
    requires height >= 1
  {
    if hi - lo <= 1 then 0 else SpanCapacity(Span(lo + 1, hi - 1), totalU, height)
  }

  /** The sum over all maximal runs of free cells above `lo`. */
  function Potential(lo: int, sorted: seq<Span>, totalU: int, height: int): int
    requires height >= 1
    decreases |sorted|
  {
    if sorted == [] then SlotCapacity(lo, totalU + 1, totalU, height)
    else SlotCapacity(lo, sorted[0].startU, totalU, height) + Potential(sorted[0].endU, sorted[1..], totalU, height)
  }

  lemma DivAtLeast(x: int, height: int, k: int)
    requires height >= 1 && k * height <= x
    ensures k <= x / height
  {
    var q := x / height;
    assert (q + 1 - k) * height == q * height + height - k * height > 0;
  }

  lemma DivisionSplits(a: int, b: int, height: int)
    requires height >= 1 && a >= 0 && b >= 0
    ensures 0 <= a / height
    ensures a / height + b / height <= (a + b) / height
    ensures a / height + 1 <= (a + height) / height
  {
    var qa, qb := a / height, b / height;
    assert (qa + qb) * height == qa * height + qb * height;
    DivAtLeast(a, height, 0);
    DivAtLeast(a + b, height, qa + qb);
    assert (qa + 1) * height == qa * height + height;
    DivAtLeast(a + height, height, qa + 1);
  }

  /** Cutting a free run in two around a placed device costs at least one place. */
  lemma SlotSplit(lo: int, hi: int, totalU: int, height: int, start: int)
    requires height >= 1 && 0 <= lo < start && start + height <= hi <= totalU + 1
    requires !(height == 1 && lo > 0 && hi <= totalU && hi - lo == 2)
    ensures SlotCapacity(lo, start, totalU, height) + SlotCapacity(start + height - 1, hi, totalU, height)
            <= SlotCapacity(lo, hi, totalU, height) - 1
  {
    var a, b := start - lo - 1, hi - start - height;
    DivisionSplits(a, b, height);
    DivisionSplits(a + b, 0, height);
    assert hi - lo - 1 == a + b + height;
    if height == 1 {
      assert a / 1 == a && b / 1 == b && (a + b + 1) / 1 == a + b + 1;
    } else {
      assert SlotCapacity(lo, hi, totalU, height) == (a + b + height) / height;
      assert SlotCapacity(lo, start, totalU, height) <= a / height;
      assert SlotCapacity(start + height - 1, hi, totalU, height) <= b / height;
    }
  }

  lemma {:induction false} PotentialNonNegative(lo: int, sorted: seq<Span>, totalU: int, height: int)
    requires height >= 1 && 0 <= lo && Chain(lo, sorted, totalU)
    ensures Potential(lo, sorted, totalU, height) >= 0
    decreases |sorted|
  {
    var hi := if sorted == [] then totalU + 1 else sorted[0].startU;
    if hi - lo > 1 { DivisionSplits(hi - lo - 1, 0, height); }
    if sorted != [] { PotentialNonNegative(sorted[0].endU, sorted[1..], totalU, height); }
  }

  /** Every accepted write lowers the potential by at least one, wherever it lands. */
  lemma {:induction false} WriteLowersPotential(lo: int, sorted: seq<Span>, totalU: int, height: int, target: Span)
    requires height >= 1 && 0 <= lo && Chain(lo, sorted, totalU)
    requires target.endU - target.startU + 1 == height && lo < target.startU && target.endU <= totalU
    requires Free(sorted, target)
    requires lo > 0 && sorted != [] && sorted[0].startU - lo == 2 ==> !target.Overlaps(Span(lo + 1, lo + 1))
    requires forall g :: g in GapSpans(sorted) ==> !target.Overlaps(g)
    ensures Potential(lo, Insert(ByStartThenEnd, sorted, target), totalU, height)
            <= Potential(lo, sorted, totalU, height) - 1
    decreases |sorted|
  {
    var after := Insert(ByStartThenEnd, sorted, target);
    if sorted == [] {
      SlotSplit(lo, totalU + 1, totalU, height, target.startU);
      assert after[1..] == [];
    } else {
      var head, rest := sorted[0], sorted[1..];
      assert head in sorted;
      ChainMember(lo, sorted, totalU, head);
      if ByStartThenEnd(head, target) {
        assert after[1..] == Insert(ByStartThenEnd, rest, target);
        if rest != [] && rest[0].startU - head.endU == 2 {
          assert Span(head.endU + 1, head.endU + 1) in GapSpans(sorted);
        }
        assert forall g :: g in GapSpans(rest) ==> g in GapSpans(sorted);
        WriteLowersPotential(head.endU, rest, totalU, height, target);
      } else {
        assert after[1..] == sorted;
        SlotSplit(lo, head.startU, totalU, height, target.startU);
      }
    }
  }

  /** The free run below `hi`, unless it is empty or a squeezed single cell. */
  function RunBelow(lo: int, hi: int): seq<Span> {
    if hi == lo + 1 || (lo > 0 && hi == lo + 2) then [] else [Span(lo + 1, hi - 1)]
  }

  lemma ComplementHead(lo: int, sorted: seq<Span>, totalU: int)
    requires 0 <= lo && sorted != [] && Chain(lo, sorted, totalU)
    ensures Complement(lo + 1, WithGaps(lo, sorted), totalU)
            == RunBelow(lo, sorted[0].startU) + Complement(sorted[0].endU + 1, WithGaps(sorted[0].endU, sorted[1..]),
                                                           totalU)
  {
    var head, rest := sorted[0], sorted[1..];
    assert head in sorted;
    ChainMember(lo, sorted, totalU, head);
    var marks := [head] + WithGaps(head.endU, rest);
    assert marks[1..] == WithGaps(head.endU, rest);
    if lo > 0 && head.startU == lo + 2 {
      assert ([Span(lo + 1, lo + 1)] + marks)[1..] == marks;
    } else {
      assert WithGaps(lo, sorted) == marks;
    }
  }

  /** The available ranges of a chain of rows, run by run. */
  function FreeRuns(lo: int, sorted: seq<Span>, totalU: int): seq<Span>
    decreases |sorted|
  {
    if sorted == [] then (if lo < totalU then [Span(lo + 1, totalU)] else [])
    else RunBelow(lo, sorted[0].startU) + FreeRuns(sorted[0].endU, sorted[1..], totalU)
  }

  lemma {:induction false} ComplementIsFreeRuns(lo: int, sorted: seq<Span>, totalU: int)
    requires 0 <= lo && Chain(lo, sorted, totalU)
    ensures Complement(lo + 1, WithGaps(lo, sorted), totalU) == FreeRuns(lo, sorted, totalU)
    decreases |sorted|
  {
    if sorted != [] {
      ComplementHead(lo, sorted, totalU);
      ComplementIsFreeRuns(sorted[0].endU, sorted[1..], totalU);
    }
  }

  lemma CapacityOfHead(lo: int, hi: int, tail: seq<Span>, totalU: int, height: int)
    requires height >= 1 && 0 <= lo < hi <= totalU
    ensures TotalCapacity(RunBelow(lo, hi) + tail, totalU, height)
            == SlotCapacity(lo, hi, totalU, height) + TotalCapacity(tail, totalU, height)
  {
    if RunBelow(lo, hi) == [] {
      assert [] + tail == tail;
    } else {
      assert ([Span(lo + 1, hi - 1)] + tail)[1..] == tail;
    }
  }

  /** The sum the source computes over the available ranges is this potential. */
  lemma {:induction false} CapacityIsPotential(lo: int, sorted: seq<Span>, totalU: int, height: int)
    requires height >= 1 && 0 <= lo && Chain(lo, sorted, totalU)
    ensures TotalCapacity(FreeRuns(lo, sorted, totalU), totalU, height) == Potential(lo, sorted, totalU, height)
    decreases |sorted|
  {
    if sorted == [] {
      if lo < totalU {
        assert [Span(lo + 1, totalU)][1..] == [];
      }
    } else {
      var head, rest := sorted[0], sorted[1..];
      assert head in sorted;
      ChainMember(lo, sorted, totalU, head);
      CapacityIsPotential(head.endU, rest, totalU, height);
      CapacityOfHead(lo, head.startU, FreeRuns(head.endU, rest, totalU), totalU, height);
    }
  }

  /** The rows of a chain with each squeezed cell inserted before the row that closes it. */
  function WithGaps(lo: int, sorted: seq<Span>): seq<Span>
    decreases |sorted|
  {
    if sorted == [] then []
    else (if lo > 0 && sorted[0].startU == lo + 2 then [Span(lo + 1, lo + 1)] else [])
         + ([sorted[0]] + WithGaps(sorted[0].endU, sorted[1..]))
  }

  lemma {:induction false} WithGapsChain(lo: int, sorted: seq<Span>, totalU: int)
    requires 0 <= lo && Chain(lo, sorted, totalU)
    ensures Chain(lo, WithGaps(lo, sorted), totalU)
    decreases |sorted|
  {
    if sorted != [] {
      var head := sorted[0];
      WithGapsChain(head.endU, sorted[1..], totalU);
      var marks := [head] + WithGaps(head.endU, sorted[1..]);
      assert marks[1..] == WithGaps(head.endU, sorted[1..]);
      if lo > 0 && head.startU == lo + 2 {
        assert ([Span(lo + 1, lo + 1)] + marks)[1..] == marks;
      } else {
        assert [] + marks == marks;
      }
    }
  }

  lemma {:induction false} WithGapsMembers(lo: int, sorted: seq<Span>, totalU: int, s: Span)
    requires 0 <= lo && Chain(lo, sorted, totalU)
    ensures s in WithGaps(lo, sorted) <==>
            || s in sorted || s in GapSpans(sorted)
            || (lo > 0 && sorted != [] && sorted[0].startU == lo + 2 && s == Span(lo + 1, lo + 1))
    decreases |sorted|
  {
    if sorted != [] {
      var head, rest := sorted[0], sorted[1..];
      WithGapsMembers(head.endU, rest, totalU, s);
      assert s in sorted <==> s == head || s in rest;
      assert s in GapSpans(sorted) <==>
        (s in GapSpans(rest)
            || (rest != [] && rest[0].startU == head.endU + 2 && s == Span(head.endU + 1, head.endU + 1)));
    }
  }

  ghost function RackPotential(devices: seq<Device>, holds: seq<Hold>, totalU: int, height: int): int
    requires height >= 1
  {
    Potential(0, SortedRows(devices, None, holds), totalU, height)
  }

  function Capacity(devices: seq<Device>, holds: seq<Hold>, totalU: int, height: int): int
    requires height >= 1
  {
    TotalCapacity(Complement(1, Marks(Rows(devices, None, holds)), totalU), totalU, height)
  }

  lemma CapacityEqualsPotential(devices: seq<Device>, holds: seq<Hold>, totalU: int, height: int)
    requires height >= 1 && Consistent(devices, holds, totalU)
    ensures Capacity(devices, holds, totalU, height) == RackPotential(devices, holds, totalU, height) >= 0
  {
    var rows := Rows(devices, None, holds);
    var sorted := SortedRows(devices, None, holds);
    SortedRowsChain(ByStartThenEnd, rows, totalU);
    CapacityIsPotential(0, sorted, totalU, height);
    ComplementIsFreeRuns(0, sorted, totalU);
    PotentialNonNegative(0, sorted, totalU, height);
    MarksChain(rows, totalU);
    forall s ensures s in Marks(rows) <==> s in WithGaps(0, sorted) {
      WithGapsMembers(0, sorted, totalU, s);
      SortMembers(ByStartThenEnd, rows, s);
    }
    WithGapsChain(0, sorted, totalU);
    ChainUnique(0, Marks(rows), WithGaps(0, sorted), totalU);
  }

  lemma AcceptedWriteLowersPotential(devices: seq<Device>, holds: seq<Hold>, totalU: int, height: int, write: Device)
    requires height >= 1 && Consistent(devices, holds, totalU)
    requires LegalWrite(devices, holds, totalU, height, write)
    ensures Consistent(devices + [write], holds, totalU)
    ensures RackPotential(devices + [write], holds, totalU, height) <= RackPotential(devices, holds, totalU, height) - 1
  {
    var rows, rows' := Rows(devices, None, holds), Rows(devices + [write], None, holds);
    var sorted := SortedRows(devices, None, holds);
    AcceptedIsFree(devices, holds, totalU, height, write);
    WriteKeepsConsistent(devices, holds, totalU, write);
    SortedRowsChain(ByStartThenEnd, rows, totalU);
    SortedRowsChain(ByStartThenEnd, rows', totalU);
    assert Free(sorted, write.span) by {
      forall s | s in sorted ensures s in rows { SortMembers(ByStartThenEnd, rows, s); }
    }
    WriteLowersPotential(0, sorted, totalU, height, write.span);
    InsertKeepsChain(ByStartThenEnd, 0, sorted, totalU, write.span);
    var after := Insert(ByStartThenEnd, sorted, write.span);
    forall s ensures s in after <==> s in SortedRows(devices + [write], None, holds) {
      InsertMembers(ByStartThenEnd, sorted, write.span, s);
      SortMembers(ByStartThenEnd, rows, s);
      SortMembers(ByStartThenEnd, rows', s);
      RowsOfExtended(devices, holds, write, s);
    }
    ChainUnique(0, after, SortedRows(devices + [write], None, holds), totalU);
  }

  /** No legal sequence of writes is longer than the reported capacity. */
  lemma CapacityBoundsEveryRun(devices: seq<Device>, holds: seq<Hold>, totalU: int, height: int, writes: seq<Device>)
    requires height >= 1 && Consistent(devices, holds, totalU)
    requires LegalRun(devices, holds, totalU, height, writes)
    ensures |writes| <= Capacity(devices, holds, totalU, height)
  {
    RunSpendsPotential(devices, holds, totalU, height, writes);
    CapacityEqualsPotential(devices, holds, totalU, height);
    CapacityEqualsPotential(devices + writes, holds, totalU, height);
  }

  lemma RunSplits(devices: seq<Device>, holds: seq<Hold>, totalU: int, height: int, writes: seq<Device>)
    requires LegalRun(devices, holds, totalU, height, writes) && writes != []
    ensures var last := |writes| - 1;
            && LegalRun(devices, holds, totalU, height, writes[..last])
            && LegalWrite(devices + writes[..last], holds, totalU, height, writes[last])
            && devices + writes == devices + writes[..last] + [writes[last]]
  {
    var last := |writes| - 1;
    forall k | 0 <= k < last
      ensures LegalWrite(devices + writes[..last][..k], holds, totalU, height, writes[..last][k])
    {
      assert writes[..last][..k] == writes[..k];
    }
  }

  lemma {:induction false} RunSpendsPotential(devices: seq<Device>, holds: seq<Hold>, totalU: int, height: int,
                                              writes: seq<Device>)
    requires height >= 1 && Consistent(devices, holds, totalU)
    requires LegalRun(devices, holds, totalU, height, writes)
    ensures Consistent(devices + writes, holds, totalU)
    ensures RackPotential(devices + writes, holds, totalU, height) + |writes| <= RackPotential(devices, holds, totalU,
                                                                                               height)
    decreases |writes|
  {
    if writes == [] {
      assert devices + writes == devices;
    } else {
      var earlier, write := writes[..|writes| - 1], writes[|writes| - 1];
      RunSplits(devices, holds, totalU, height, writes);
      RunSpendsPotential(devices, holds, totalU, height, earlier);
      AcceptedWriteLowersPotential(devices + earlier, holds, totalU, height, write);
    }
  }

  // ---------- the suggested placements ----------

  /** The `offset`-th position beside the edge that the source chooses for this range. */
  function SlotAt(span: Span, totalU: int, height: int, offset: int): Span {
    if span.startU == 1 && span.endU < totalU
    then Span(span.endU - offset * height - height + 1, span.endU - offset * height)
    else Span(span.startU + offset * height, span.startU + offset * height + height - 1)
  }

  function Slots(span: Span, totalU: int, height: int, count: nat): seq<Span> {
    seq(count, offset => SlotAt(span, totalU, height, offset))
  }

  function Plan(spans: seq<Span>, totalU: int, height: int, quantity: int): seq<Span>
    requires height >= 1
  {
    if spans == [] then []
    else
      var count := Max(0, Min(SpanCapacity(spans[0], totalU, height), quantity));
      Slots(spans[0], totalU, height, count) + Plan(spans[1..], totalU, height, quantity - count)
  }

  /** In a range below a device the placements hang from it, in any other they stand on its bottom;
      each has the height and touches the one before. */
  lemma SlotsAreFlush(span: Span, totalU: int, height: int, count: nat, k: nat)
    requires height >= 1 && k < count
    ensures var slots := Slots(span, totalU, height, count);
            && slots[k].endU - slots[k].startU + 1 == height
            && (span.startU == 1 && span.endU < totalU ==>
                 slots[k].endU == if k == 0 then span.endU else slots[k - 1].startU - 1)
            && (span.startU != 1 || span.endU >= totalU ==>
                 slots[k].startU == if k == 0 then span.startU else slots[k - 1].endU + 1)
  {}

  ghost predicate FreshIds(devices: seq<Device>, ids: seq<int>) {
    && (forall i, j :: 0 <= i < j < |ids| ==> ids[i] != ids[j])
    && (forall d :: d in devices ==> d.assetId !in ids)
  }

  function Assign(ids: seq<int>, spans: seq<Span>): seq<Device>
    requires |ids| == |spans|
  {
    seq(|ids|, i requires 0 <= i < |ids| => Device(ids[i], spans[i]))
  }

  /** A write into free cells is legal unless it would fill a squeezed single cell. */
  lemma FreeWriteIsLegal(devices: seq<Device>, holds: seq<Hold>, totalU: int, height: int, write: Device)
    requires height >= 1 && Consistent(devices, holds, totalU) && InRange(write.span, totalU)
    requires write.span.endU - write.span.startU + 1 == height
    requires Free(Rows(devices, None, holds), write.span)
    requires forall d :: d in devices ==> d.assetId != write.assetId
    requires height == 1 ==>
      || !Covers(Rows(devices, None, holds), write.span.startU - 1)
      || !Covers(Rows(devices, None, holds), write.span.endU + 1)
    ensures LegalWrite(devices, holds, totalU, height, write)
    ensures Consistent(devices + [write], holds, totalU)
  {
    var rows := Rows(devices, None, holds);
    ExcludedAbsent(devices, write.assetId);
    forall u | write.span.startU <= u <= write.span.endU ensures !Covers(rows, u) {
      if Covers(rows, u) {
        var s :| s in rows && s.startU <= u <= s.endU;
        assert s.Overlaps(write.span);
      }
    }
    UnitChecksMeaning(devices, holds, totalU, write.assetId, write.span);
    WriteKeepsConsistent(devices, holds, totalU, write);
  }

  lemma NotCovered(rows: seq<Span>, totalU: int, u: int, span: Span)
    requires WellPlaced(rows, totalU)
    requires u < 1 || u > totalU || (Free(rows, span) && span.startU <= u <= span.endU)
    ensures !Covers(rows, u)
  {
    forall s | s in rows ensures !(s.startU <= u <= s.endU) {
      var i :| 0 <= i < |rows| && rows[i] == s;
    }
  }

  lemma FirstThenRest(devices: seq<Device>, holds: seq<Hold>, totalU: int, height: int, ids: seq<int>, spans: seq<Span>)
    requires |ids| == |spans| > 0 && LegalWrite(devices, holds, totalU, height, Device(ids[0], spans[0]))
    requires LegalRun(devices + [Device(ids[0], spans[0])], holds, totalU, height, Assign(ids[1..], spans[1..]))
    ensures LegalRun(devices, holds, totalU, height, Assign(ids, spans))
  {
    var first := Device(ids[0], spans[0]);
    assert LegalRun(devices, holds, totalU, height, [first]) by { assert devices + [first][..0] == devices; }
    RunConcat(devices, holds, totalU, height, [first], Assign(ids[1..], spans[1..]));
    assert Assign(ids, spans) == [first] + Assign(ids[1..], spans[1..]);
  }

  /** Packing upwards from the lower end of a free range. */
  lemma {:induction false} PackUpIsLegal(devices: seq<Device>, holds: seq<Hold>, totalU: int, height: int,
                                         span: Span, count: nat, ids: seq<int>, spans: seq<Span>)
    requires height >= 1 && Consistent(devices, holds, totalU) && FreshIds(devices, ids)
    requires 1 <= span.startU && span.endU <= totalU && Free(Rows(devices, None, holds), span)
    requires span.startU + count * height - 1 <= span.endU
    requires height == 1 ==> span.startU + count - 1 < span.endU || span.endU == totalU
    requires |ids| == |spans| == count
    requires forall k ::
               0 <= k < count ==> spans[k] == Span(span.startU + k * height, span.startU + k * height + height - 1)
    ensures LegalRun(devices, holds, totalU, height, Assign(ids, spans))
    decreases count
  {
    if count > 0 {
      var rows := Rows(devices, None, holds);
      var first := Device(ids[0], spans[0]);
      assert 0 * height == 0 && count * height == (count - 1) * height + height;
      assert (count - 1) * height >= 0;
      assert spans[0] == Span(span.startU, span.startU + height - 1);
      if height == 1 { NotCovered(rows, totalU, first.span.endU + 1, span); }
      FreeWriteIsLegal(devices, holds, totalU, height, first);
      var rest := Span(span.startU + height, span.endU);
      forall s | s in Rows(devices + [first], None, holds) ensures !s.Overlaps(rest) {
        RowsOfExtended(devices, holds, first, s);
      }
      forall k | 0 <= k < count - 1
        ensures spans[1..][k] == Span(rest.startU + k * height, rest.startU + k * height + height - 1)
      {
        assert (k + 1) * height == k * height + height;
      }
      PackUpIsLegal(devices + [first], holds, totalU, height, rest, count - 1, ids[1..], spans[1..]);
      FirstThenRest(devices, holds, totalU, height, ids, spans);
    }
  }

  /** Packing downwards from a device towards the bottom edge of the rack. */
  lemma {:induction false} PackDownIsLegal(devices: seq<Device>, holds: seq<Hold>, totalU: int, height: int,
                                           span: Span, count: nat, ids: seq<int>, spans: seq<Span>)
    requires height >= 1 && Consistent(devices, holds, totalU) && FreshIds(devices, ids)
    requires span.startU == 1 && span.endU <= totalU && Free(Rows(devices, None, holds), span)
    requires count * height <= span.endU
    requires |ids| == |spans| == count
    requires forall k ::
               0 <= k < count ==> spans[k] == Span(span.endU - k * height - height + 1, span.endU - k * height)
    ensures LegalRun(devices, holds, totalU, height, Assign(ids, spans))
    decreases count
  {
    if count > 0 {
      var rows := Rows(devices, None, holds);
      var first := Device(ids[0], spans[0]);
      assert 0 * height == 0 && count * height == (count - 1) * height + height;
      assert (count - 1) * height >= 0;
      assert spans[0] == Span(span.endU - height + 1, span.endU);
      if height == 1 { NotCovered(rows, totalU, first.span.startU - 1, span); }
      FreeWriteIsLegal(devices, holds, totalU, height, first);
      var rest := Span(1, span.endU - height);
      forall s | s in Rows(devices + [first], None, holds) ensures !s.Overlaps(rest) {
        RowsOfExtended(devices, holds, first, s);
      }
      forall k | 0 <= k < count - 1
        ensures spans[1..][k] == Span(rest.endU - k * height - height + 1, rest.endU - k * height)
      {
        assert (k + 1) * height == k * height + height;
      }
      PackDownIsLegal(devices + [first], holds, totalU, height, rest, count - 1, ids[1..], spans[1..]);
      FirstThenRest(devices, holds, totalU, height, ids, spans);
    }
  }

  lemma CapacityFits(span: Span, totalU: int, height: int, count: nat)
    requires height >= 1 && InRange(span, totalU) && count <= SpanCapacity(span, totalU, height)
    ensures count * height <= span.endU - span.startU + 1
    ensures height == 1 ==> span.startU + count - 1 < span.endU || span.endU == totalU || span.startU == 1
  {
    var length := span.endU - span.startU + 1;
    if height == 1 {
      assert length / 1 == length;
    } else {
      assert count * height <= length / height * height <= length;
    }
  }

  lemma SlotsAreLegal(devices: seq<Device>, holds: seq<Hold>, totalU: int, height: int, span: Span, count: nat,
                      ids: seq<int>)
    requires height >= 1 && Consistent(devices, holds, totalU) && FreshIds(devices, ids) && |ids| == count
    requires InRange(span, totalU) && Free(Rows(devices, None, holds), span)
    requires count <= SpanCapacity(span, totalU, height)
    ensures LegalRun(devices, holds, totalU, height, Assign(ids, Slots(span, totalU, height, count)))
  {
    CapacityFits(span, totalU, height, count);
    var spans := Slots(span, totalU, height, count);
    if span.startU == 1 && span.endU < totalU {
      PackDownIsLegal(devices, holds, totalU, height, span, count, ids, spans);
    } else {
      PackUpIsLegal(devices, holds, totalU, height, span, count, ids, spans);
    }
  }

  lemma MulMonotone(a: nat, b: int, height: int)
    requires a <= b && height >= 1
    ensures 0 <= a * height <= b * height
  {}

  lemma SlotsInside(span: Span, totalU: int, height: int, count: nat, k: nat)
    requires height >= 1 && InRange(span, totalU) && count <= SpanCapacity(span, totalU, height) && k < count
    ensures var s := Slots(span, totalU, height, count)[k]; span.startU <= s.startU && s.endU <= span.endU
  {
    CapacityFits(span, totalU, height, count);
    MulMonotone(k + 1, count, height);
    MulMonotone(0, k, height);
    assert (k + 1) * height == k * height + height;
  }

  lemma LaterSpansStayFree(devices: seq<Device>, holds: seq<Hold>, totalU: int, height: int,
                           span: Span, later: Span, count: nat, ids: seq<int>)
    requires height >= 1 && InRange(span, totalU) && count <= SpanCapacity(span, totalU, height) && |ids| == count
    requires Free(Rows(devices, None, holds), later) && span.endU < later.startU
    ensures Free(Rows(devices + Assign(ids, Slots(span, totalU, height, count)), None, holds), later)
  {
    var here := Slots(span, totalU, height, count);
    var placed := Assign(ids, here);
    DeviceSpansConcat(devices, placed, None);
    forall s | s in Rows(devices + placed, None, holds) ensures !s.Overlaps(later) {
      if s !in Rows(devices, None, holds) {
        DeviceSpanMembers(placed, None, s);
        assert s in here;
        var k :| 0 <= k < count && here[k] == s;
        SlotsInside(span, totalU, height, count, k);
      }
    }
  }

  ghost predicate FreeSpans(devices: seq<Device>, holds: seq<Hold>, totalU: int, spans: seq<Span>) {
    && (forall i :: 0 <= i < |spans| ==> InRange(spans[i], totalU) && Free(Rows(devices, None, holds), spans[i]))
    && (forall i, j :: 0 <= i < j < |spans| ==> spans[i].endU < spans[j].startU)
  }

  /** One range of the plan is written and the later ranges are still free. */
  lemma PlanStep(devices: seq<Device>, holds: seq<Hold>, totalU: int, height: int, spans: seq<Span>, count: nat,
                 ids: seq<int>)
    requires height >= 1 && Consistent(devices, holds, totalU) && FreshIds(devices, ids)
    requires spans != [] && FreeSpans(devices, holds, totalU, spans)
    requires |ids| == count <= SpanCapacity(spans[0], totalU, height)
    ensures var placed := Assign(ids, Slots(spans[0], totalU, height, count));
            && LegalRun(devices, holds, totalU, height, placed)
            && Consistent(devices + placed, holds, totalU)
            && FreeSpans(devices + placed, holds, totalU, spans[1..])
  {
    var placed := Assign(ids, Slots(spans[0], totalU, height, count));
    SlotsAreLegal(devices, holds, totalU, height, spans[0], count, ids);
    RunSpendsPotential(devices, holds, totalU, height, placed);
    forall i | 1 <= i < |spans| ensures Free(Rows(devices + placed, None, holds), spans[i]) {
      LaterSpansStayFree(devices, holds, totalU, height, spans[0], spans[i], count, ids);
    }
  }

  /** The whole plan is a legal sequence of writes, for every way to number the new assets. */
  lemma {:induction false} PlanIsLegal(devices: seq<Device>, holds: seq<Hold>, totalU: int, height: int,
                                       spans: seq<Span>, quantity: int, ids: seq<int>)
    requires height >= 1 && Consistent(devices, holds, totalU) && FreshIds(devices, ids)
    requires |ids| == |Plan(spans, totalU, height, quantity)|
    requires FreeSpans(devices, holds, totalU, spans)
    ensures LegalRun(devices, holds, totalU, height, Assign(ids, Plan(spans, totalU, height, quantity)))
    decreases |spans|
  {
    if spans != [] {
      var count := Max(0, Min(SpanCapacity(spans[0], totalU, height), quantity));
      PlanUnfolds(spans, totalU, height, quantity, count);
      var here, later := Slots(spans[0], totalU, height, count), Plan(spans[1..], totalU, height, quantity - count);
      var now, after := ids[..count], ids[count..];
      PlanStep(devices, holds, totalU, height, spans, count, now);
      LaterIdsStayFresh(devices, ids, here);
      PlanIsLegal(devices + Assign(now, here), holds, totalU, height, spans[1..], quantity - count, after);
      RunConcat(devices, holds, totalU, height, Assign(now, here), Assign(after, later));
      AssignConcat(ids, here, later);
    }
  }

  lemma PlanUnfolds(spans: seq<Span>, totalU: int, height: int, quantity: int, count: int)
    requires height >= 1 && spans != [] && InRange(spans[0], totalU)
    requires count == Max(0, Min(SpanCapacity(spans[0], totalU, height), quantity))
    ensures 0 <= count <= SpanCapacity(spans[0], totalU, height) && |Slots(spans[0], totalU, height, count)| == count
    ensures Plan(spans, totalU, height, quantity) ==
            Slots(spans[0], totalU, height, count) + Plan(spans[1..], totalU, height, quantity - count)
  {
    DivisionSplits(spans[0].endU - spans[0].startU + 1, 0, height);
  }

  lemma LaterIdsStayFresh(devices: seq<Device>, ids: seq<int>, here: seq<Span>)
    requires |here| <= |ids| && FreshIds(devices, ids)
    ensures FreshIds(devices, ids[..|here|])
    ensures FreshIds(devices + Assign(ids[..|here|], here), ids[|here|..])
  {
    var now, after := ids[..|here|], ids[|here|..];
    forall d | d in devices + Assign(now, here) ensures d.assetId !in after {
      if d !in devices {
        var k :| 0 <= k < |here| && Assign(now, here)[k] == d;
      }
    }
  }

  lemma AssignConcat(ids: seq<int>, a: seq<Span>, b: seq<Span>)
    requires |ids| == |a| + |b|
    ensures Assign(ids, a + b) == Assign(ids[..|a|], a) + Assign(ids[|a|..], b)
  {}

  lemma {:induction false} PlanLength(spans: seq<Span>, totalU: int, height: int, quantity: int)
    requires height >= 1 && forall i :: 0 <= i < |spans| ==> InRange(spans[i], totalU)
    ensures TotalCapacity(spans, totalU, height) >= 0
    ensures |Plan(spans, totalU, height, quantity)| == Max(0, Min(TotalCapacity(spans, totalU, height), quantity))
  {
    if spans != [] {
      DivisionSplits(spans[0].endU - spans[0].startU + 1, 0, height);
      var count := Max(0, Min(SpanCapacity(spans[0], totalU, height), quantity));
      PlanLength(spans[1..], totalU, height, quantity - count);
    }
  }

  lemma AvailableIsFree(devices: seq<Device>, holds: seq<Hold>, totalU: int)
    requires Consistent(devices, holds, totalU)
    ensures var rows := Rows(devices, None, holds);
            var spans := Complement(1, Marks(rows), totalU);
            Separated(0, spans, totalU) && forall i :: 0 <= i < |spans| ==> Free(rows, spans[i])
  {
    var rows := Rows(devices, None, holds);
    var spans := Complement(1, Marks(rows), totalU);
    RangesPartition(rows, totalU);
    forall i, s | 0 <= i < |spans| && s in rows ensures !s.Overlaps(spans[i]) {
      var u := Max(s.startU, spans[i].startU);
      assert spans[i] in spans;
      assert s.Overlaps(spans[i]) ==> Covers(spans, u) && Covers(rows, u);
    }
  }

  /** The bound is reached: planning for `capacity` devices gives a legal sequence of that length. */
  lemma CapacityIsReached(devices: seq<Device>, holds: seq<Hold>, totalU: int, height: int)
    returns (writes: seq<Device>)
    requires height >= 1 && Consistent(devices, holds, totalU)
    ensures LegalRun(devices, holds, totalU, height, writes)
    ensures |writes| == Capacity(devices, holds, totalU, height)
  {
    var spans := Complement(1, Marks(Rows(devices, None, holds)), totalU);
    var capacity := Capacity(devices, holds, totalU, height);
    AvailableIsFree(devices, holds, totalU);
    PlanLength(spans, totalU, height, capacity);
    var plan := Plan(spans, totalU, height, capacity);
    var ids := NewIds(devices, |plan|);
    PlanIsLegal(devices, holds, totalU, height, spans, capacity, ids);
    writes := Assign(ids, plan);
  }

  lemma NewIds(devices: seq<Device>, count: nat) returns (ids: seq<int>)
    ensures |ids| == count && FreshIds(devices, ids)
  {
    var top := 0;
    for i := 0 to |devices|
      invariant forall j :: 0 <= j < i ==> devices[j].assetId <= top
    {
      top := Max(top, devices[i].assetId);
    }
    ids := seq(count, i => top + 1 + i);
  }

  /** A capacity that is the length of the longest legal run, and a plan of exactly
      min(capacity, quantity) placements that can be written one after the other. */
  ghost predicate OptimalPlan(devices: seq<Device>, holds: seq<Hold>, totalU: int, height: int, quantity: int,
                              capacity: int, placements: seq<Span>) {
    && |placements| == Max(0, Min(capacity, quantity))
    && (forall ids :: |ids| == |placements| && FreshIds(devices, ids) ==>
          LegalRun(devices, holds, totalU, height, Assign(ids, placements)))
    && (forall writes :: LegalRun(devices, holds, totalU, height, writes) ==> |writes| <= capacity)
    && (exists writes :: LegalRun(devices, holds, totalU, height, writes) && |writes| == capacity)
  }

  lemma PlanIsOptimal(devices: seq<Device>, holds: seq<Hold>, totalU: int, height: int, quantity: int)
    requires height >= 1 && Consistent(devices, holds, totalU)
    ensures var spans := Complement(1, Marks(Rows(devices, None, holds)), totalU);
            OptimalPlan(devices, holds, totalU, height, quantity,
                        TotalCapacity(spans, totalU, height), Plan(spans, totalU, height, quantity))
  {
    var spans := Complement(1, Marks(Rows(devices, None, holds)), totalU);
    AvailableIsFree(devices, holds, totalU);
    PlanLength(spans, totalU, height, quantity);
    forall ids | |ids| == |Plan(spans, totalU, height, quantity)| && FreshIds(devices, ids)
      ensures LegalRun(devices, holds, totalU, height, Assign(ids, Plan(spans, totalU, height, quantity)))
    {
      PlanIsLegal(devices, holds, totalU, height, spans, quantity, ids);
    }
    forall writes | LegalRun(devices, holds, totalU, height, writes)
      ensures |writes| <= TotalCapacity(spans, totalU, height)
    {
      CapacityBoundsEveryRun(devices, holds, totalU, height, writes);
    }
    var longest := CapacityIsReached(devices, holds, totalU, height);
  }

  lemma PlanUnfold(spans: seq<Span>, i: nat, totalU: int, height: int, quantity: int, start: seq<Span>)
    requires height >= 1 && i < |spans|
    ensures var count := Max(0, Min(SpanCapacity(spans[i], totalU, height), quantity));
            start + Plan(spans[i..], totalU, height, quantity)
            == start + Slots(spans[i], totalU, height, count) + Plan(spans[i + 1..], totalU, height, quantity - count)
  {
    assert spans[i..][1..] == spans[i + 1..];
  }

  lemma CapacityUnfold(spans: seq<Span>, i: nat, totalU: int, height: int)
    requires height >= 1 && i < |spans|
    ensures TotalCapacity(spans[i..], totalU, height) ==
            SpanCapacity(spans[i], totalU, height) + TotalCapacity(spans[i + 1..], totalU, height)
  {
    assert spans[i..][1..] == spans[i + 1..];
  }

  /** One turn of the outer loop. */
  method PackNext(spans: seq<Span>, i: nat, totalU: int, height: int, quantity: int, before: seq<Span>)
    returns (spanCapacity: int, placements: seq<Span>)
    requires height >= 1 && i < |spans|
    ensures spanCapacity == SpanCapacity(spans[i], totalU, height)
    ensures placements + Plan(spans[i + 1..], totalU, height, quantity - |placements|) ==
            before + Plan(spans[i..], totalU, height, quantity - |before|)
  {
    var span := spans[i];
    spanCapacity := SpanCapacity(span, totalU, height);
    PlanUnfold(spans, i, totalU, height, quantity - |before|, before);
    var count := Min(spanCapacity, quantity - |before|);
    var packed := PackSpan(span, totalU, height, count);
    placements := before + packed;
  }

  /** The source's nested loops over the available ranges. */
  method PackAvailable(spans: seq<Span>, totalU: int, height: int, quantity: int)
    returns (capacity: int, placements: seq<Span>)
    requires height >= 1
    ensures capacity == TotalCapacity(spans, totalU, height)
    ensures placements == Plan(spans, totalU, height, quantity)
  {
    capacity, placements := 0, [];
    for i := 0 to |spans|
      invariant capacity + TotalCapacity(spans[i..], totalU, height) == TotalCapacity(spans, totalU, height)
      invariant placements + Plan(spans[i..], totalU, height, quantity - |placements|) ==
                  Plan(spans, totalU, height, quantity)
    {
      CapacityUnfold(spans, i, totalU, height);
      var spanCapacity: int;
      spanCapacity, placements := PackNext(spans, i, totalU, height, quantity, placements);
      capacity := capacity + spanCapacity;
    }
    assert spans[|spans|..] == [];
  }

  /** Devices packed one behind the other at the edge of one range. */
  method PackSpan(span: Span, totalU: int, height: int, count: int) returns (placements: seq<Span>)
    requires height >= 1
    ensures placements == Slots(span, totalU, height, Max(0, count))
  {
    placements := [];
    var offset := 0;
    while offset < count
      invariant 0 <= offset <= Max(0, count)
      invariant placements == Slots(span, totalU, height, offset)
    {
      if span.startU == 1 && span.endU < totalU {
        var endU := span.endU - offset * height;
        placements := placements + [Span(endU - height + 1, endU)];
      } else {
        var startU := span.startU + offset * height;
        placements := placements + [Span(startU, startU + height - 1)];
      }
      offset := offset + 1;
    }
  }

  /** The planner: free ranges first, then one packing pass over them. */
  method PlanRackCapacity(devices: seq<Device>, totalU: int, height: int, quantity: int, holds: seq<Hold>)
    returns (capacity: int, placements: seq<Span>)
    requires height >= 1
    ensures Consistent(devices, holds, totalU) ==>
      OptimalPlan(devices, holds, totalU, height, quantity, capacity, placements)
  {
    var before := RackPositionRanges(devices, totalU, None, holds);
    capacity, placements := PackAvailable(before.available, totalU, height, quantity);
    if Consistent(devices, holds, totalU) {
      PlanIsOptimal(devices, holds, totalU, height, quantity);
    }
  }
}
