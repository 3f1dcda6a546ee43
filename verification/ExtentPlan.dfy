/**
 The transfer plan of one sparse file: data runs found by seeking, merged over
 small holes, cut into slices and dealt to at most eight streams
 (`snapshots/extents_linux.go`, `snapshots/peer.go`).
 */
module ExtentPlan {
  import opened Wrappers

  const PEER_SLICE_BYTES := 0x1000_0000
  const COALESCE_GAP_BYTES := 0x40_0000
  const STREAMS_PER_FILE := 8

  /** A run of bytes: an `extent` of the scan or a `peerSlice` of the plan. */
  datatype Span = Span(offset: int, length: int) {
    function End(): int {
      offset + length
    }

    predicate Covers(x: int) {
      offset <= x < End()
    }
  }

  ghost predicate Covers(es: seq<Span>, x: int) {
    exists k :: 0 <= k < |es| && es[k].Covers(x)
  }

  /** Non-empty, ascending and disjoint. */
  ghost predicate Ordered(es: seq<Span>) {
    && (forall k :: 0 <= k < |es| ==> 0 <= es[k].offset && 0 < es[k].length)
    && (forall j, k :: 0 <= j < k < |es| ==> es[j].End() <= es[k].offset)
  }

  ghost predicate FitsIn(es: seq<Span>, size: int) {
    forall k :: 0 <= k < |es| ==> es[k].End() <= size
  }

  /** More than gap bytes lie between any two runs. */
  ghost predicate Apart(es: seq<Span>, gap: int) {
    forall j, k :: 0 <= j < k < |es| ==> gap < es[k].offset - es[j].End()
  }

  function Total(es: seq<Span>): int
    decreases |es|
  {
    if es == [] then 0 else Total(es[..|es| - 1]) + es[|es| - 1].length
  }

  lemma CoversSnoc(es: seq<Span>, e: Span, x: int)
    ensures Covers(es + [e], x) <==> Covers(es, x) || e.Covers(x)
  {
    var all := es + [e];
    if Covers(es, x) {
      var k :| 0 <= k < |es| && es[k].Covers(x);
      assert all[k].Covers(x);
    }
    if e.Covers(x) {
      assert all[|es|].Covers(x);
    }
    if Covers(all, x) && !e.Covers(x) {
      var k :| 0 <= k < |all| && all[k].Covers(x);
      assert es[k].Covers(x);
    }
  }

  lemma {:induction false} CoversConcat(a: seq<Span>, b: seq<Span>, x: int)
    ensures Covers(a + b, x) <==> Covers(a, x) || Covers(b, x)
    decreases |b|
  {
    if b == [] {
      assert a + b == a;
    } else {
      var init, last := b[..|b| - 1], b[|b| - 1];
      CoversConcat(a, init, x);
      CoversSnoc(init, last, x);
      CoversSnoc(a + init, last, x);
      assert b == init + [last] && a + b == a + init + [last];
    }
  }

  lemma {:induction false} TotalConcat(a: seq<Span>, b: seq<Span>)
    ensures Total(a + b) == Total(a) + Total(b)
    decreases |b|
  {
    if b == [] {
      assert a + b == a;
    } else {
      assert (a + b)[..|a + b| - 1] == a + b[..|b| - 1];
      TotalConcat(a, b[..|b| - 1]);
    }
  }

  // ---------------------------------------------------------------- scan

  /** The first offset at or after off whose byte is data (or hole), else the file's size. */
  function NextAt(data: seq<bool>, off: nat, wanted: bool): (p: nat)
    requires off <= |data|
    ensures off <= p <= |data|
    ensures p < |data| ==> data[p] == wanted
    ensures forall x :: off <= x < p ==> data[x] != wanted
    decreases |data| - off
  {
    if off == |data| || data[off] == wanted then off else NextAt(data, off + 1, wanted)
  }

  /** How a seek call answers: as the data map says, "not supported here", or another error. */
  datatype Seek = Works | Unsupported | Broken

  /** Exactly the data bytes, with a hole after every run. */
  ghost predicate ExactScan(data: seq<bool>, es: seq<Span>, upto: nat) {
    && Ordered(es) && FitsIn(es, upto) && Apart(es, 0)
    && forall x :: 0 <= x < upto && x < |data| ==> (data[x] <==> Covers(es, x))
  }

  /** What the loop knows at `off`: everything before it is scanned, and a run never stops short of a hole. */
  ghost predicate Scanned(data: seq<bool>, es: seq<Span>, off: nat) {
    off <= |data| && ExactScan(data, es, off) && (off == 0 || off == |data| || !data[off])
  }

  lemma ScanNext(data: seq<bool>, es: seq<Span>, off: nat)
    requires off < |data| && Scanned(data, es, off) && NextAt(data, off, true) < |data|
    ensures var d := NextAt(data, off, true);
            var h := NextAt(data, d, false);
            d < h && Scanned(data, es + [Span(d, h - d)], h)
  {
    var d := NextAt(data, off, true);
    var h := NextAt(data, d, false);
    var next := es + [Span(d, h - d)];
    if es != [] {
      assert es[0].End() <= off;
    }
    RunAfter(es, off, Span(d, h - d));
    forall x | 0 <= x < h
      ensures data[x] <==> Covers(next, x)
    {
      CoversSnoc(es, Span(d, h - d), x);
    }
  }

  lemma RunAfter(es: seq<Span>, off: int, e: Span)
    requires Ordered(es) && FitsIn(es, off) && Apart(es, 0) && 0 <= e.offset && 0 < e.length && (es != [] ==> off < e.offset)
    ensures Ordered(es + [e]) && FitsIn(es + [e], e.End()) && Apart(es + [e], 0)
  {
    forall k | 0 <= k < |es|
      ensures es[k].End() < e.offset
    {
    }
  }

  /** No data from `off` on: the scan is complete. */
  lemma ScanEnd(data: seq<bool>, es: seq<Span>, off: nat)
    requires off < |data| && Scanned(data, es, off) && NextAt(data, off, true) == |data|
    ensures ExactScan(data, es, |data|)
  {
    forall x | 0 <= x < |data|
      ensures data[x] <==> Covers(es, x)
    {
      assert off <= x ==> data[x] != true;
    }
  }

  /** Ordered runs inside the file that cover every data byte. */
  ghost predicate ReportsData(data: seq<bool>, es: seq<Span>) {
    && Ordered(es) && FitsIn(es, |data|)
    && (forall x :: 0 <= x < |data| && data[x] ==> Covers(es, x))
  }

  lemma WholeFile(data: seq<bool>)
    requires data != []
    ensures ReportsData(data, [Span(0, |data|)])
  {
    var es := [Span(0, |data|)];
    forall x | 0 <= x < |data|
      ensures Covers(es, x)
    {
      assert es[0].Covers(x);
    }
  }

  lemma ExactReports(data: seq<bool>, es: seq<Span>)
    requires ExactScan(data, es, |data|)
    ensures ReportsData(data, es)
  {
  }

  /** `answers(k)` is how the k-th seek call goes; the file does not change under the scan. */
  method ScanExtents(data: seq<bool>, answers: nat -> Seek) returns (r: Result<seq<Span>, ()>, ghost calls: nat)
    ensures data == [] <==> calls == 0
    ensures forall k :: 0 <= k < calls - 1 ==> answers(k) == Works
    ensures r.Err? <==> calls > 0 && (answers(calls - 1) == Broken || (answers(calls - 1) == Unsupported && calls % 2 == 0))
    ensures r.Ok? && calls > 0 && answers(calls - 1) == Unsupported ==> r.value == [Span(0, |data|)]
    ensures r.Ok? && (calls == 0 || answers(calls - 1) == Works) ==> ExactScan(data, r.value, |data|)
    ensures r.Ok? ==> ReportsData(data, r.value) && (ExactScan(data, r.value, |data|) || r.value == [Span(0, |data|)])
    ensures (forall k :: answers(k) == Works) ==> r.Ok? && ExactScan(data, r.value, |data|)
    ensures answers(0) == Unsupported && data != [] ==> r == Ok([Span(0, |data|)])
    ensures answers(0) == Broken && data != [] ==> r.Err?
  {
    var size := |data|;
    if size == 0 {
      return Ok([]), 0;
    }
    var extents: seq<Span> := [];
    var off, next := 0, 0;
    while off < size
      invariant 0 <= off <= size && 0 <= next && next % 2 == 0 && Scanned(data, extents, off)
      invariant off == 0 <==> next == 0
      invariant forall k :: 0 <= k < next ==> answers(k) == Works
      decreases size - off
    {
      calls := next + 1;
      if answers(next) == Unsupported {
        WholeFile(data);
        return Ok([Span(0, size)]), calls;
      }
      if answers(next) == Broken {
        return Err(()), calls;
      }
      var dataStart := NextAt(data, off, true);
      if dataStart == size {
        ScanEnd(data, extents, off);
        ExactReports(data, extents);
        return Ok(extents), calls;
      }
      if answers(next + 1) != Works {
        return Err(()), next + 2;
      }
      extents, off := NextRun(data, extents, off, dataStart);
      next := next + 2;
    }
    ExactReports(data, extents);
    return Ok(extents), next;
  }

  /** Appends the run that starts at `dataStart`. */
  method NextRun(data: seq<bool>, extents: seq<Span>, off: nat, dataStart: nat) returns (more: seq<Span>, holeStart: nat)
    requires off < |data| && Scanned(data, extents, off) && dataStart == NextAt(data, off, true) < |data|
    ensures off < holeStart <= |data| && Scanned(data, more, holeStart)
  {
    ScanNext(data, extents, off);
    holeStart := NextAt(data, dataStart, false);
    more := extents + [Span(dataStart, holeStart - dataStart)];
  }

  // ---------------------------------------------------------------- coalesce

  function Coalesce(es: seq<Span>, maxGap: int): seq<Span>
    decreases |es|
  {
    if es == [] then []
    else Merge(Coalesce(es[..|es| - 1], maxGap), es[|es| - 1], maxGap)
  }

  function Merge(out: seq<Span>, e: Span, maxGap: int): seq<Span> {
    if |out| > 0 && e.offset - out[|out| - 1].End() <= maxGap then
      out[..|out| - 1] + [Span(out[|out| - 1].offset, e.End() - out[|out| - 1].offset)]
    else out + [e]
  }

  /** x lies in a hole between neighbouring runs that is small enough to ride along. */
  ghost predicate InSmallGap(es: seq<Span>, maxGap: int, x: int) {
    exists k :: 0 <= k < |es| - 1 && es[k].End() <= x < es[k + 1].offset && es[k + 1].offset - es[k].End() <= maxGap
  }

  lemma InSmallGapSnoc(es: seq<Span>, e: Span, maxGap: int, x: int)
    requires es != []
    ensures InSmallGap(es + [e], maxGap, x) <==>
            InSmallGap(es, maxGap, x) || (es[|es| - 1].End() <= x < e.offset && e.offset - es[|es| - 1].End() <= maxGap)
  {
    var all := es + [e];
    if InSmallGap(es, maxGap, x) {
      var k :| 0 <= k < |es| - 1 && es[k].End() <= x < es[k + 1].offset && es[k + 1].offset - es[k].End() <= maxGap;
      assert all[k].End() <= x < all[k + 1].offset;
    }
    if InSmallGap(all, maxGap, x) {
      var k :| 0 <= k < |all| - 1 && all[k].End() <= x < all[k + 1].offset && all[k + 1].offset - all[k].End() <= maxGap;
      if k + 1 < |es| {
        assert es[k].End() <= x < es[k + 1].offset;
      }
    }
    if es[|es| - 1].End() <= x < e.offset && e.offset - es[|es| - 1].End() <= maxGap {
      assert all[|es| - 1].End() <= x < all[|es|].offset;
    }
  }

  lemma OrderedInit(es: seq<Span>)
    requires Ordered(es) && es != []
    ensures var init, e := es[..|es| - 1], es[|es| - 1];
            && Ordered(init) && 0 <= e.offset && 0 < e.length
            && (init != [] ==> init[|init| - 1].End() <= e.offset)
  {
  }

  /** Merged runs are ordered and more than maxGap apart. */
  lemma {:induction false} CoalesceShape(es: seq<Span>, maxGap: int)
    requires Ordered(es) && 0 <= maxGap
    ensures Ordered(Coalesce(es, maxGap)) && Apart(Coalesce(es, maxGap), maxGap) && |Coalesce(es, maxGap)| <= |es|
    ensures es != [] ==> LastEnd(Coalesce(es, maxGap)) == LastEnd(es)
    decreases |es|
  {
    if es != [] {
      OrderedInit(es);
      CoalesceShape(es[..|es| - 1], maxGap);
      MergeShape(Coalesce(es[..|es| - 1], maxGap), es[|es| - 1], maxGap);
    }
  }

  /** Where the last run ends; 0 for none. */
  function LastEnd(es: seq<Span>): int {
    if es == [] then 0 else es[|es| - 1].End()
  }

  lemma MergeShape(out: seq<Span>, e: Span, maxGap: int)
    requires Ordered(out) && Apart(out, maxGap) && 0 <= maxGap && 0 <= e.offset && 0 < e.length
    requires LastEnd(out) <= e.offset
    ensures Ordered(Merge(out, e, maxGap)) && Apart(Merge(out, e, maxGap), maxGap)
    ensures Merge(out, e, maxGap) != [] && LastEnd(Merge(out, e, maxGap)) == e.End()
    ensures |Merge(out, e, maxGap)| <= |out| + 1
  {
    if out != [] && e.offset - out[|out| - 1].End() > maxGap {
      forall j | 0 <= j < |out|
        ensures maxGap < e.offset - out[j].End()
      {
        assert j < |out| - 1 ==> out[j].End() <= out[|out| - 1].offset;
      }
    }
  }

  /** A merge costs the hole it closes. */
  lemma MergeTotal(out: seq<Span>, e: Span, maxGap: int)
    ensures var merged := Merge(out, e, maxGap);
            if |merged| == |out| && out != [] then
              Total(merged) == Total(out) + e.length + (e.offset - out[|out| - 1].End())
            else Total(merged) == Total(out) + e.length
  {
    var merged := Merge(out, e, maxGap);
    assert merged[..|merged| - 1] == if |merged| == |out| then out[..|out| - 1] else out;
  }

  /** `merges` gaps, added up. */
  function Padding(merges: nat, gap: int): int {
    if merges == 0 then 0 else Padding(merges - 1, gap) + gap
  }

  /** At the plan's own gap. */
  lemma {:induction false} PaddingIsProduct(merges: nat)
    ensures Padding(merges, COALESCE_GAP_BYTES) == merges * COALESCE_GAP_BYTES
  {
    if merges > 0 {
      PaddingIsProduct(merges - 1);
    }
  }

  lemma MergeBytes(init: seq<Span>, out: seq<Span>, e: Span, maxGap: int)
    requires |out| <= |init| && (out != [] ==> out[|out| - 1].End() <= e.offset)
    requires Total(init) <= Total(out) <= Total(init) + Padding(|init| - |out|, maxGap)
    ensures var merged := Merge(out, e, maxGap);
            && |merged| <= |init| + 1
            && Total(init) + e.length <= Total(merged) <= Total(init) + e.length + Padding(|init| + 1 - |merged|, maxGap)
  {
    MergeTotal(out, e, maxGap);
  }

  lemma MergeKeepsOrder(es: seq<Span>, maxGap: int)
    requires es != [] && Ordered(es) && 0 <= maxGap
    ensures var init := es[..|es| - 1];
            Ordered(init) && LastEnd(Coalesce(init, maxGap)) <= es[|es| - 1].offset
  {
    OrderedInit(es);
    CoalesceShape(es[..|es| - 1], maxGap);
  }

  /** Coalescing n runs into m adds at most maxGap bytes for each of the n - m merges. */
  lemma {:induction false} CoalesceBytes(es: seq<Span>, maxGap: int)
    requires Ordered(es) && 0 <= maxGap
    ensures var out := Coalesce(es, maxGap);
            |out| <= |es| && Total(es) <= Total(out) <= Total(es) + Padding(|es| - |out|, maxGap)
    decreases |es|
  {
    if es != [] {
      var init, e := es[..|es| - 1], es[|es| - 1];
      var out := Coalesce(init, maxGap);
      assert Ordered(init) && LastEnd(out) <= e.offset by {
        MergeKeepsOrder(es, maxGap);
      }
      CoalesceBytes(init, maxGap);
      MergeBytes(init, out, e, maxGap);
    }
  }

  lemma MergeCovers(out: seq<Span>, e: Span, maxGap: int, x: int)
    requires out != [] && 0 < out[|out| - 1].length && out[|out| - 1].End() <= e.offset && 0 < e.length
    ensures Covers(Merge(out, e, maxGap), x) <==>
            || Covers(out, x) || e.Covers(x)
            || (out[|out| - 1].End() <= x < e.offset && e.offset - out[|out| - 1].End() <= maxGap)
  {
    var init, last := out[..|out| - 1], out[|out| - 1];
    assert out == init + [last];
    CoversSnoc(init, last, x);
    if e.offset - last.End() <= maxGap {
      CoversSnoc(init, Span(last.offset, e.End() - last.offset), x);
    } else {
      CoversSnoc(out, e, x);
    }
  }

  /** The first run is taken as it is. */
  lemma CoalesceOne(e: Span, maxGap: int)
    ensures Coalesce([e], maxGap) == [e]
  {
    assert [e][..0] == [];
  }

  lemma CoalesceCoversNext(init: seq<Span>, e: Span, maxGap: int, x: int)
    requires init != [] && Ordered(init) && 0 <= maxGap && 0 <= e.offset && 0 < e.length && LastEnd(init) <= e.offset
    requires Covers(Coalesce(init, maxGap), x) <==> Covers(init, x) || InSmallGap(init, maxGap, x)
    ensures Covers(Merge(Coalesce(init, maxGap), e, maxGap), x) <==>
            Covers(init + [e], x) || InSmallGap(init + [e], maxGap, x)
  {
    CoalesceShape(init, maxGap);
    CoalesceKeepsSome(init, maxGap);
    CoversSnoc(init, e, x);
    InSmallGapSnoc(init, e, maxGap, x);
    MergeCovers(Coalesce(init, maxGap), e, maxGap, x);
  }

  lemma CoalesceKeepsSome(es: seq<Span>, maxGap: int)
    requires es != []
    ensures Coalesce(es, maxGap) != []
  {
  }

  /** Coalescing adds exactly the small holes. */
  lemma {:induction false} CoalesceCovers(es: seq<Span>, maxGap: int, x: int)
    requires Ordered(es) && 0 <= maxGap
    ensures Covers(Coalesce(es, maxGap), x) <==> Covers(es, x) || InSmallGap(es, maxGap, x)
    decreases |es|
  {
    if |es| == 1 {
      CoalesceOne(es[0], maxGap);
      assert es == [es[0]];
    } else if es != [] {
      var init, e := es[..|es| - 1], es[|es| - 1];
      assert es == init + [e];
      OrderedInit(es);
      CoalesceCovers(init, maxGap, x);
      CoalesceCoversNext(init, e, maxGap, x);
    }
  }

  method CoalesceExtents(extents: seq<Span>, maxGap: int) returns (out: seq<Span>)
    ensures out == Coalesce(extents, maxGap)
  {
    out := [];
    for i := 0 to |extents|
      invariant out == Coalesce(extents[..i], maxGap)
    {
      assert extents[..i + 1][..i] == extents[..i];
      var e, n := extents[i], |out|;
      if n > 0 && e.offset - (out[n - 1].offset + out[n - 1].length) <= maxGap {
        out := out[..n - 1] + [Span(out[n - 1].offset, e.offset + e.length - out[n - 1].offset)];
        continue;
      }
      out := out + [e];
    }
    assert extents[..|extents|] == extents;
  }

  // ---------------------------------------------------------------- split

  /** The slices of [off, end), each limit bytes but the last. */
  function Slices(off: int, end: int, limit: int): seq<Span>
    requires 0 < limit
    decreases end - off
  {
    if end <= off then []
    else [Span(off, if limit < end - off then limit else end - off)] + Slices(off + limit, end, limit)
  }

  function Split(es: seq<Span>, limit: int): seq<Span>
    requires 0 < limit
    decreases |es|
  {
    if es == [] then []
    else Split(es[..|es| - 1], limit) + Slices(es[|es| - 1].offset, es[|es| - 1].End(), limit)
  }

  ghost predicate Capped(es: seq<Span>, limit: int) {
    forall k :: 0 <= k < |es| ==> 0 < es[k].length <= limit
  }

  ghost predicate Between(es: seq<Span>, lo: int, hi: int) {
    forall k :: 0 <= k < |es| ==> lo <= es[k].offset && es[k].End() <= hi
  }

  /** Every slice lies in the run and is no longer than the limit. */
  lemma {:induction false} SlicesBetween(off: int, end: int, limit: int)
    requires 0 < limit
    ensures Capped(Slices(off, end, limit), limit) && Between(Slices(off, end, limit), off, end)
    decreases end - off
  {
    if off < end {
      SlicesBetween(off + limit, end, limit);
    }
  }

  lemma {:induction false} SlicesOrdered(off: int, end: int, limit: int)
    requires 0 < limit && 0 <= off
    ensures Ordered(Slices(off, end, limit))
    decreases end - off
  {
    if off < end {
      SlicesOrdered(off + limit, end, limit);
      SlicesBetween(off + limit, end, limit);
      var head := [Span(off, if limit < end - off then limit else end - off)];
      OrderedConcat(head, Slices(off + limit, end, limit), off + limit);
    }
  }

  lemma {:induction false} SlicesCover(off: int, end: int, limit: int, x: int)
    requires 0 < limit
    ensures Covers(Slices(off, end, limit), x) <==> off <= x < end
    decreases end - off
  {
    if off < end {
      var head := Span(off, if limit < end - off then limit else end - off);
      SlicesCover(off + limit, end, limit, x);
      CoversConcat([head], Slices(off + limit, end, limit), x);
      assert [head] == [] + [head];
      CoversSnoc([], head, x);
    }
  }

  lemma {:induction false} SlicesTotal(off: int, end: int, limit: int)
    requires 0 < limit && off <= end
    ensures Total(Slices(off, end, limit)) == end - off
    decreases end - off
  {
    if off < end {
      var head := Span(off, if limit < end - off then limit else end - off);
      TotalConcat([head], Slices(off + limit, end, limit));
      assert [head][..0] == [] && Total([head]) == head.length;
      if off + limit <= end {
        SlicesTotal(off + limit, end, limit);
      }
    }
  }

  lemma OrderedConcat(a: seq<Span>, b: seq<Span>, mid: int)
    requires Ordered(a) && Ordered(b) && FitsIn(a, mid) && forall k :: 0 <= k < |b| ==> mid <= b[k].offset
    ensures Ordered(a + b)
  {
  }

  /** The slices are ordered, capped and stay where the runs were. */
  lemma {:induction false} SplitShape(es: seq<Span>, limit: int)
    requires 0 < limit && Ordered(es)
    ensures Ordered(Split(es, limit)) && Capped(Split(es, limit), limit) && FitsIn(Split(es, limit), LastEnd(es))
    decreases |es|
  {
    if es != [] {
      var init, e := es[..|es| - 1], es[|es| - 1];
      OrderedInit(es);
      SplitShape(init, limit);
      SlicesBetween(e.offset, e.End(), limit);
      SlicesOrdered(e.offset, e.End(), limit);
      var a, b := Split(init, limit), Slices(e.offset, e.End(), limit);
      assert FitsIn(a, e.offset);
      OrderedConcat(a, b, e.offset);
    }
  }

  lemma {:induction false} SlicesAreFull(off: int, end: int, limit: int)
    requires 0 < limit
    ensures forall s :: s in Slices(off, end, limit) && s.length != limit ==> s.End() == end
    decreases end - off
  {
    if off < end {
      SlicesAreFull(off + limit, end, limit);
    }
  }

  /** A run is cut only where it must be: a slice short of the limit ends where a run ended. */
  lemma {:induction false} SplitIsFull(es: seq<Span>, limit: int)
    requires 0 < limit
    ensures forall s :: s in Split(es, limit) && s.length != limit ==> exists e :: e in es && s.End() == e.End()
    decreases |es|
  {
    if es != [] {
      var init, e := es[..|es| - 1], es[|es| - 1];
      SplitIsFull(init, limit);
      SlicesAreFull(e.offset, e.End(), limit);
      forall s | s in Split(es, limit) && s.length != limit
        ensures exists r :: r in es && s.End() == r.End()
      {
        if s in Split(init, limit) {
          var r :| r in init && s.End() == r.End();
          assert r in es;
        } else {
          assert e in es && s in Slices(e.offset, e.End(), limit);
        }
      }
    }
  }

  /** Cutting neither adds nor loses a byte. */
  lemma {:induction false} SplitTotal(es: seq<Span>, limit: int)
    requires 0 < limit && Ordered(es)
    ensures Total(Split(es, limit)) == Total(es)
    decreases |es|
  {
    if es != [] {
      var init, e := es[..|es| - 1], es[|es| - 1];
      OrderedInit(es);
      SplitTotal(init, limit);
      SlicesTotal(e.offset, e.End(), limit);
      TotalConcat(Split(init, limit), Slices(e.offset, e.End(), limit));
    }
  }

  lemma {:induction false} SplitCovers(es: seq<Span>, limit: int, x: int)
    requires 0 < limit
    ensures Covers(Split(es, limit), x) <==> Covers(es, x)
    decreases |es|
  {
    if es != [] {
      var init, e := es[..|es| - 1], es[|es| - 1];
      assert es == init + [e];
      SplitCovers(init, limit, x);
      SlicesCover(e.offset, e.End(), limit, x);
      CoversSnoc(init, e, x);
      CoversConcat(Split(init, limit), Slices(e.offset, e.End(), limit), x);
    }
  }

  method SplitExtents(extents: seq<Span>, limit: int) returns (out: seq<Span>)
    requires 0 < limit
    ensures out == Split(extents, limit)
  {
    out := [];
    for i := 0 to |extents|
      invariant out == Split(extents[..i], limit)
    {
      assert extents[..i + 1][..i] == extents[..i];
      var e := extents[i];
      var off := e.offset;
      while off < e.offset + e.length
        invariant out + Slices(off, e.End(), limit) == Split(extents[..i + 1], limit)
        decreases e.End() - off
      {
        var length := if limit < e.offset + e.length - off then limit else e.offset + e.length - off;
        assert out + Slices(off, e.End(), limit)
            == out + [Span(off, length)] + Slices(off + limit, e.End(), limit);
        out := out + [Span(off, length)];
        off := off + limit;
      }
    }
    assert extents[..|extents|] == extents;
  }

  // ---------------------------------------------------------------- grouping

  function PerStream(n: nat): (k: nat)
    ensures 0 < k && n <= STREAMS_PER_FILE * k && (k > 1 ==> STREAMS_PER_FILE * (k - 1) < n)
  {
    var k := (n + STREAMS_PER_FILE - 1) / STREAMS_PER_FILE;
    if k < 1 then 1 else k
  }

  function Chunk<T>(s: seq<T>, per: nat): seq<seq<T>>
    requires 0 < per
    decreases |s|
  {
    if s == [] then []
    else if |s| <= per then [s]
    else [s[..per]] + Chunk(s[per..], per)
  }

  function Flatten<T>(ss: seq<seq<T>>): seq<T> {
    if ss == [] then [] else ss[0] + Flatten(ss[1..])
  }

  lemma MulPred(k: int, per: int)
    ensures (k - 1) * per == k * per - per
  {
  }

  lemma {:induction false} ChunkCount<T>(s: seq<T>, per: nat, k: nat)
    requires 0 < per && |s| <= k * per
    ensures |Chunk(s, per)| <= k
    decreases |s|
  {
    if per < |s| {
      MulPred(k, per);
      assert k != 0;
      ChunkCount(s[per..], per, k - 1);
    }
  }

  lemma {:induction false} ChunkSizes<T>(s: seq<T>, per: nat)
    requires 0 < per
    ensures forall i :: 0 <= i < |Chunk(s, per)| ==> 0 < |Chunk(s, per)[i]| <= per
    ensures forall i :: 0 <= i < |Chunk(s, per)| - 1 ==> |Chunk(s, per)[i]| == per
    decreases |s|
  {
    if per < |s| {
      ChunkSizes(s[per..], per);
    }
  }

  lemma {:induction false} ChunkJoins<T>(s: seq<T>, per: nat)
    requires 0 < per
    ensures Flatten(Chunk(s, per)) == s
    decreases |s|
  {
    if per < |s| {
      var rest := Chunk(s[per..], per);
      ChunkJoins(s[per..], per);
      assert ([s[..per]] + rest)[1..] == rest;
    } else if s != [] {
      assert [s][1..] == [];
    }
  }

  /** Chunks are non-empty, per long but the last, at most k, and put together give the sequence back. */
  lemma ChunkPartitions<T>(s: seq<T>, per: nat, k: nat)
    requires 0 < per && |s| <= k * per
    ensures Flatten(Chunk(s, per)) == s && |Chunk(s, per)| <= k
    ensures forall i :: 0 <= i < |Chunk(s, per)| ==> 0 < |Chunk(s, per)[i]| <= per
    ensures forall i :: 0 <= i < |Chunk(s, per)| - 1 ==> |Chunk(s, per)[i]| == per
  {
    ChunkCount(s, per, k);
    ChunkSizes(s, per);
    ChunkJoins(s, per);
  }

  lemma ChunkHead<T>(s: seq<T>, per: nat)
    requires 0 < per && s != []
    ensures var n := if per < |s| then per else |s|;
            Chunk(s, per) == [s[..n]] + Chunk(s[n..], per)
  {
    if |s| <= per {
      assert s[..|s|] == s && s[|s|..] == [];
    }
  }

  /** One task per chunk of `perStream` slices. */
  method GroupTasks(plan: seq<Span>) returns (tasks: seq<seq<Span>>)
    ensures Flatten(tasks) == plan && |tasks| <= STREAMS_PER_FILE
    ensures forall i :: 0 <= i < |tasks| ==> tasks[i] != []
    ensures forall i, j :: 0 <= i < |tasks| - 1 && 0 <= j < |tasks| ==> |tasks[j]| <= |tasks[i]|
    ensures tasks == Chunk(plan, PerStream(|plan|))
  {
    var perStream := PerStream(|plan|);
    tasks := [];
    var rest := plan;
    while rest != []
      invariant tasks + Chunk(rest, perStream) == Chunk(plan, perStream)
      decreases |rest|
    {
      var n := if perStream < |rest| then perStream else |rest|;
      ChunkHead(rest, perStream);
      tasks := tasks + [rest[..n]];
      rest := rest[n..];
    }
    assert tasks == Chunk(plan, perStream);
    ChunkPartitions(plan, perStream, STREAMS_PER_FILE);
  }

  // ---------------------------------------------------------------- the client's bounds check

  const MAX_INT64: int := 0x7fff_ffff_ffff_ffff

  /** Two's-complement int64 addition of non-negative operands. */
  function Add64(a: int, b: int): int {
    if a + b <= MAX_INT64 then a + b else a + b - 0x1_0000_0000_0000_0000
  }

  predicate Int64(x: int) {
    -MAX_INT64 - 1 <= x <= MAX_INT64
  }

  predicate SliceAccepted(sl: Span, size: int) {
    !(sl.offset < 0 || sl.length <= 0 || Add64(sl.offset, sl.length) > size)
  }

  /** Every slice of a served plan passes the check. */
  lemma PlanAccepted(es: seq<Span>, size: int)
    requires Ordered(es) && FitsIn(es, size) && Int64(size)
    ensures forall k :: 0 <= k < |es| ==> SliceAccepted(es[k], size)
  {
    forall k | 0 <= k < |es|
      ensures SliceAccepted(es[k], size)
    {
      assert es[k].End() <= size;
    }
  }

  /** Accepted is exactly a slice inside the file, or one whose end overflows; an accepted one is inside exactly when it does not. */
  lemma AcceptedInBounds(sl: Span, size: int)
    requires Int64(sl.offset) && Int64(sl.length) && Int64(size) && 0 <= size
    ensures SliceAccepted(sl, size) <==> 0 <= sl.offset && 0 < sl.length && (sl.End() <= size || MAX_INT64 < sl.End())
    ensures SliceAccepted(sl, size) ==> (sl.End() <= size <==> sl.offset <= MAX_INT64 - sl.length)
  {
  }

  /** A slice that overflows is accepted though it lies far outside the file. */
  lemma OverflowingSliceAccepted()
    ensures var sl := Span(MAX_INT64, 1); SliceAccepted(sl, 0) && sl.End() > 0
  {
  }

  // ---------------------------------------------------------------- the whole plan

  function PlanOf(extents: seq<Span>): seq<Span> {
    Split(Coalesce(extents, COALESCE_GAP_BYTES), PEER_SLICE_BYTES)
  }

  /** Every served plan is ordered, capped, in bounds, covers the runs, and pads at most the gap per merge. */
  lemma PlanIsValid(extents: seq<Span>, size: int)
    requires Ordered(extents) && FitsIn(extents, size) && Int64(size)
    ensures var plan := PlanOf(extents);
            && Ordered(plan) && Capped(plan, PEER_SLICE_BYTES) && FitsIn(plan, size)
            && (forall k :: 0 <= k < |plan| ==> SliceAccepted(plan[k], size))
            && (forall x :: Covers(plan, x) <==> Covers(extents, x) || InSmallGap(extents, COALESCE_GAP_BYTES, x))
            && Total(plan) <= Total(extents) + (if extents == [] then 0 else |extents| - 1) * COALESCE_GAP_BYTES
  {
    var merged := Coalesce(extents, COALESCE_GAP_BYTES);
    CoalesceShape(extents, COALESCE_GAP_BYTES);
    CoalesceBytes(extents, COALESCE_GAP_BYTES);
    PaddingIsProduct(|extents| - |merged|);
    OrderedFits(merged, size);
    SplitShape(merged, PEER_SLICE_BYTES);
    SplitTotal(merged, PEER_SLICE_BYTES);
    var plan := PlanOf(extents);
    OrderedFits(plan, size);
    PlanAccepted(plan, size);
    forall x
      ensures Covers(plan, x) <==> Covers(extents, x) || InSmallGap(extents, COALESCE_GAP_BYTES, x)
    {
      SplitCovers(merged, PEER_SLICE_BYTES, x);
      CoalesceCovers(extents, COALESCE_GAP_BYTES, x);
    }
  }

  lemma OrderedFits(es: seq<Span>, size: int)
    requires Ordered(es) && (es != [] ==> LastEnd(es) <= size)
    ensures FitsIn(es, size)
  {
    forall k | 0 <= k < |es|
      ensures es[k].End() <= size
    {
      assert k < |es| - 1 ==> es[k].End() <= es[|es| - 1].offset;
    }
  }
}
