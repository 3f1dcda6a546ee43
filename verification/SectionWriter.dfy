/**
 The receiving end of one slice stream (`snapshots/peer.go`): `writeSkippingZeros`
 and the `sectionWriter` that batches a stream into it.
 */
module SectionWriting {
  import opened SparseFile

  /** Granularity of zero elision. */
  const ZERO_SKIP_BYTES := 0x10_0000

  /** Size of the batching buffer. */
  const RESTORE_BUF_BYTES := 0x40_0000

  function ChunkEnd(start: nat, n: nat): nat {
    if start + ZERO_SKIP_BYTES < n then start + ZERO_SKIP_BYTES else n
  }

  predicate ZeroChunk(data: seq<Byte>, start: nat)
    requires start <= |data|
  {
    forall i :: start <= i < ChunkEnd(start, |data|) ==> data[i] == 0
  }

  /** The first chunk boundary at or after start whose chunk is all zero, or the end. */
  function RunEnd(data: seq<Byte>, start: nat): (e: nat)
    requires start <= |data|
    ensures start <= e <= |data|
    ensures start < |data| && !ZeroChunk(data, start) ==> start < e
    ensures start % ZERO_SKIP_BYTES == 0 ==> e == |data| || e % ZERO_SKIP_BYTES == 0
    ensures e < |data| ==> ZeroChunk(data, e)
    decreases |data| - start
  {
    if start == |data| || ZeroChunk(data, start) then start
    else RunEnd(data, ChunkEnd(start, |data|))
  }

  /** The writes that elide all-zero chunks: one per maximal run of non-zero chunks. */
  function SkipWrites(data: seq<Byte>, off: nat, start: nat := 0): (ops: seq<WriteOp>)
    requires start <= |data|
    decreases |data| - start
  {
    if start == |data| then []
    else if ZeroChunk(data, start) then SkipWrites(data, off, ChunkEnd(start, |data|))
    else
      var e := RunEnd(data, start);
      [WriteOp(off + start, data[start..e])] + SkipWrites(data, off, e)
  }

  /** No chunk inside a run is all zero. */
  lemma {:induction false} RunHasNoZeroChunk(data: seq<Byte>, start: nat, i: nat)
    requires start <= |data| && start % ZERO_SKIP_BYTES == 0
    requires start <= i < RunEnd(data, start)
    ensures !ZeroChunk(data, i - i % ZERO_SKIP_BYTES)
    decreases |data| - start
  {
    if ChunkEnd(start, |data|) <= i {
      RunHasNoZeroChunk(data, ChunkEnd(start, |data|), i);
    }
  }

  /** The write lies in the data placed at off, at or after lo, and carries its bytes there. */
  predicate Within(op: WriteOp, data: seq<Byte>, off: nat, lo: nat) {
    off + lo <= op.off < op.End() <= off + |data| && op.data == data[op.off - off..op.End() - off]
  }

  ghost predicate AllWithin(ops: seq<WriteOp>, data: seq<Byte>, off: nat, lo: nat) {
    forall k :: 0 <= k < |ops| ==> Within(ops[k], data, off, lo)
  }

  /** Ascending, with at least one elided byte between two writes. */
  ghost predicate Separated(ops: seq<WriteOp>) {
    forall j, k :: 0 <= j < k < |ops| ==> ops[j].End() < ops[k].off
  }

  /** Where the writes lie and what they carry. */
  lemma {:induction false} SkipWritesCarry(data: seq<Byte>, off: nat, start: nat)
    requires start <= |data|
    ensures AllWithin(SkipWrites(data, off, start), data, off, start)
    decreases |data| - start
  {
    if start == |data| {
    } else if ZeroChunk(data, start) {
      SkipWritesCarry(data, off, ChunkEnd(start, |data|));
    } else {
      var e := RunEnd(data, start);
      SkipWritesCarry(data, off, e);
      assert Within(WriteOp(off + start, data[start..e]), data, off, start);
    }
  }

  /** They are maximal runs in file order: at least one elided chunk lies between two writes. */
  lemma {:induction false} SkipWritesSeparated(data: seq<Byte>, off: nat, start: nat)
    requires start <= |data|
    ensures Separated(SkipWrites(data, off, start))
    decreases |data| - start
  {
    if start == |data| {
    } else if ZeroChunk(data, start) {
      SkipWritesSeparated(data, off, ChunkEnd(start, |data|));
    } else {
      var e := RunEnd(data, start);
      SkipWritesSeparated(data, off, e);
      if e < |data| {
        SkipWritesCarry(data, off, ChunkEnd(e, |data|));
        var rest := SkipWrites(data, off, ChunkEnd(e, |data|));
        assert forall k :: 0 <= k < |rest| ==> Within(rest[k], data, off, ChunkEnd(e, |data|));
      }
    }
  }

  lemma CoveredHead(op: WriteOp, rest: seq<WriteOp>, i: int)
    ensures Covered([op] + rest, i) <==> op.Covers(i) || Covered(rest, i)
  {
    var all := [op] + rest;
    if op.Covers(i) {
      assert all[0].Covers(i);
    }
    if Covered(rest, i) {
      var k :| 0 <= k < |rest| && rest[k].Covers(i);
      assert all[k + 1].Covers(i);
    }
    if Covered(all, i) && !op.Covers(i) {
      var k :| 0 <= k < |all| && all[k].Covers(i);
      assert rest[k - 1].Covers(i);
    }
  }

  /** A byte is written exactly when its chunk holds a non-zero byte. */
  lemma {:induction false} SkipWritesCoverExactly(data: seq<Byte>, off: nat, start: nat, i: nat)
    requires start <= i < |data| && start % ZERO_SKIP_BYTES == 0
    ensures Covered(SkipWrites(data, off, start), off + i) <==> !ZeroChunk(data, i - i % ZERO_SKIP_BYTES)
    decreases |data| - start
  {
    if ZeroChunk(data, start) {
      var e := ChunkEnd(start, |data|);
      if e <= i {
        SkipWritesCoverExactly(data, off, e, i);
      } else {
        SkipWritesCarry(data, off, e);
      }
    } else {
      var e := RunEnd(data, start);
      CoveredHead(WriteOp(off + start, data[start..e]), SkipWrites(data, off, e), off + i);
      if e <= i {
        SkipWritesCoverExactly(data, off, e, i);
      } else {
        RunHasNoZeroChunk(data, start, i);
      }
    }
  }

  /** The writes for a stream cut into full buffers, the last one possibly short. */
  function BlockWrites(stream: seq<Byte>, off: nat): seq<WriteOp>
    decreases |stream|
  {
    if stream == [] then []
    else
      var k := LastBlock(|stream|);
      BlockWrites(stream[..k], off) + SkipWrites(stream[k..], off + k)
  }

  /** Start of the last buffer of an n-byte stream. */
  function LastBlock(n: nat): nat
    requires 0 < n
  {
    n - 1 - (n - 1) % RESTORE_BUF_BYTES
  }

  lemma {:induction false} BlockWritesCarry(stream: seq<Byte>, off: nat)
    ensures AllWithin(BlockWrites(stream, off), stream, off, 0)
    decreases |stream|
  {
    if stream != [] {
      var b := LastBlock(|stream|);
      var head, tail := BlockWrites(stream[..b], off), SkipWrites(stream[b..], off + b);
      BlockWritesCarry(stream[..b], off);
      SkipWritesCarry(stream[b..], off + b, 0);
      forall k | 0 <= k < |head| + |tail|
        ensures Within((head + tail)[k], stream, off, 0)
      {
        assert k < |head| ==> Within(head[k], stream[..b], off, 0);
        assert |head| <= k ==> Within(tail[k - |head|], stream[b..], off + b, 0);
      }
    }
  }

  lemma CoveredConcat(a: seq<WriteOp>, b: seq<WriteOp>, i: int)
    ensures Covered(a + b, i) <==> Covered(a, i) || Covered(b, i)
  {
    if Covered(a, i) {
      var k :| 0 <= k < |a| && a[k].Covers(i);
      assert (a + b)[k].Covers(i);
    }
    if Covered(b, i) {
      var k :| 0 <= k < |b| && b[k].Covers(i);
      assert (a + b)[|a| + k].Covers(i);
    }
    if Covered(a + b, i) {
      var k :| 0 <= k < |a + b| && (a + b)[k].Covers(i);
      assert if k < |a| then a[k].Covers(i) else b[k - |a|].Covers(i);
    }
  }

  /** Cutting whole chunks off either end of a stream leaves the other chunks as they are. */
  lemma ZeroChunkOfPart(stream: seq<Byte>, lo: nat, hi: nat, c: nat)
    requires lo <= c <= hi <= |stream| && (hi == |stream| || c + ZERO_SKIP_BYTES <= hi)
    ensures ZeroChunk(stream[lo..hi], c - lo) <==> ZeroChunk(stream, c)
  {
    assert ChunkEnd(c - lo, hi - lo) == ChunkEnd(c, |stream|) - lo;
    if ZeroChunk(stream[lo..hi], c - lo) {
      forall i | c <= i < ChunkEnd(c, |stream|)
        ensures stream[i] == 0
      {
        assert stream[lo..hi][i - lo] == 0;
      }
    }
  }

  /** Chunks divide buffers, so a chunk that starts before a buffer boundary ends by it. */
  lemma ChunkGrid(b: nat, i: nat)
    requires b % RESTORE_BUF_BYTES == 0
    ensures i < b ==> i - i % ZERO_SKIP_BYTES + ZERO_SKIP_BYTES <= b
    ensures b <= i ==> b <= i - i % ZERO_SKIP_BYTES && (i - b) % ZERO_SKIP_BYTES == i % ZERO_SKIP_BYTES
  {
  }

  /** Batching does not move the chunk grid: a stream byte is written exactly when its chunk is not all zero. */
  lemma {:induction false} BlockWritesCoverExactly(stream: seq<Byte>, off: nat, i: nat)
    requires i < |stream|
    ensures Covered(BlockWrites(stream, off), off + i) <==> !ZeroChunk(stream, i - i % ZERO_SKIP_BYTES)
    decreases |stream|
  {
    var b := LastBlock(|stream|);
    var front, back := stream[..b], stream[b..];
    CoveredConcat(BlockWrites(front, off), SkipWrites(back, off + b), off + i);
    ChunkGrid(b, i);
    ChunkOfSide(stream, b, i);
    if i < b {
      BlockWritesCoverExactly(front, off, i);
      SkipWritesCarry(back, off + b, 0);
      NotCoveredOutside(SkipWrites(back, off + b), back, off + b, off + i);
    } else {
      BlockWritesCarry(front, off);
      NotCoveredOutside(BlockWrites(front, off), front, off, off + i);
      SkipWritesCoverExactly(back, off + b, 0, i - b);
    }
  }

  lemma ChunkOfSide(stream: seq<Byte>, b: nat, i: nat)
    requires b <= |stream| && i < |stream| && b % RESTORE_BUF_BYTES == 0
    ensures var c := i - i % ZERO_SKIP_BYTES;
            if i < b then ZeroChunk(stream[..b], c) <==> ZeroChunk(stream, c)
            else
              var d := (i - b) - (i - b) % ZERO_SKIP_BYTES;
              ZeroChunk(stream[b..], d) <==> ZeroChunk(stream, c)
  {
    var c := i - i % ZERO_SKIP_BYTES;
    ChunkGrid(b, i);
    if i < b {
      assert stream[..b] == stream[0..b];
      ZeroChunkOfPart(stream, 0, b, c);
    } else {
      assert stream[b..] == stream[b..|stream|];
      ZeroChunkOfPart(stream, b, |stream|, c);
    }
  }

  lemma NotCoveredOutside(ops: seq<WriteOp>, data: seq<Byte>, off: nat, i: int)
    requires AllWithin(ops, data, off, 0) && !(off <= i < off + |data|)
    ensures !Covered(ops, i)
  {
  }

  /** A stream's writes carry the bytes of the file that one plain write of it would leave. */
  lemma BlockWritesCarryPlain(file: seq<Byte>, stream: seq<Byte>, off: nat)
    requires off + |stream| <= |file|
    ensures |Patch(file, WriteOp(off, stream))| == |file|
    ensures AllCarry(BlockWrites(stream, off), Patch(file, WriteOp(off, stream)))
  {
    BlockWritesCarry(stream, off);
    PatchInside(file, WriteOp(off, stream));
    WithinCarries(BlockWrites(stream, off), stream, off, Patch(file, WriteOp(off, stream)));
  }

  /** Writes within data that a source holds at off carry that source's bytes. */
  lemma WithinCarries(ops: seq<WriteOp>, data: seq<Byte>, off: nat, src: seq<Byte>)
    requires AllWithin(ops, data, off, 0) && off + |data| <= |src| && src[off..off + |data|] == data
    ensures AllCarry(ops, src)
  {
    forall k | 0 <= k < |ops|
      ensures Carries(ops[k], src)
    {
      assert Within(ops[k], data, off, 0);
      SliceOfSlice(src, off, off + |data|, ops[k].off, ops[k].End());
    }
  }

  lemma SliceOfSlice(s: seq<Byte>, lo: nat, hi: nat, a: nat, b: nat)
    requires lo <= a <= b <= hi <= |s|
    ensures s[lo..hi][a - lo..b - lo] == s[a..b]
  {
    forall i | 0 <= i < b - a
      ensures s[lo..hi][a - lo..b - lo][i] == s[a..b][i]
    {
    }
  }

  /** File byte i lies under an elided chunk of the stream but is not zero. */
  predicate StaleUnderElision(file: seq<Byte>, stream: seq<Byte>, off: nat, i: nat)
    requires off + |stream| <= |file| && i < |file|
  {
    off <= i < off + |stream| && ZeroChunk(stream, (i - off) - (i - off) % ZERO_SKIP_BYTES) && file[i] != 0
  }

  /** A byte of the stream that the elided writes leave different from the plain write: not reached, and not zero before. */
  lemma ElidedByte(file: seq<Byte>, stream: seq<Byte>, off: nat, j: nat, covered: bool)
    requires off + |stream| <= |file| && j < |stream| && (covered <==> !ZeroChunk(stream, j - j % ZERO_SKIP_BYTES))
    ensures |Patch(file, WriteOp(off, stream))| == |file|
    ensures !covered && file[off + j] != Patch(file, WriteOp(off, stream))[off + j]
            <==> StaleUnderElision(file, stream, off, off + j)
  {
    PlainByte(file, stream, off, j);
  }

  /** Under a zero chunk the plain write leaves a zero. */
  lemma PlainByte(file: seq<Byte>, stream: seq<Byte>, off: nat, i: nat)
    requires off + |stream| <= |file| && i < |stream|
    ensures |Patch(file, WriteOp(off, stream))| == |file|
    ensures ZeroChunk(stream, i - i % ZERO_SKIP_BYTES) ==> Patch(file, WriteOp(off, stream))[off + i] == 0
  {
    PatchInside(file, WriteOp(off, stream));
  }

  /**
   The buffered, zero-eliding writer has the effect of one plain write of the
   stream exactly when the file already reads zero under every elided chunk.
   */
  lemma BufferedWriteRefinesPlainWrite(file: seq<Byte>, stream: seq<Byte>, off: nat)
    requires off + |stream| <= |file|
    ensures Replay(file, BlockWrites(stream, off)) == Patch(file, WriteOp(off, stream))
            <==> forall i :: 0 <= i < |file| ==> !StaleUnderElision(file, stream, off, i)
  {
    var ops, plain := BlockWrites(stream, off), Patch(file, WriteOp(off, stream));
    BlockWritesCarryPlain(file, stream, off);
    ReplayOfCarriers(file, plain, ops);
    ElisionPointwise(file, stream, off, Replay(file, ops));
  }

  lemma ElisionPointwise(file: seq<Byte>, stream: seq<Byte>, off: nat, done: seq<Byte>)
    requires off + |stream| <= |file| && |Patch(file, WriteOp(off, stream))| == |file| == |done|
    requires forall i :: 0 <= i < |file| ==>
      done[i] == if Covered(BlockWrites(stream, off), i) then Patch(file, WriteOp(off, stream))[i] else file[i]
    ensures done == Patch(file, WriteOp(off, stream))
            <==> forall i :: 0 <= i < |file| ==> !StaleUnderElision(file, stream, off, i)
  {
    forall i | 0 <= i < |file|
      ensures done[i] != Patch(file, WriteOp(off, stream))[i] <==> StaleUnderElision(file, stream, off, i)
    {
      ElisionAt(file, stream, off, i, done[i]);
    }
  }

  lemma ElisionAt(file: seq<Byte>, stream: seq<Byte>, off: nat, i: nat, done: Byte)
    requires off + |stream| <= |file| && i < |file| && |Patch(file, WriteOp(off, stream))| == |file|
    requires done == if Covered(BlockWrites(stream, off), i) then Patch(file, WriteOp(off, stream))[i] else file[i]
    ensures done != Patch(file, WriteOp(off, stream))[i] <==> StaleUnderElision(file, stream, off, i)
  {
    if off <= i < off + |stream| {
      var j := i - off;
      BlockWritesCoverExactly(stream, off, j);
      ElidedByte(file, stream, off, j, Covered(BlockWrites(stream, off), off + j));
    } else {
      PatchInside(file, WriteOp(off, stream));
    }
  }

  /** The last buffer's worth of a stream, full or short, adds its own writes after those of the buffers before. */
  lemma BlockWritesLast(stream: seq<Byte>, cut: nat, off: nat)
    requires cut < |stream| <= cut + RESTORE_BUF_BYTES && cut % RESTORE_BUF_BYTES == 0
    ensures BlockWrites(stream, off) == BlockWrites(stream[..cut], off) + SkipWrites(stream[cut..], off + cut)
  {
    assert LastBlock(|stream|) == cut;
  }

  lemma NextBuffer(cut: nat)
    requires cut % RESTORE_BUF_BYTES == 0
    ensures (cut + RESTORE_BUF_BYTES) % RESTORE_BUF_BYTES == 0
  {
  }

  lemma LogAfterFlush(base: seq<WriteOp>, log: seq<WriteOp>, stream: seq<Byte>, cut: nat, off: nat)
    requires cut < |stream| <= cut + RESTORE_BUF_BYTES && cut % RESTORE_BUF_BYTES == 0
    requires log == base + BlockWrites(stream[..cut], off)
    ensures log + SkipWrites(stream[cut..], off + cut) == base + BlockWrites(stream, off)
  {
    BlockWritesLast(stream, cut, off);
  }

  /**
   A file created and truncated to its final size, as one stream uses it: `log` is what
   that stream has written, in order. Other streams of the file have logs of their own.
   */
  class StagedFile {
    const size: nat
    var failed: bool
    var log: seq<WriteOp>

    constructor (size: nat)
      ensures this.size == size && !failed && log == []
    {
      this.size, failed, log := size, false, [];
    }

    /** What this stream's writes make of the truncated file. */
    ghost function Contents(): seq<Byte>
      reads this
    {
      Replay(Zeros(size), log)
    }

    /** A write that fails may have landed a prefix. */
    method WriteAt(data: seq<Byte>, off: nat) returns (ok: bool)
      modifies this
      ensures failed == (old(failed) || !ok)
      ensures ok ==> log == old(log) + [WriteOp(off, data)]
      ensures !ok ==> exists m :: 0 <= m <= |data| && log == old(log) + [WriteOp(off, data[..m])]
    {
      if * {
        log := log + [WriteOp(off, data)];
        ok := true;
      } else {
        var m: nat :| m <= |data|;
        log := log + [WriteOp(off, data[..m])];
        failed := true;
        ok := false;
      }
    }
  }

  /** The log grew by writes inside [lo, hi) only. */
  ghost predicate GrewWithin(before: seq<WriteOp>, after: seq<WriteOp>, lo: nat, hi: nat) {
    && before <= after
    && forall k :: |before| <= k < |after| ==> lo <= after[k].off && after[k].End() <= hi
  }

  lemma GrewTwice(a: seq<WriteOp>, b: seq<WriteOp>, c: seq<WriteOp>, lo: nat, mid: nat, hi: nat)
    requires GrewWithin(a, b, lo, hi) && GrewWithin(b, c, mid, hi) && lo <= mid
    ensures GrewWithin(a, c, lo, hi)
  {
    forall k | |a| <= k < |c|
      ensures lo <= c[k].off && c[k].End() <= hi
    {
      assert k < |b| ==> c[k] == b[k];
    }
  }

  /** So every byte outside [lo, hi) reads as before. */
  lemma GrewWithinFrames(size: nat, before: seq<WriteOp>, after: seq<WriteOp>, lo: nat, hi: nat)
    requires GrewWithin(before, after, lo, hi)
    ensures UnchangedOutside(Replay(Zeros(size), before), Replay(Zeros(size), after), lo, hi)
  {
    var more := after[|before|..];
    assert after == before + more;
    ReplayConcat(Zeros(size), before, more);
    ReplayStaysInside(Replay(Zeros(size), before), more, lo, hi);
  }

  lemma NextSkipWrite(data: seq<Byte>, off: nat, start: nat, done: nat)
    requires start < |data| && !ZeroChunk(data, start)
    requires done <= |SkipWrites(data, off)| && SkipWrites(data, off)[done..] == SkipWrites(data, off, start)
    ensures var ops, e := SkipWrites(data, off), RunEnd(data, start);
            && done < |ops| && ops[done] == WriteOp(off + start, data[start..e])
            && ops[done + 1..] == SkipWrites(data, off, e)
            && ops[..done + 1] == ops[..done] + [ops[done]]
  {
    var ops, e := SkipWrites(data, off), RunEnd(data, start);
    assert ops[done..][1..] == ops[done + 1..];
    assert ops[done..][0] == ops[done];
  }

  method WriteSkippingZeros(f: StagedFile, data: seq<Byte>, off: nat) returns (ok: bool)
    modifies f
    ensures f.failed == (old(f.failed) || !ok)
    ensures ok ==> f.log == old(f.log) + SkipWrites(data, off)
    ensures GrewWithin(old(f.log), f.log, off, off + |data|)
  {
    var start := 0;
    ghost var ops, done := SkipWrites(data, off), 0;
    SkipWritesCarry(data, off, 0);
    assert forall k :: 0 <= k < |ops| ==> Within(ops[k], data, off, 0);
    while start < |data|
      invariant 0 <= start <= |data| && done <= |ops|
      invariant f.failed == old(f.failed)
      invariant ops[done..] == SkipWrites(data, off, start)
      invariant f.log == old(f.log) + ops[..done]
    {
      var end := ChunkEnd(start, |data|);
      if ZeroChunk(data, start) {
        start := end;
        continue;
      }
      var runStart := start;
      while start < |data|
        invariant runStart <= start <= |data|
        invariant RunEnd(data, runStart) == RunEnd(data, start)
      {
        end := ChunkEnd(start, |data|);
        if ZeroChunk(data, start) {
          break;
        }
        start := end;
      }
      NextSkipWrite(data, off, runStart, done);
      ok := f.WriteAt(data[runStart..start], off + runStart);
      if !ok {
        return;
      }
      done := done + 1;
    }
    assert ops[..done] == ops;
    ok := true;
  }

  /** Batches one slice's stream into RESTORE_BUF_BYTES writes at its file offset. */
  class SectionWriter {
    const f: StagedFile
    var off: nat
    const buf: array<Byte>
    var n: nat

    ghost const origin: nat
    ghost const base: seq<WriteOp>
    ghost var fed: seq<Byte>

    /** How many fed bytes have been written; the rest is pending in the buffer. */
    ghost var cut: nat

    ghost predicate Batched()
      reads this, buf, f
    {
      && buf.Length == RESTORE_BUF_BYTES
      && n <= buf.Length && cut + n == |fed|
      && cut % RESTORE_BUF_BYTES == 0
      && off == origin + cut
      && buf[..n] == fed[cut..]
      && f.log == base + BlockWrites(fed[..cut], origin)
    }

    constructor (f: StagedFile, off: nat, section: array<Byte>)
      requires section.Length == RESTORE_BUF_BYTES
      ensures Batched() && this.f == f && this.buf == section
      ensures fed == [] && origin == off && base == f.log && n == 0
    {
      this.f, this.off, this.buf, this.n := f, off, section, 0;
      this.origin, this.base, this.fed, this.cut := off, f.log, [], 0;
    }

    /** Drains what Write batched. */
    method Flush() returns (ok: bool)
      requires Batched()
      modifies this`off, this`n, this`cut, f
      ensures f.failed == (old(f.failed) || !ok)
      ensures ok ==> n == 0 && off == origin + |fed| && f.log == base + BlockWrites(fed, origin)
      ensures ok && old(n) == buf.Length ==> Batched()
      ensures GrewWithin(old(f.log), f.log, old(off), origin + |fed|)
    {
      if n == 0 {
        assert fed[..cut] == fed;
        return true;
      }
      LogAfterFlush(base, f.log, fed, cut, origin);
      ok := WriteSkippingZeros(f, buf[..n], off);
      if !ok {
        return;
      }
      NextBuffer(cut);
      off, cut := off + n, |fed|;
      n := 0;
      assert fed[..cut] == fed && fed[cut..] == [];
    }

    /** `copy(s.buf[s.n:], p)` when all of p fits. */
    method Fill(p: seq<Byte>)
      requires Batched() && n + |p| <= buf.Length
      modifies this`n, this`fed, buf
      ensures Batched() && n == old(n) + |p| && fed == old(fed) + p
    {
      forall i | 0 <= i < |p| {
        buf[n + i] := p[i];
      }
      assert buf[..n + |p|] == fed[cut..] + p;
      assert (fed + p)[cut..] == fed[cut..] + p;
      assert (fed + p)[..cut] == fed[..cut];
      fed := fed + p;
      n := n + |p|;
    }

    method Write(p: seq<Byte>) returns (ok: bool)
      requires Batched() && n < buf.Length
      modifies this`off, this`n, this`fed, this`cut, buf, f
      ensures ok ==> Batched() && n < buf.Length && fed == old(fed) + p
      ensures f.failed == (old(f.failed) || !ok)
      ensures GrewWithin(old(f.log), f.log, origin, origin + |old(fed)| + |p|)
    {
      var rest := p;
      while |rest| > 0
        invariant Batched() && n < buf.Length
        invariant f.failed == old(f.failed)
        invariant fed + rest == old(fed) + p
        invariant |fed| + |rest| == |old(fed)| + |p|
        invariant GrewWithin(old(f.log), f.log, origin, origin + |old(fed)| + |p|)
      {
        ghost var was, at := f.log, off;
        var c := if |rest| < buf.Length - n then |rest| else buf.Length - n;
        assert rest == rest[..c] + rest[c..];
        ok := Batch(rest[..c]);
        GrewTwice(old(f.log), was, f.log, origin, at, origin + |old(fed)| + |p|);
        if !ok {
          return;
        }
        rest := rest[c..];
      }
      ok := true;
    }

    /** One round of the loop: fill, and flush a buffer that is full. */
    method Batch(p: seq<Byte>) returns (ok: bool)
      requires Batched() && n + |p| <= buf.Length
      modifies this`off, this`n, this`fed, this`cut, buf, f
      ensures ok ==> Batched() && n < buf.Length && fed == old(fed) + p
      ensures f.failed == (old(f.failed) || !ok)
      ensures GrewWithin(old(f.log), f.log, old(off), origin + |old(fed)| + |p|)
    {
      Fill(p);
      if n == buf.Length {
        ok := Flush();
        return;
      }
      ok := true;
    }
  }
}
