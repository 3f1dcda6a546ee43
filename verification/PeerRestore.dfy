/**
 Restoring one file from a peer (`fetchFiles`, `fetchSlice` in
 `snapshots/peer.go`): concurrent slice streams, each cut into reads at will,
 write into one truncated file in any interleaving.
 */
module PeerRestore {
  import opened Wrappers
  import opened SparseFile
  import opened SectionWriting
  import ExtentPlan

  type Slice = ExtentPlan.Span

  // ---------------------------------------------------------------- one slice

  /** What the server streams for a slice it can read in full, with the checksum it trails. */
  function Served(src: seq<Byte>, sl: Slice): seq<Byte>
    requires 0 <= sl.offset && 0 < sl.length && sl.End() <= |src|
  {
    src[sl.offset..sl.End()]
  }

  lemma {:induction false} FlattenSnoc(chunks: seq<seq<Byte>>, c: seq<Byte>)
    ensures ExtentPlan.Flatten(chunks + [c]) == ExtentPlan.Flatten(chunks) + c
    decreases |chunks|
  {
    if chunks == [] {
      assert [c][1..] == [] && chunks + [c] == [c];
    } else {
      assert (chunks + [c])[1..] == chunks[1..] + [c];
      FlattenSnoc(chunks[1..], c);
      assert chunks[0] + (ExtentPlan.Flatten(chunks[1..]) + c) == chunks[0] + ExtentPlan.Flatten(chunks[1..]) + c;
    }
  }

  /**
   What comes back for a slice: no usable response, or a body in reads of any sizes,
   whether it broke off after them, and the checksum the server trailed.
   */
  datatype Reply = NoReply | Reply(body: seq<seq<Byte>>, broken: bool, trailer: Option<int>)

  /** The bytes received. */
  function Got(r: Reply): seq<Byte> {
    if r.NoReply? then [] else ExtentPlan.Flatten(r.body)
  }

  /** The stream arrived whole, as long as asked for, and its checksum is the trailer; `crc` stands for CRC32C. */
  predicate Accepted(sl: Slice, r: Reply, crc: seq<Byte> -> int) {
    r.Reply? && !r.broken && |Got(r)| == sl.length && r.trailer == Some(crc(Got(r)))
  }

  /**
   Streams the reply, read by read, into the file at the slice's offset. Whether or not
   it succeeds, no byte outside the range received is touched.
   */
  method FetchSlice(f: StagedFile, sl: Slice, section: array<Byte>, r: Reply, crc: seq<Byte> -> int) returns (ok: bool)
    requires 0 <= sl.offset && section.Length == RESTORE_BUF_BYTES && !f.failed
    modifies f, section
    ensures ok <==> !f.failed && Accepted(sl, r, crc)
    ensures ok ==> f.log == old(f.log) + BlockWrites(Got(r), sl.offset)
    ensures UnchangedOutside(old(f.Contents()), f.Contents(), sl.offset, sl.offset + |Got(r)|)
  {
    if r.NoReply? {
      return false;
    }
    ok := Receive(f, sl, section, r, crc);
    GrewWithinFrames(f.size, old(f.log), f.log, sl.offset, sl.offset + |Got(r)|);
  }

  method Receive(f: StagedFile, sl: Slice, section: array<Byte>, r: Reply, crc: seq<Byte> -> int) returns (ok: bool)
    requires 0 <= sl.offset && section.Length == RESTORE_BUF_BYTES && !f.failed && r.Reply?
    modifies f, section
    ensures ok <==> !f.failed && Accepted(sl, r, crc)
    ensures ok ==> f.log == old(f.log) + BlockWrites(Got(r), sl.offset)
    ensures GrewWithin(old(f.log), f.log, sl.offset, sl.offset + |Got(r)|)
  {
    var sw := new SectionWriter(f, sl.offset, section);
    var n, hashed := 0, [];
    ghost var end := sl.offset + |Got(r)|;
    for i := 0 to |r.body|
      invariant sw.f == f && sw.buf == section && sw.origin == sl.offset && sw.base == old(f.log)
      invariant sw.Batched() && sw.n < sw.buf.Length && fresh(sw) && !f.failed
      invariant sw.fed == ExtentPlan.Flatten(r.body[..i]) == hashed && n == |hashed|
      invariant GrewWithin(old(f.log), f.log, sl.offset, end)
    {
      FlattenPrefix(r.body, i);
      ghost var was := f.log;
      ok := sw.Write(r.body[i]);
      GrewTwice(old(f.log), was, f.log, sl.offset, sl.offset, end);
      if !ok {
        return;
      }
      hashed := hashed + r.body[i];
      n := n + |r.body[i]|;
    }
    assert r.body[..|r.body|] == r.body;
    if r.broken {
      return false;
    }
    ghost var was, at := f.log, sw.off;
    ok := sw.Flush();
    GrewTwice(old(f.log), was, f.log, sl.offset, at, end);
    if !ok {
      return;
    }
    if n != sl.length {
      return false;
    }
    if r.trailer.None? {
      return false;
    }
    if crc(hashed) != r.trailer.value {
      return false;
    }
    return true;
  }

  /** One more read extends what was received, and stays within what will be. */
  lemma FlattenPrefix(body: seq<seq<Byte>>, i: nat)
    requires i < |body|
    ensures ExtentPlan.Flatten(body[..i + 1]) == ExtentPlan.Flatten(body[..i]) + body[i]
    ensures |ExtentPlan.Flatten(body[..i])| + |body[i]| <= |ExtentPlan.Flatten(body)|
  {
    assert body[..i + 1] == body[..i] + [body[i]];
    FlattenSnoc(body[..i], body[i]);
    FlattenGrows(body, i + 1);
  }

  lemma {:induction false} FlattenGrows(body: seq<seq<Byte>>, i: nat)
    requires i <= |body|
    ensures |ExtentPlan.Flatten(body[..i])| <= |ExtentPlan.Flatten(body)|
    decreases |body| - i
  {
    if i == |body| {
      assert body[..i] == body;
    } else {
      assert body[..i + 1] == body[..i] + [body[i]];
      FlattenSnoc(body[..i], body[i]);
      FlattenGrows(body, i + 1);
    }
  }

  predicate Placed(slices: seq<Slice>) {
    forall k :: 0 <= k < |slices| ==> 0 <= slices[k].offset
  }

  /** What a stream writes, slice by slice, when it is delivered these replies. */
  function StreamWrites(slices: seq<Slice>, replies: seq<Reply>): seq<seq<WriteOp>>
    requires Placed(slices) && |slices| == |replies|
  {
    seq(|slices|, k requires 0 <= k < |slices| => BlockWrites(Got(replies[k]), slices[k].offset))
  }

  /** The first `k` pieces, one after the other. */
  function Joined(pieces: seq<seq<WriteOp>>, k: nat): seq<WriteOp>
    requires k <= |pieces|
  {
    if k == 0 then [] else Joined(pieces, k - 1) + pieces[k - 1]
  }

  ghost predicate AllAccepted(slices: seq<Slice>, replies: seq<Reply>, crc: seq<Byte> -> int, k: nat)
    requires k <= |slices| == |replies|
  {
    forall j :: 0 <= j < k ==> Accepted(slices[j], replies[j], crc)
  }

  /**
   One stream task: its slices one after the other, up to the first that fails. When it
   succeeds it has delivered the source's bytes, if the peer is trusted about them.
   */
  method FetchTask(f: StagedFile, slices: seq<Slice>, section: array<Byte>, replies: seq<Reply>, crc: seq<Byte> -> int,
                   ghost src: seq<Byte>) returns (ok: bool)
    requires Placed(slices) && |slices| == |replies| && section.Length == RESTORE_BUF_BYTES && !f.failed
    modifies f, section
    ensures ok <==> !f.failed && AllAccepted(slices, replies, crc, |slices|)
    ensures ok ==> f.log == old(f.log) + Joined(StreamWrites(slices, replies), |slices|)
    ensures ok && old(f.log) == [] && AllTrusted(src, slices, replies, crc) ==> TaskSucceeded(src, slices, replies, crc, f.log)
  {
    ghost var pieces := StreamWrites(slices, replies);
    for k := 0 to |slices|
      invariant !f.failed && AllAccepted(slices, replies, crc, k)
      invariant f.log == old(f.log) + Joined(pieces, k)
    {
      ok := FetchNext(f, slices[k], section, replies[k], crc, old(f.log), pieces, k);
      if !ok {
        return;
      }
    }
    return true;
  }

  /** One round of the loop. */
  method FetchNext(f: StagedFile, sl: Slice, section: array<Byte>, r: Reply, crc: seq<Byte> -> int,
                   ghost base: seq<WriteOp>, ghost pieces: seq<seq<WriteOp>>, k: nat) returns (ok: bool)
    requires 0 <= sl.offset && section.Length == RESTORE_BUF_BYTES && !f.failed
    requires k < |pieces| && pieces[k] == BlockWrites(Got(r), sl.offset) && f.log == base + Joined(pieces, k)
    modifies f, section
    ensures ok <==> !f.failed && Accepted(sl, r, crc)
    ensures ok ==> f.log == base + Joined(pieces, k + 1)
  {
    JoinedNext(base, pieces, k);
    ok := FetchSlice(f, sl, section, r, crc);
  }

  lemma JoinedNext(base: seq<WriteOp>, pieces: seq<seq<WriteOp>>, k: nat)
    requires k < |pieces|
    ensures base + Joined(pieces, k) + pieces[k] == base + Joined(pieces, k + 1)
  {
  }

  /**
   What is assumed of the peer and of CRC32C about one delivered stream: the trailer is
   the checksum of the bytes the server read, and if the delivered bytes share that
   checksum they are those bytes.
   */
  predicate Trusted(src: seq<Byte>, sl: Slice, r: Reply, crc: seq<Byte> -> int)
    requires 0 <= sl.offset && 0 < sl.length && sl.End() <= |src|
  {
    && (r.Reply? && r.trailer.Some? ==> r.trailer.value == crc(Served(src, sl)))
    && (crc(Got(r)) == crc(Served(src, sl)) ==> Got(r) == Served(src, sl))
  }

  predicate InBounds(src: seq<Byte>, slices: seq<Slice>) {
    forall k :: 0 <= k < |slices| ==> 0 <= slices[k].offset && 0 < slices[k].length && slices[k].End() <= |src|
  }

  /** The slices lie in the source, and the peer is trusted about every one of them. */
  ghost predicate AllTrusted(src: seq<Byte>, slices: seq<Slice>, replies: seq<Reply>, crc: seq<Byte> -> int)
    requires |replies| == |slices|
  {
    InBounds(src, slices) && forall k :: 0 <= k < |slices| ==> Trusted(src, slices[k], replies[k], crc)
  }

  // ---------------------------------------------------------------- all streams

  /** The writes of a task, slice by slice, when every slice is served in full. */
  function TaskWrites(src: seq<Byte>, slices: seq<Slice>): seq<seq<WriteOp>>
    requires InBounds(src, slices)
  {
    seq(|slices|, k requires 0 <= k < |slices| => BlockWrites(Served(src, slices[k]), slices[k].offset))
  }

  /** Every slice of the task was accepted, from a peer that is trusted about it. */
  ghost predicate Delivered(src: seq<Byte>, slices: seq<Slice>, replies: seq<Reply>, crc: seq<Byte> -> int)
    requires InBounds(src, slices) && |replies| == |slices|
  {
    AllAccepted(slices, replies, crc, |slices|) && AllTrusted(src, slices, replies, crc)
  }

  /** A task that succeeds has written the source's own bytes. */
  lemma DeliveredIsServed(src: seq<Byte>, slices: seq<Slice>, replies: seq<Reply>, crc: seq<Byte> -> int)
    requires InBounds(src, slices) && |replies| == |slices| && Delivered(src, slices, replies, crc)
    ensures Placed(slices) && StreamWrites(slices, replies) == TaskWrites(src, slices)
  {
    forall k | 0 <= k < |slices|
      ensures Got(replies[k]) == Served(src, slices[k])
    {
      assert Accepted(slices[k], replies[k], crc) && Trusted(src, slices[k], replies[k], crc);
    }
  }

  /** merged takes the logs' writes one at a time, keeping each log's own order. */
  ghost predicate Interleaves(logs: seq<seq<WriteOp>>, merged: seq<WriteOp>)
    decreases |merged|
  {
    if merged == [] then forall t :: 0 <= t < |logs| ==> logs[t] == []
    else
      exists t :: 0 <= t < |logs| && logs[t] != [] && logs[t][0] == merged[0]
                  && Interleaves(logs[t := logs[t][1..]], merged[1..])
  }

  lemma {:induction false} InterleavedWrites(logs: seq<seq<WriteOp>>, merged: seq<WriteOp>, src: seq<Byte>)
    requires Interleaves(logs, merged)
    requires forall t :: 0 <= t < |logs| ==> AllCarry(logs[t], src)
    ensures AllCarry(merged, src)
    ensures forall t, i :: 0 <= t < |logs| && Covered(logs[t], i) ==> Covered(merged, i)
    decreases |merged|
  {
    if merged != [] {
      var t :| 0 <= t < |logs| && logs[t] != [] && logs[t][0] == merged[0]
               && Interleaves(logs[t := logs[t][1..]], merged[1..]);
      var rest := logs[t := logs[t][1..]];
      forall u | 0 <= u < |rest|
        ensures AllCarry(rest[u], src)
      {
        assert AllCarry(logs[u], src);
      }
      InterleavedWrites(rest, merged[1..], src);
      assert Carries(logs[t][0], src);
      assert merged == [merged[0]] + merged[1..] && logs[t] == [logs[t][0]] + logs[t][1..];
      forall u, i | 0 <= u < |logs| && Covered(logs[u], i)
        ensures Covered(merged, i)
      {
        CoveredHead(merged[0], merged[1..], i);
        if u == t {
          CoveredHead(logs[t][0], logs[t][1..], i);
        }
        assert Covered(rest[u], i) ==> Covered(merged[1..], i);
      }
    }
  }

  lemma {:induction false} JoinedCarries(pieces: seq<seq<WriteOp>>, k: nat, src: seq<Byte>)
    requires k <= |pieces| && forall j :: 0 <= j < k ==> AllCarry(pieces[j], src)
    ensures AllCarry(Joined(pieces, k), src)
  {
    if k > 0 {
      JoinedCarries(pieces, k - 1, src);
    }
  }

  lemma {:induction false} JoinedCovers(pieces: seq<seq<WriteOp>>, k: nat, j: nat, i: int)
    requires j < k <= |pieces| && Covered(pieces[j], i)
    ensures Covered(Joined(pieces, k), i)
    decreases k
  {
    CoveredConcat(Joined(pieces, k - 1), pieces[k - 1], i);
    if j < k - 1 {
      JoinedCovers(pieces, k - 1, j, i);
    }
  }

  lemma TaskWritesCarry(src: seq<Byte>, slices: seq<Slice>)
    requires InBounds(src, slices)
    ensures AllCarry(Joined(TaskWrites(src, slices), |slices|), src)
  {
    forall k | 0 <= k < |slices|
      ensures AllCarry(TaskWrites(src, slices)[k], src)
    {
      var sl := slices[k];
      BlockWritesCarry(Served(src, sl), sl.offset);
      WithinCarries(BlockWrites(Served(src, sl), sl.offset), Served(src, sl), sl.offset, src);
    }
    JoinedCarries(TaskWrites(src, slices), |slices|, src);
  }

  /** One stream's writes reach every non-zero byte of its slices. */
  lemma {:induction false} TaskWritesCover(src: seq<Byte>, slices: seq<Slice>, i: nat)
    requires InBounds(src, slices) && i < |src| && src[i] != 0 && ExtentPlan.Covers(slices, i)
    ensures Covered(Joined(TaskWrites(src, slices), |slices|), i)
  {
    var k :| 0 <= k < |slices| && slices[k].Covers(i);
    var sl := slices[k];
    assert Served(src, sl)[i - sl.offset] == src[i];
    BlockWritesCoverExactly(Served(src, sl), sl.offset, i - sl.offset);
    JoinedCovers(TaskWrites(src, slices), |slices|, k, i);
  }

  lemma {:induction false} FlattenCovers(tasks: seq<seq<Slice>>, x: int)
    requires ExtentPlan.Covers(ExtentPlan.Flatten(tasks), x)
    ensures exists t :: 0 <= t < |tasks| && ExtentPlan.Covers(tasks[t], x)
    decreases |tasks|
  {
    var rest := ExtentPlan.Flatten(tasks[1..]);
    ExtentPlan.CoversConcat(tasks[0], rest, x);
    if ExtentPlan.Covers(rest, x) {
      FlattenCovers(tasks[1..], x);
      var t :| 0 <= t < |tasks[1..]| && ExtentPlan.Covers(tasks[1..][t], x);
      assert ExtentPlan.Covers(tasks[t + 1], x);
    } else {
      assert ExtentPlan.Covers(tasks[0], x);
    }
  }

  lemma {:induction false} FlattenInBounds(src: seq<Byte>, tasks: seq<seq<Slice>>, t: nat)
    requires InBounds(src, ExtentPlan.Flatten(tasks)) && t < |tasks|
    ensures InBounds(src, tasks[t])
    decreases |tasks|
  {
    var rest := ExtentPlan.Flatten(tasks[1..]);
    var all := ExtentPlan.Flatten(tasks);
    if t == 0 {
      forall k | 0 <= k < |tasks[0]|
        ensures 0 <= tasks[0][k].offset && 0 < tasks[0][k].length && tasks[0][k].End() <= |src|
      {
        assert all[k] == tasks[0][k];
      }
    } else {
      forall k | 0 <= k < |rest|
        ensures 0 <= rest[k].offset && 0 < rest[k].length && rest[k].End() <= |src|
      {
        assert all[|tasks[0]| + k] == rest[k];
      }
      FlattenInBounds(src, tasks[1..], t - 1);
    }
  }

  /** The tasks the client deals a served plan to. */
  function TasksOf(extents: seq<Slice>): seq<seq<Slice>> {
    var plan := ExtentPlan.PlanOf(extents);
    ExtentPlan.Chunk(plan, ExtentPlan.PerStream(|plan|))
  }

  lemma TasksInBounds(src: seq<Byte>, extents: seq<Slice>)
    requires ExtentPlan.Ordered(extents) && ExtentPlan.FitsIn(extents, |src|) && |src| <= ExtentPlan.MAX_INT64
    ensures |TasksOf(extents)| <= ExtentPlan.STREAMS_PER_FILE
    ensures ExtentPlan.Flatten(TasksOf(extents)) == ExtentPlan.PlanOf(extents)
    ensures forall t :: 0 <= t < |TasksOf(extents)| ==> InBounds(src, TasksOf(extents)[t])
  {
    var plan, tasks := ExtentPlan.PlanOf(extents), TasksOf(extents);
    ExtentPlan.PlanIsValid(extents, |src|);
    ExtentPlan.ChunkPartitions(plan, ExtentPlan.PerStream(|plan|), ExtentPlan.STREAMS_PER_FILE);
    forall t | 0 <= t < |tasks|
      ensures InBounds(src, tasks[t])
    {
      FlattenInBounds(src, tasks, t);
    }
  }

  /**
   Whatever runs the scan reported, as long as they cover the non-zero bytes, however
   the replies were cut into reads and however the streams' writes interleave: if every
   task succeeded, the staged file is the source, byte for byte.
   */
  lemma PeerRestoreRebuildsSource(src: seq<Byte>, extents: seq<Slice>, replies: seq<seq<Reply>>, crc: seq<Byte> -> int,
                                  logs: seq<seq<WriteOp>>, merged: seq<WriteOp>)
    requires |src| <= ExtentPlan.MAX_INT64
    requires ExtentPlan.Ordered(extents) && ExtentPlan.FitsIn(extents, |src|)
    requires forall i :: 0 <= i < |src| && src[i] != 0 ==> ExtentPlan.Covers(extents, i)
    requires |logs| == |replies| == |TasksOf(extents)|
    requires forall t :: 0 <= t < |logs| ==> TaskSucceeded(src, TasksOf(extents)[t], replies[t], crc, logs[t])
    requires Interleaves(logs, merged)
    ensures |logs| <= ExtentPlan.STREAMS_PER_FILE
    ensures Replay(Zeros(|src|), merged) == src
  {
    TasksInBounds(src, extents);
    LogsAreServed(src, TasksOf(extents), replies, crc, logs);
    InterleavedWrites(logs, merged, src);
    NonZeroBytesAreWritten(src, extents, logs, merged);
    ReplayOfCarriers(Zeros(|src|), src, merged);
  }

  lemma LogsAreServed(src: seq<Byte>, tasks: seq<seq<Slice>>, replies: seq<seq<Reply>>, crc: seq<Byte> -> int,
                      logs: seq<seq<WriteOp>>)
    requires |logs| == |replies| == |tasks|
    requires forall t :: 0 <= t < |logs| ==> TaskSucceeded(src, tasks[t], replies[t], crc, logs[t])
    ensures forall t :: 0 <= t < |logs| ==>
      InBounds(src, tasks[t]) && logs[t] == Joined(TaskWrites(src, tasks[t]), |tasks[t]|) && AllCarry(logs[t], src)
  {
    forall t | 0 <= t < |logs|
      ensures InBounds(src, tasks[t]) && logs[t] == Joined(TaskWrites(src, tasks[t]), |tasks[t]|) && AllCarry(logs[t], src)
    {
      DeliveredIsServed(src, tasks[t], replies[t], crc);
      TaskWritesCarry(src, tasks[t]);
    }
  }

  /** What `FetchTask` leaves when it succeeds. */
  ghost predicate TaskSucceeded(src: seq<Byte>, slices: seq<Slice>, replies: seq<Reply>, crc: seq<Byte> -> int, log: seq<WriteOp>) {
    && InBounds(src, slices) && |replies| == |slices| && Delivered(src, slices, replies, crc)
    && Placed(slices) && log == Joined(StreamWrites(slices, replies), |slices|)
  }

  lemma NonZeroBytesAreWritten(src: seq<Byte>, extents: seq<Slice>, logs: seq<seq<WriteOp>>, merged: seq<WriteOp>)
    requires |src| <= ExtentPlan.MAX_INT64
    requires ExtentPlan.Ordered(extents) && ExtentPlan.FitsIn(extents, |src|)
    requires forall i :: 0 <= i < |src| && src[i] != 0 ==> ExtentPlan.Covers(extents, i)
    requires |logs| == |TasksOf(extents)|
    requires forall t :: 0 <= t < |logs| ==>
      InBounds(src, TasksOf(extents)[t]) && logs[t] == Joined(TaskWrites(src, TasksOf(extents)[t]), |TasksOf(extents)[t]|)
    requires forall t, i :: 0 <= t < |logs| && Covered(logs[t], i) ==> Covered(merged, i)
    ensures forall i :: 0 <= i < |src| && src[i] != 0 ==> Covered(merged, i)
  {
    var tasks := TasksOf(extents);
    TasksInBounds(src, extents);
    forall i | 0 <= i < |src| && src[i] != 0
      ensures Covered(merged, i)
    {
      PlanCoversByte(src, extents, i);
      FlattenCovers(tasks, i);
      var t :| 0 <= t < |tasks| && ExtentPlan.Covers(tasks[t], i);
      TaskWritesCover(src, tasks[t], i);
      assert Covered(logs[t], i);
    }
  }

  lemma PlanCoversByte(src: seq<Byte>, extents: seq<Slice>, i: int)
    requires |src| <= ExtentPlan.MAX_INT64
    requires ExtentPlan.Ordered(extents) && ExtentPlan.FitsIn(extents, |src|) && ExtentPlan.Covers(extents, i)
    ensures ExtentPlan.Covers(ExtentPlan.PlanOf(extents), i)
  {
    ExtentPlan.PlanIsValid(extents, |src|);
  }
}
