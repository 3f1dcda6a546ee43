/**
 The staged file of a peer restore: a byte sequence that positional writes
 change, and the effect of a whole list of writes applied to it.
 */
module SparseFile {

  newtype Byte = x: int | 0 <= x < 256

  /** One positional write, as `f.WriteAt(data, off)` issues it. */
  datatype WriteOp = WriteOp(off: nat, data: seq<Byte>) {
    function End(): nat {
      off + |data|
    }

    predicate Covers(i: int) {
      off <= i < End()
    }
  }

  function Zeros(n: nat): seq<Byte> {
    seq(n, i => 0)
  }

  /** A positional write past the end grows the file and fills the gap with zeros. */
  function Patch(file: seq<Byte>, op: WriteOp): seq<Byte> {
    if op.data == [] then file
    else
      seq(if |file| < op.End() then op.End() else |file|,
          i requires 0 <= i =>
            if op.Covers(i) then op.data[i - op.off] else if i < |file| then file[i] else 0)
  }

  /** A write inside the file keeps its length and puts the data where it says. */
  lemma PatchInside(file: seq<Byte>, op: WriteOp)
    requires op.End() <= |file|
    ensures |Patch(file, op)| == |file| && Patch(file, op)[op.off..op.End()] == op.data
  {
  }

  function Replay(file: seq<Byte>, ops: seq<WriteOp>): seq<Byte>
    decreases |ops|
  {
    if ops == [] then file else Patch(Replay(file, ops[..|ops| - 1]), ops[|ops| - 1])
  }

  /** Every byte the file had outside [lo, hi) is still there, and it grew no further than hi. */
  predicate UnchangedOutside(before: seq<Byte>, after: seq<Byte>, lo: nat, hi: nat) {
    && |before| <= |after| <= (if |before| < hi then hi else |before|)
    && forall i :: 0 <= i < |before| && !(lo <= i < hi) ==> after[i] == before[i]
  }

  lemma {:induction false} ReplayStaysInside(file: seq<Byte>, ops: seq<WriteOp>, lo: nat, hi: nat)
    requires forall k :: 0 <= k < |ops| ==> lo <= ops[k].off && ops[k].End() <= hi
    ensures UnchangedOutside(file, Replay(file, ops), lo, hi)
    decreases |ops|
  {
    if ops != [] {
      ReplayStaysInside(file, ops[..|ops| - 1], lo, hi);
      assert lo <= ops[|ops| - 1].off;
    }
  }

  ghost predicate Covered(ops: seq<WriteOp>, i: int) {
    exists k :: 0 <= k < |ops| && ops[k].Covers(i)
  }

  /** The write stays inside the source and carries the source's own bytes. */
  predicate Carries(op: WriteOp, src: seq<Byte>) {
    op.End() <= |src| && op.data == src[op.off..op.End()]
  }

  ghost predicate AllCarry(ops: seq<WriteOp>, src: seq<Byte>) {
    forall k :: 0 <= k < |ops| ==> Carries(ops[k], src)
  }

  /** Each byte is the source's where some write reached it, and the file's own elsewhere. */
  lemma {:induction false} ReplayOfCarriers(file: seq<Byte>, src: seq<Byte>, ops: seq<WriteOp>)
    requires |file| == |src| && AllCarry(ops, src)
    ensures |Replay(file, ops)| == |src|
    ensures forall i :: 0 <= i < |src| ==> Replay(file, ops)[i] == if Covered(ops, i) then src[i] else file[i]
    decreases |ops|
  {
    if ops != [] {
      var init, last := ops[..|ops| - 1], ops[|ops| - 1];
      ReplayOfCarriers(file, src, init);
      assert Carries(last, src);
      forall i | 0 <= i < |src|
        ensures Covered(ops, i) <==> Covered(init, i) || last.Covers(i)
      {
        if Covered(init, i) {
          var k :| 0 <= k < |init| && init[k].Covers(i);
          assert ops[k].Covers(i);
        }
        if Covered(ops, i) && !last.Covers(i) {
          var k :| 0 <= k < |ops| && ops[k].Covers(i);
          assert init[k].Covers(i);
        }
      }
    }
  }

  lemma {:induction false} ReplayConcat(file: seq<Byte>, a: seq<WriteOp>, b: seq<WriteOp>)
    ensures Replay(file, a + b) == Replay(Replay(file, a), b)
    decreases |b|
  {
    if b == [] {
      assert a + b == a;
    } else {
      assert (a + b)[..|a + b| - 1] == a + b[..|b| - 1];
      ReplayConcat(file, a, b[..|b| - 1]);
    }
  }
}
