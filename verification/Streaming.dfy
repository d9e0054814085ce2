/**
 The block loop of the CRYP drivers as a function on one flat memory: block after block is
 read at the input address from the memory as it then is, and its result written at the
 output address. Input and output may overlap in any way.
 */
module Streaming {
  import opened Bytes
  import opened Modes

  /** The i-th block of the buffer at address a. */
  function Slice(mem: seq<byte>, a: nat, c: CipherId, i: nat): (x: Block)
    requires a + Span(c, i + 1) <= |mem|
    ensures |x| == BlockSize(c)
  {
    mem[a + Span(c, i)..a + Span(c, i + 1)]
  }

  /** The n blocks of the buffer at address a. */
  function Blocks(mem: seq<byte>, a: nat, c: CipherId, n: nat): (xs: seq<Block>)
    requires a + Span(c, n) <= |mem|
    ensures |xs| == n && AllBlocks(xs, BlockSize(c))
    ensures forall i :: 0 <= i < n ==> xs[i] == Slice(mem, a, c, i)
  {
    if n == 0 then [] else Blocks(mem, a, c, n - 1) + [Slice(mem, a, c, n - 1)]
  }

  function Store(mem: seq<byte>, a: nat, y: Block): (r: seq<byte>)
    requires a + |y| <= |mem|
    ensures |r| == |mem|
    ensures forall b :: 0 <= b < |mem| ==> r[b] == if a <= b < a + |y| then y[b - a] else mem[b]
  {
    seq(|mem|, b requires 0 <= b < |mem| => if a <= b < a + |y| then y[b - a] else mem[b])
  }

  /** Memory and chaining register after n iterations of the block loop. */
  function Stream(s: Core, j: Job, iv: Block, mem: seq<byte>, input: nat, output: nat, n: nat): (r: (seq<byte>, Block))
    requires |iv| == BlockSize(j.id)
    requires input + Span(j.id, n) <= |mem| && output + Span(j.id, n) <= |mem|
    ensures |r.0| == |mem| && |r.1| == BlockSize(j.id)
  {
    if n == 0 then (mem, iv) else
      var (m, v) := Stream(s, j, iv, mem, input, output, n - 1);
      var (y, v') := Step(s, j, v, Slice(m, input, j.id, n - 1));
      (Store(m, output + Span(j.id, n - 1), y), v')
  }

  /** The buffer at address a holds the blocks ys. */
  predicate Holds(m: seq<byte>, a: nat, c: CipherId, ys: seq<Block>)
    requires a + Span(c, |ys|) <= |m|
  {
    forall i :: 0 <= i < |ys| ==> Slice(m, a, c, i) == ys[i]
  }

  /** after is before with the blocks ys written at address a and every other byte unchanged. */
  ghost predicate Written(before: seq<byte>, after: seq<byte>, a: nat, c: CipherId, ys: seq<Block>)
    requires a + Span(c, |ys|) <= |before|
  {
    && |after| == |before| && Holds(after, a, c, ys)
    && (forall b :: 0 <= b < |before| && !(a <= b < a + Span(c, |ys|)) ==> after[b] == before[b])
  }

  /** Some output block is written over an input block that has not been read yet. */
  predicate Clash(c: CipherId, input: nat, output: nat, n: nat) {
    2 <= n && input < output < input + Span(c, n)
  }

  /** Without a clash the loop computes the mode's function of the message that was there before the call. */
  lemma {:induction false} StreamComputesRun(s: Core, j: Job, iv: Block, mem: seq<byte>, input: nat, output: nat, n: nat)
    requires |iv| == BlockSize(j.id)
    requires input + Span(j.id, n) <= |mem| && output + Span(j.id, n) <= |mem|
    requires !Clash(j.id, input, output, n)
    ensures Written(mem, Stream(s, j, iv, mem, input, output, n).0, output, j.id,
                    Run(s, j, iv, Blocks(mem, input, j.id, n)).0)
    ensures Stream(s, j, iv, mem, input, output, n).1 == Run(s, j, iv, Blocks(mem, input, j.id, n)).1
  {
    hide Run, Step, Stream, Written;
    if n == 0 {
      NoTurn(s, j, iv, mem, input, output);
    } else {
      var k := n - 1;
      StreamComputesRun(s, j, iv, mem, input, output, k);
      var xs := Blocks(mem, input, j.id, k);
      var (m, v) := Stream(s, j, iv, mem, input, output, k);
      UnreadIntact(mem, m, input, output, j.id, Run(s, j, iv, xs).0);
      StreamSnoc(s, j, iv, mem, input, output, n);
      LoopTurn(s, j, iv, mem, m, v, Stream(s, j, iv, mem, input, output, n), xs, Slice(mem, input, j.id, k), output);
    }
  }

  lemma NoTurn(s: Core, j: Job, iv: Block, mem: seq<byte>, input: nat, output: nat)
    requires |iv| == BlockSize(j.id) && input <= |mem| && output <= |mem|
    ensures Written(mem, Stream(s, j, iv, mem, input, output, 0).0, output, j.id, Run(s, j, iv, Blocks(mem, input, j.id, 0)).0)
    ensures Stream(s, j, iv, mem, input, output, 0).1 == Run(s, j, iv, Blocks(mem, input, j.id, 0)).1
  {
  }

  /** One turn of the loop, from memory m and chaining value v to r, extends the message by x. */
  lemma LoopTurn(s: Core, j: Job, iv: Block, mem: seq<byte>, m: seq<byte>, v: Block, r: (seq<byte>, Block),
                 xs: seq<Block>, x: Block, output: nat)
    requires |iv| == |x| == |v| == BlockSize(j.id) && AllBlocks(xs, BlockSize(j.id))
    requires output + Span(j.id, |xs| + 1) <= |mem| == |m|
    requires Written(mem, m, output, j.id, Run(s, j, iv, xs).0) && v == Run(s, j, iv, xs).1
    requires r == (Store(m, output + Span(j.id, |xs|), Step(s, j, v, x).0), Step(s, j, v, x).1)
    ensures Written(mem, r.0, output, j.id, Run(s, j, iv, xs + [x]).0) && r.1 == Run(s, j, iv, xs + [x]).1
  {
    hide Run, Step, Written;
    RunSnoc(s, j, iv, xs, x);
    WriteNext(mem, m, r.0, output, j.id, Run(s, j, iv, xs).0, Step(s, j, v, x).0);
  }

  lemma RunSnoc(s: Core, j: Job, iv: Block, xs: seq<Block>, x: Block)
    requires |iv| == |x| == BlockSize(j.id) && AllBlocks(xs, BlockSize(j.id))
    ensures var (ys, v) := Run(s, j, iv, xs);
            Run(s, j, iv, xs + [x]) == (ys + [Step(s, j, v, x).0], Step(s, j, v, x).1)
  {
    assert (xs + [x])[..|xs|] == xs;
  }

  /** The next input block is still intact if no clash occurs. */
  lemma UnreadIntact(mem: seq<byte>, m: seq<byte>, input: nat, output: nat, c: CipherId, ys: seq<Block>)
    requires input + Span(c, |ys| + 1) <= |mem| && output + Span(c, |ys| + 1) <= |mem|
    requires Written(mem, m, output, c, ys) && !Clash(c, input, output, |ys| + 1)
    ensures Slice(m, input, c, |ys|) == Slice(mem, input, c, |ys|)
  {
  }

  lemma SliceKept(m: seq<byte>, a: nat, c: CipherId, k: nat, y: Block, i: nat)
    requires i < k && a + Span(c, k) + |y| <= |m|
    ensures Slice(Store(m, a + Span(c, k), y), a, c, i) == Slice(m, a, c, i)
  {
  }

  lemma SliceStored(m: seq<byte>, a: nat, c: CipherId, k: nat, y: Block)
    requires |y| == BlockSize(c) && a + Span(c, k + 1) <= |m|
    ensures Slice(Store(m, a + Span(c, k), y), a, c, k) == y
  {
  }

  lemma HoldsNext(m: seq<byte>, a: nat, c: CipherId, ys: seq<Block>, y: Block)
    requires a + Span(c, |ys| + 1) <= |m| && |y| == BlockSize(c) && Holds(m, a, c, ys)
    ensures Holds(Store(m, a + Span(c, |ys|), y), a, c, ys + [y])
  {
    hide Slice, Store;
    SliceStored(m, a, c, |ys|, y);
    forall i | 0 <= i < |ys| ensures Slice(Store(m, a + Span(c, |ys|), y), a, c, i) == (ys + [y])[i] {
      SliceKept(m, a, c, |ys|, y, i);
    }
  }

  /** Writing the next block extends what has been written. */
  lemma WriteNext(mem: seq<byte>, m: seq<byte>, r: seq<byte>, a: nat, c: CipherId, ys: seq<Block>, y: Block)
    requires a + Span(c, |ys| + 1) <= |mem| && |y| == BlockSize(c)
    requires Written(mem, m, a, c, ys) && r == Store(m, a + Span(c, |ys|), y)
    ensures Written(mem, r, a, c, ys + [y])
  {
    hide Holds;
    HoldsNext(m, a, c, ys, y);
  }

  // ---- Exactly which layouts are safe ----

  /** The input byte that the first output block overwrites before it is read. */
  function Victim(c: CipherId, input: nat, output: nat): nat {
    if output < input + BlockSize(c) then input + BlockSize(c) else output
  }

  /** The loop computes the mode of the original message, for this memory. */
  ghost predicate Faithful(s: Core, j: Job, iv: Block, mem: seq<byte>, input: nat, output: nat, n: nat)
    requires |iv| == BlockSize(j.id)
    requires input + Span(j.id, n) <= |mem| && output + Span(j.id, n) <= |mem|
  {
    Written(mem, Stream(s, j, iv, mem, input, output, n).0, output, j.id, Run(s, j, iv, Blocks(mem, input, j.id, n)).0)
  }

  lemma StoredLast(m: seq<byte>, a: nat, c: CipherId, ys: seq<Block>, y: Block, z: Block)
    requires a + Span(c, |ys| + 1) <= |m| && |y| == BlockSize(c)
    requires Holds(Store(m, a + Span(c, |ys|), y), a, c, ys + [z])
    ensures Holds(m, a, c, ys) && y == z
  {
    hide Slice, Store;
    SliceStored(m, a, c, |ys|, y);
    assert (ys + [z])[|ys|] == z;
    forall i | 0 <= i < |ys| ensures Slice(m, a, c, i) == ys[i] {
      assert (ys + [z])[i] == ys[i];
      SliceKept(m, a, c, |ys|, y, i);
    }
  }

  /** One turn less. */
  lemma HeldBefore(s: Core, j: Job, iv: Block, mem: seq<byte>, input: nat, output: nat, n: nat)
    requires |iv| == BlockSize(j.id) && 0 < n
    requires input + Span(j.id, n) <= |mem| && output + Span(j.id, n) <= |mem|
    requires Holds(Stream(s, j, iv, mem, input, output, n).0, output, j.id, Run(s, j, iv, Blocks(mem, input, j.id, n)).0)
    ensures Holds(Stream(s, j, iv, mem, input, output, n - 1).0, output, j.id, Run(s, j, iv, Blocks(mem, input, j.id, n - 1)).0)
    ensures var (m, v) := Stream(s, j, iv, mem, input, output, n - 1);
            Step(s, j, v, Slice(m, input, j.id, n - 1)).0 ==
            Step(s, j, Run(s, j, iv, Blocks(mem, input, j.id, n - 1)).1, Slice(mem, input, j.id, n - 1)).0
  {
    hide Run, Stream, Step, Holds, Slice;
    var xs, x := Blocks(mem, input, j.id, n - 1), Slice(mem, input, j.id, n - 1);
    var (m, v) := Stream(s, j, iv, mem, input, output, n - 1);
    StreamSnoc(s, j, iv, mem, input, output, n);
    RunSnoc(s, j, iv, xs, x);
    StoredLast(m, output, j.id, Run(s, j, iv, xs).0, Step(s, j, v, Slice(m, input, j.id, n - 1)).0,
               Step(s, j, Run(s, j, iv, xs).1, x).0);
  }

  lemma {:induction false} HeldEarlier(s: Core, j: Job, iv: Block, mem: seq<byte>, input: nat, output: nat, n: nat, k: nat)
    requires |iv| == BlockSize(j.id) && k <= n
    requires input + Span(j.id, n) <= |mem| && output + Span(j.id, n) <= |mem|
    requires Holds(Stream(s, j, iv, mem, input, output, n).0, output, j.id, Run(s, j, iv, Blocks(mem, input, j.id, n)).0)
    ensures Holds(Stream(s, j, iv, mem, input, output, k).0, output, j.id, Run(s, j, iv, Blocks(mem, input, j.id, k)).0)
  {
    hide Run, Stream, Step, Holds, Blocks;
    if k < n {
      HeldBefore(s, j, iv, mem, input, output, n);
      HeldEarlier(s, j, iv, mem, input, output, n - 1, k);
    }
  }

  /** If the output is right, every block was still what it was before the call when it was read. */
  lemma {:induction false} RightReads(s: Core, j: Job, iv: Block, mem: seq<byte>, input: nat, output: nat, n: nat)
    requires Reversible(s, j) && |iv| == BlockSize(j.id)
    requires input + Span(j.id, n) <= |mem| && output + Span(j.id, n) <= |mem|
    requires Holds(Stream(s, j, iv, mem, input, output, n).0, output, j.id, Run(s, j, iv, Blocks(mem, input, j.id, n)).0)
    ensures Stream(s, j, iv, mem, input, output, n).1 == Run(s, j, iv, Blocks(mem, input, j.id, n)).1
    ensures 0 < n ==> Slice(Stream(s, j, iv, mem, input, output, n - 1).0, input, j.id, n - 1) == Slice(mem, input, j.id, n - 1)
  {
    hide Run, Stream, Step, Holds, Reversible, Slice;
    if n == 0 {
      NoTurn(s, j, iv, mem, input, output);
    } else {
      var xs, x := Blocks(mem, input, j.id, n - 1), Slice(mem, input, j.id, n - 1);
      var (m, v) := Stream(s, j, iv, mem, input, output, n - 1);
      HeldBefore(s, j, iv, mem, input, output, n);
      RightReads(s, j, iv, mem, input, output, n - 1);
      StepInjective(s, j, v, Slice(m, input, j.id, n - 1), x);
      StreamSnoc(s, j, iv, mem, input, output, n);
      RunSnoc(s, j, iv, xs, x);
    }
  }

  /** No later turn overwrites the first output block. */
  lemma {:induction false} FirstStays(s: Core, j: Job, iv: Block, mem: seq<byte>, input: nat, output: nat, n: nat, p: nat)
    requires |iv| == BlockSize(j.id) && 1 <= n && output <= p < output + BlockSize(j.id)
    requires input + Span(j.id, n) <= |mem| && output + Span(j.id, n) <= |mem|
    ensures Stream(s, j, iv, mem, input, output, n).0[p] == Step(s, j, iv, Slice(mem, input, j.id, 0)).0[p - output]
  {
    hide Stream, Step, Slice;
    StreamSnoc(s, j, iv, mem, input, output, n);
    if n == 1 {
      StreamZero(s, j, iv, mem, input, output);
    } else {
      FirstStays(s, j, iv, mem, input, output, n - 1, p);
    }
  }

  /** The block and the offset in it of the t-th byte of a message. */
  lemma Locate(c: CipherId, t: nat, n: nat) returns (i: nat, k: nat)
    requires t < Span(c, n)
    ensures i < n && k < BlockSize(c) && t == Span(c, i) + k
    ensures BlockSize(c) <= t ==> 1 <= i
  {
    if IsAes(c) {
      i, k := t / 16, t % 16;
    } else {
      i, k := t / 8, t % 8;
    }
  }

  lemma SliceAt(m: seq<byte>, a: nat, c: CipherId, i: nat, k: nat)
    requires a + Span(c, i + 1) <= |m| && k < BlockSize(c)
    ensures Slice(m, a, c, i)[k] == m[a + Span(c, i) + k]
  {
  }

  /** A different byte. */
  function Other(b: byte): byte { b ^ 1 }

  lemma Differs(b: byte)
    ensures Other(b) != b
  {
  }

  /** Every clash breaks some message, whatever the cipher, mode and direction, if the core can be undone. */
  lemma ClashBreaks(s: Core, j: Job, iv: Block, len: nat, input: nat, output: nat, n: nat) returns (mem: seq<byte>)
    requires Reversible(s, j) && |iv| == BlockSize(j.id)
    requires input + Span(j.id, n) <= len && output + Span(j.id, n) <= len
    requires Clash(j.id, input, output, n)
    ensures |mem| == len && !Faithful(s, j, iv, mem, input, output, n)
  {
    hide Run, Stream, Step, Other, Reversible;
    var p := Victim(j.id, input, output);
    var z := seq(len, b => 0);
    var y := Step(s, j, iv, Slice(z, input, j.id, 0)).0;
    mem := z[p := Other(y[p - output])];
    assert Slice(mem, input, j.id, 0) == Slice(z, input, j.id, 0);
    VictimWrong(s, j, iv, mem, input, output, n, y);
  }

  lemma VictimWrong(s: Core, j: Job, iv: Block, mem: seq<byte>, input: nat, output: nat, n: nat, y: Block)
    requires Reversible(s, j) && |iv| == |y| == BlockSize(j.id)
    requires input + Span(j.id, n) <= |mem| && output + Span(j.id, n) <= |mem|
    requires Clash(j.id, input, output, n) && y == Step(s, j, iv, Slice(mem, input, j.id, 0)).0
    requires mem[Victim(j.id, input, output)] == Other(y[Victim(j.id, input, output) - output])
    ensures !Faithful(s, j, iv, mem, input, output, n)
  {
    hide Run, Stream, Step, Other, Reversible, Blocks, Slice;
    if Faithful(s, j, iv, mem, input, output, n) {
      var p := Victim(j.id, input, output);
      var i, k := Locate(j.id, p - input, n);
      HeldEarlier(s, j, iv, mem, input, output, n, i + 1);
      RightReads(s, j, iv, mem, input, output, i + 1);
      var m := Stream(s, j, iv, mem, input, output, i).0;
      FirstStays(s, j, iv, mem, input, output, i, p);
      SliceAt(m, input, j.id, i, k);
      SliceAt(mem, input, j.id, i, k);
      Differs(y[p - output]);
      assert false;
    }
  }

  /** The loop is faithful on every memory iff there is no clash: in-place use is safe, and the condition cannot be weakened. */
  lemma OverlapExact(s: Core, j: Job, iv: Block, len: nat, input: nat, output: nat, n: nat)
    requires Reversible(s, j) && |iv| == BlockSize(j.id)
    requires input + Span(j.id, n) <= len && output + Span(j.id, n) <= len
    ensures !Clash(j.id, input, output, n) <==>
            forall mem: seq<byte> | |mem| == len :: Faithful(s, j, iv, mem, input, output, n)
  {
    hide Run, Stream, Step, Reversible, Written, Blocks;
    if Clash(j.id, input, output, n) {
      var mem := ClashBreaks(s, j, iv, len, input, output, n);
    } else {
      forall mem: seq<byte> | |mem| == len ensures Faithful(s, j, iv, mem, input, output, n) {
        StreamComputesRun(s, j, iv, mem, input, output, n);
      }
    }
  }

  /**
   Memory-level round trip: encrypting a buffer and decrypting the result with the same key
   and vector puts the message at the second output address, in place or not.
   */
  lemma StreamRoundTrip(s: Core, e: Job, d: Job, iv: Block, mem: seq<byte>, input: nat, output: nat, back: nat, n: nat)
    requires Undoes(d, e) && (Invertible(s) || d.chain.CTR?) && |iv| == BlockSize(e.id)
    requires input + Span(e.id, n) <= |mem| && output + Span(e.id, n) <= |mem| && back + Span(e.id, n) <= |mem|
    requires !Clash(e.id, input, output, n) && !Clash(e.id, output, back, n)
    ensures var mid := Stream(s, e, iv, mem, input, output, n).0;
            Written(mid, Stream(s, d, iv, mid, output, back, n).0, back, e.id, Blocks(mem, input, e.id, n))
  {
    var xs := Blocks(mem, input, e.id, n);
    StreamComputesRun(s, e, iv, mem, input, output, n);
    var mid := Stream(s, e, iv, mem, input, output, n).0;
    StreamComputesRun(s, d, iv, mid, output, back, n);
    var ys := Run(s, e, iv, xs).0;
    assert Blocks(mid, output, e.id, n) == ys;
    RoundTrip(s, e, d, iv, xs);
  }

  /** Running k blocks and then the rest from the chaining value reached is running all of them. */
  lemma {:induction false} StreamSplit(s: Core, j: Job, iv: Block, mem: seq<byte>, input: nat, output: nat, k: nat, n: nat)
    requires |iv| == BlockSize(j.id)
    requires input + Span(j.id, k + n) <= |mem| && output + Span(j.id, k + n) <= |mem|
    ensures var (m, v) := Stream(s, j, iv, mem, input, output, k);
            Stream(s, j, iv, mem, input, output, k + n) ==
            Stream(s, j, v, m, input + Span(j.id, k), output + Span(j.id, k), n)
  {
    hide Step, Stream, Slice;
    var (m, v) := Stream(s, j, iv, mem, input, output, k);
    if n == 0 {
      StreamZero(s, j, v, m, input + Span(j.id, k), output + Span(j.id, k));
    } else {
      StreamSplit(s, j, iv, mem, input, output, k, n - 1);
      StreamSnoc(s, j, iv, mem, input, output, k + n);
      StreamSnoc(s, j, v, m, input + Span(j.id, k), output + Span(j.id, k), n);
      var m' := Stream(s, j, v, m, input + Span(j.id, k), output + Span(j.id, k), n - 1).0;
      assert k + n - 1 == k + (n - 1);
      SliceShift(m', input, j.id, k, n - 1);
    }
  }

  lemma SliceShift(m: seq<byte>, a: nat, c: CipherId, k: nat, i: nat)
    requires a + Span(c, k + i + 1) <= |m|
    ensures Slice(m, a, c, k + i) == Slice(m, a + Span(c, k), c, i)
  {
  }

  lemma StreamZero(s: Core, j: Job, iv: Block, mem: seq<byte>, input: nat, output: nat)
    requires |iv| == BlockSize(j.id) && input <= |mem| && output <= |mem|
    ensures Stream(s, j, iv, mem, input, output, 0) == (mem, iv)
  {
  }

  lemma StreamSnoc(s: Core, j: Job, iv: Block, mem: seq<byte>, input: nat, output: nat, n: nat)
    requires |iv| == BlockSize(j.id) && 0 < n
    requires input + Span(j.id, n) <= |mem| && output + Span(j.id, n) <= |mem|
    ensures var (m, v) := Stream(s, j, iv, mem, input, output, n - 1);
            var (y, v') := Step(s, j, v, Slice(m, input, j.id, n - 1));
            Stream(s, j, iv, mem, input, output, n) == (Store(m, output + Span(j.id, n - 1), y), v')
  {
  }

  // ---- A block left over from before ----

  /**
   The same loop when the OUT FIFO will first deliver the bytes q of an earlier operation: each turn writes the
   oldest bytes that have not been read. The last component is what stays unread.
   */
  function LagStream(s: Core, j: Job, iv: Block, q: seq<byte>, mem: seq<byte>, input: nat, output: nat, n: nat)
    : (r: (seq<byte>, Block, seq<byte>))
    requires |iv| == BlockSize(j.id)
    requires input + Span(j.id, n) <= |mem| && output + Span(j.id, n) <= |mem|
    ensures |r.0| == |mem| && |r.1| == BlockSize(j.id) && |r.2| == |q|
  {
    if n == 0 then (mem, iv, q) else
      var (m, v, u) := LagStream(s, j, iv, q, mem, input, output, n - 1);
      var (y, v') := Step(s, j, v, Slice(m, input, j.id, n - 1));
      (Store(m, output + Span(j.id, n - 1), (u + y)[..BlockSize(j.id)]), v', (u + y)[BlockSize(j.id)..])
  }

  /** With nothing left over this is the loop. */
  lemma {:induction false} LagNone(s: Core, j: Job, iv: Block, mem: seq<byte>, input: nat, output: nat, n: nat)
    requires |iv| == BlockSize(j.id)
    requires input + Span(j.id, n) <= |mem| && output + Span(j.id, n) <= |mem|
    ensures var (m, v) := Stream(s, j, iv, mem, input, output, n);
            LagStream(s, j, iv, [], mem, input, output, n) == (m, v, [])
  {
    hide Step;
    if n != 0 {
      LagNone(s, j, iv, mem, input, output, n - 1);
      var (m, v) := Stream(s, j, iv, mem, input, output, n - 1);
      var y := Step(s, j, v, Slice(m, input, j.id, n - 1)).0;
      assert ([] + y)[..BlockSize(j.id)] == y && ([] + y)[BlockSize(j.id)..] == [];
    }
  }

  /** The bytes of the blocks, one after the other. */
  function Flat(ys: seq<Block>): seq<byte> {
    if ys == [] then [] else Flat(ys[..|ys| - 1]) + ys[|ys| - 1]
  }

  /** after is before with the bytes w written at address a and every other byte unchanged. */
  ghost predicate Wrote(before: seq<byte>, after: seq<byte>, a: nat, w: seq<byte>)
    requires a + |w| <= |before|
  {
    |after| == |before| && forall b :: 0 <= b < |before| ==> after[b] == if a <= b < a + |w| then w[b - a] else before[b]
  }

  lemma {:induction false} FlatLength(ys: seq<Block>, c: CipherId)
    requires AllBlocks(ys, BlockSize(c))
    ensures |Flat(ys)| == Span(c, |ys|)
  {
    if ys != [] {
      FlatLength(ys[..|ys| - 1], c);
    }
  }

  /**
   What the loop then computes: the left-over bytes come first, the mode's result for the message is shifted by as many,
   and its end stays in the OUT FIFO.
   */
  lemma {:induction false} LagComputes(s: Core, j: Job, iv: Block, q: seq<byte>, mem: seq<byte>, input: nat, output: nat, n: nat)
    requires |iv| == BlockSize(j.id) && !Clash(j.id, input, output, n)
    requires input + Span(j.id, n) <= |mem| && output + Span(j.id, n) <= |mem|
    ensures var (ys, v) := Run(s, j, iv, Blocks(mem, input, j.id, n));
            var all := q + Flat(ys);
            var r := LagStream(s, j, iv, q, mem, input, output, n);
            && |all| == |q| + Span(j.id, n)
            && Wrote(mem, r.0, output, all[..Span(j.id, n)]) && r.1 == v && r.2 == all[Span(j.id, n)..]
  {
    hide Run, Step, LagStream, Wrote, Flat;
    var xs := Blocks(mem, input, j.id, n);
    FlatLength(Run(s, j, iv, xs).0, j.id);
    if n == 0 {
      LagZero(s, j, iv, q, mem, input, output);
    } else {
      var k := n - 1;
      LagComputes(s, j, iv, q, mem, input, output, k);
      var ys, v := Run(s, j, iv, Blocks(mem, input, j.id, k)).0, Run(s, j, iv, Blocks(mem, input, j.id, k)).1;
      var (m, _, u) := LagStream(s, j, iv, q, mem, input, output, k);
      var x := Slice(mem, input, j.id, k);
      FlatLength(ys, j.id);
      LagIntact(mem, m, input, output, j.id, k, (q + Flat(ys))[..Span(j.id, k)]);
      LagSnoc(s, j, iv, q, mem, input, output, n);
      RunSnoc(s, j, iv, Blocks(mem, input, j.id, k), x);
      LagTurn(mem, m, output, j.id, k, q + Flat(ys), u, Step(s, j, v, x).0);
      FlatSnoc(q, ys, Step(s, j, v, x).0);
    }
  }

  lemma LagZero(s: Core, j: Job, iv: Block, q: seq<byte>, mem: seq<byte>, input: nat, output: nat)
    requires |iv| == BlockSize(j.id) && input <= |mem| && output <= |mem|
    ensures Run(s, j, iv, Blocks(mem, input, j.id, 0)) == ([], iv)
    ensures LagStream(s, j, iv, q, mem, input, output, 0) == (mem, iv, q)
    ensures q + Flat([]) == q && Wrote(mem, mem, output, q[..0])
  {
  }

  lemma LagSnoc(s: Core, j: Job, iv: Block, q: seq<byte>, mem: seq<byte>, input: nat, output: nat, n: nat)
    requires |iv| == BlockSize(j.id) && 0 < n
    requires input + Span(j.id, n) <= |mem| && output + Span(j.id, n) <= |mem|
    ensures var (m, v, u) := LagStream(s, j, iv, q, mem, input, output, n - 1);
            var (y, v') := Step(s, j, v, Slice(m, input, j.id, n - 1));
            LagStream(s, j, iv, q, mem, input, output, n) ==
            (Store(m, output + Span(j.id, n - 1), (u + y)[..BlockSize(j.id)]), v', (u + y)[BlockSize(j.id)..])
  {
    hide Step;
  }

  lemma LagIntact(mem: seq<byte>, m: seq<byte>, input: nat, output: nat, c: CipherId, k: nat, w: seq<byte>)
    requires input + Span(c, k + 1) <= |mem| && output + Span(c, k + 1) <= |mem| && |w| == Span(c, k)
    requires Wrote(mem, m, output, w) && !Clash(c, input, output, k + 1)
    ensures Slice(m, input, c, k) == Slice(mem, input, c, k)
  {
  }

  lemma FlatSnoc(q: seq<byte>, ys: seq<Block>, y: Block)
    ensures q + Flat(ys + [y]) == q + Flat(ys) + y
  {
    assert (ys + [y])[..|ys|] == ys;
  }

  lemma LagTurn(mem: seq<byte>, m: seq<byte>, output: nat, c: CipherId, k: nat, all: seq<byte>, u: seq<byte>, y: Block)
    requires output + Span(c, k + 1) <= |mem| && |y| == BlockSize(c) && Span(c, k) <= |all|
    requires Wrote(mem, m, output, all[..Span(c, k)]) && u == all[Span(c, k)..]
    ensures Wrote(mem, Store(m, output + Span(c, k), (u + y)[..BlockSize(c)]), output, (all + y)[..Span(c, k + 1)])
    ensures (u + y)[BlockSize(c)..] == (all + y)[Span(c, k + 1)..]
  {
  }

  /** Entered with chaining value v and the bytes q to come, the loop computes the mode of the message from iv. */
  ghost predicate LagFaithful(s: Core, j: Job, v: Block, iv: Block, q: seq<byte>, mem: seq<byte>, input: nat, output: nat, n: nat)
    requires |v| == |iv| == BlockSize(j.id)
    requires input + Span(j.id, n) <= |mem| && output + Span(j.id, n) <= |mem|
  {
    Written(mem, LagStream(s, j, v, q, mem, input, output, n).0, output, j.id,
            Run(s, j, iv, Blocks(mem, input, j.id, n)).0)
  }

  /** The first byte written is the oldest one left over, and it stays. */
  lemma {:induction false} LagFirst(s: Core, j: Job, v: Block, q: seq<byte>, mem: seq<byte>, input: nat, output: nat, n: nat)
    requires |v| == BlockSize(j.id) && 1 <= n && q != []
    requires input + Span(j.id, n) <= |mem| && output + Span(j.id, n) <= |mem|
    ensures LagStream(s, j, v, q, mem, input, output, n).0[output] == q[0]
  {
    hide LagStream, Step, Slice;
    LagSnoc(s, j, v, q, mem, input, output, n);
    if n == 1 {
      LagZero(s, j, v, q, mem, input, output);
    } else {
      LagFirst(s, j, v, q, mem, input, output, n - 1);
    }
  }

  /** A block for address a whose result does not begin with b. */
  lemma Choose(s: Core, j: Job, v: Block, b: byte, z: seq<byte>, a: nat) returns (mem: seq<byte>)
    requires Reversible(s, j) && |v| == BlockSize(j.id) && a + BlockSize(j.id) <= |z|
    ensures |mem| == |z| && (forall i :: 0 <= i < |z| && !(a <= i < a + BlockSize(j.id)) ==> mem[i] == z[i])
    ensures Step(s, j, v, mem[a..a + BlockSize(j.id)]).0[0] != b
  {
    hide Step, Reversible, Other;
    Differs(b);
    var x := StepReaches(s, j, v, seq(BlockSize(j.id), i => Other(b)));
    mem := Store(z, a, x);
    assert mem[a..a + BlockSize(j.id)] == x;
  }

  lemma RunFirst(s: Core, j: Job, iv: Block, mem: seq<byte>, a: nat, n: nat)
    requires |iv| == BlockSize(j.id) && 1 <= n && a + Span(j.id, n) <= |mem|
    ensures Run(s, j, iv, Blocks(mem, a, j.id, n)).0[0] == Step(s, j, iv, Slice(mem, a, j.id, 0)).0
  {
    hide Step, Run, Blocks;
    var xs := Blocks(mem, a, j.id, n);
    assert xs == [xs[0]] + xs[1..];
    RunSplit(s, j, iv, [xs[0]], xs[1..]);
    RunOne(s, j, iv, xs[0]);
  }

  lemma RunOne(s: Core, j: Job, iv: Block, x: Block)
    requires |iv| == |x| == BlockSize(j.id)
    ensures AllBlocks([x], BlockSize(j.id)) && Run(s, j, iv, [x]).0 == [Step(s, j, iv, x).0]
  {
    hide Step;
    RunSnoc(s, j, iv, [], x);
    assert [] + [x] == [x];
  }

  /** It does so in every memory iff nothing is left over and the layout is safe. */
  lemma LagExact(s: Core, j: Job, v: Block, iv: Block, q: seq<byte>, len: nat, input: nat, output: nat, n: nat)
    requires Reversible(s, j) && |v| == |iv| == BlockSize(j.id) && 1 <= n && (q == [] ==> v == iv)
    requires input + Span(j.id, n) <= len && output + Span(j.id, n) <= len
    ensures q == [] && !Clash(j.id, input, output, n) <==>
            forall mem: seq<byte> | |mem| == len :: LagFaithful(s, j, v, iv, q, mem, input, output, n)
  {
    hide LagFaithful, Clash, Span, Faithful, Reversible;
    if q == [] {
      forall mem: seq<byte> | |mem| == len
        ensures LagFaithful(s, j, v, iv, q, mem, input, output, n) <==> Faithful(s, j, iv, mem, input, output, n)
      {
        LagFaithfulNone(s, j, iv, mem, input, output, n);
      }
      OverlapExact(s, j, iv, len, input, output, n);
    } else {
      var mem := LagBreaks(s, j, v, iv, q, len, input, output, n);
    }
  }

  lemma LagFaithfulNone(s: Core, j: Job, iv: Block, mem: seq<byte>, input: nat, output: nat, n: nat)
    requires |iv| == BlockSize(j.id)
    requires input + Span(j.id, n) <= |mem| && output + Span(j.id, n) <= |mem|
    ensures LagFaithful(s, j, iv, iv, [], mem, input, output, n) <==> Faithful(s, j, iv, mem, input, output, n)
  {
    hide Run, Step, Stream, LagStream, Written;
    LagNone(s, j, iv, mem, input, output, n);
  }

  lemma LagBreaks(s: Core, j: Job, v: Block, iv: Block, q: seq<byte>, len: nat, input: nat, output: nat, n: nat)
    returns (mem: seq<byte>)
    requires Reversible(s, j) && |v| == |iv| == BlockSize(j.id) && 1 <= n && q != []
    requires input + Span(j.id, n) <= len && output + Span(j.id, n) <= len
    ensures |mem| == len && !LagFaithful(s, j, v, iv, q, mem, input, output, n)
  {
    hide Run, Step, LagStream, Reversible, Blocks;
    mem := Choose(s, j, iv, q[0], seq(len, b => 0), input);
    LagFirst(s, j, v, q, mem, input, output, n);
    RunFirst(s, j, iv, mem, input, n);
    var r := LagStream(s, j, v, q, mem, input, output, n).0;
    SliceAt(r, output, j.id, 0, 0);
    assert Slice(mem, input, j.id, 0) == mem[input..input + BlockSize(j.id)];
  }
}
