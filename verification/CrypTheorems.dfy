/**
 What the driver contracts amount to: the standard's result on success, the exact prefix on
 ERROR, encrypting and decrypting again, the call after a time-out, exactly when a call is right,
 and the context switch.
 */
module CrypTheorems {
  import opened Bytes
  import opened Modes
  import opened Streaming
  import opened CrypControl
  import opened CrypCore
  import opened CrypDevice
  import opened CrypDrivers

  /** The waits of a driver call: one per block, and one for key preparation. */
  function Waits(j: Job, n: nat): nat {
    if Needs(j) then n + 1 else n
  }

  /** The status reads that see BUSY in the i-th wait. */
  function WaitTime(core: Core, j: Job, e: Entry, i: nat): nat {
    if !Needs(j) then WaitAt(core.latency, e.ops, Extra(e.activity, e.left), e.ops + i)
    else if i == 0 then PreparationTime(core, e)
    else core.latency((if Begins(e) then e.ops + 1 else e.ops) + i - 1)
  }

  /** The blocks finished before the first wait that times out. */
  function Finished(core: Core, j: Job, n: nat, e: Entry): nat {
    var l := LoopEntry(j, e);
    if Prepares(core, j, e) then Served(core.latency, l.ops, Extra(l.activity, l.left), n) else 0
  }

  /** The answer of a driver call and the memory it leaves, from any state of the processor. */
  lemma DriverAnswer(core: Core, j: Job, iv: Block, before: seq<byte>, after: seq<byte>,
                     input: nat, output: nat, n: nat, e: Entry, ok: bool)
    requires |iv| == BlockSize(j.id) && j.ready
    requires input + Span(j.id, n) <= |before| && output + Span(j.id, n) <= |before|
    requires Driven(core, j, iv, before, after, input, output, n, e, ok)
    ensures ok <==> forall i: nat :: i < Waits(j, n) ==> WaitTime(core, j, e, i) < BUSY_TIMEOUT
    ensures Finished(core, j, n, e) <= n && (ok ==> Finished(core, j, n, e) == n)
    ensures after == LagStream(core, ActualJob(j, e), ActualChain(j, e, iv), ActualBacklog(j, e),
                               before, input, output, Finished(core, j, n, e)).0
  {
    hide Step, LagStream;
    AllServed(core, j, n, e);
    LagZero(core, ActualJob(j, e), iv, [], before, input, output);
  }

  /** Every wait ends in time iff all blocks are finished. */
  lemma AllServed(core: Core, j: Job, n: nat, e: Entry)
    ensures (forall i: nat :: i < Waits(j, n) ==> WaitTime(core, j, e, i) < BUSY_TIMEOUT) <==>
            Finished(core, j, n, e) == n && Prepares(core, j, e)
  {
    var k := Finished(core, j, n, e);
    if !Needs(j) {
      if k < n {
        assert WaitTime(core, j, e, k) >= BUSY_TIMEOUT;
      } else {
        forall i: nat | i < n ensures WaitTime(core, j, e, i) < BUSY_TIMEOUT {
          assert e.ops <= e.ops + i < e.ops + k;
        }
      }
    } else if PreparationTime(core, e) >= BUSY_TIMEOUT {
      assert WaitTime(core, j, e, 0) >= BUSY_TIMEOUT;
    } else {
      var base := if Begins(e) then e.ops + 1 else e.ops;
      if k < n {
        assert WaitAt(core.latency, base, 0, base + k) >= BUSY_TIMEOUT;
        assert WaitTime(core, j, e, k + 1) >= BUSY_TIMEOUT;
      } else {
        forall i: nat | i < n + 1 ensures WaitTime(core, j, e, i) < BUSY_TIMEOUT {
          if i != 0 {
            assert WaitAt(core.latency, base, 0, base + (i - 1)) < BUSY_TIMEOUT;
          }
        }
      }
    }
  }

  /** Nothing that was going on at the call can spoil its result. */
  predicate Clean(j: Job, e: Entry) {
    if Needs(j) then Begins(e) || e.activity == Preparing(j.id, j.key) else !e.activity.Crunching?
  }

  lemma CleanMeans(j: Job, e: Entry, iv: Block)
    requires j.ready && |iv| == BlockSize(j.id)
    ensures Clean(j, e) ==> ActualJob(j, e) == j && ActualChain(j, e, iv) == iv && ActualBacklog(j, e) == []
    ensures !Clean(j, e) && Needs(j) ==> ActualJob(j, e) == j.(ready := false)
  {
  }

  /**
   A driver call returns SUCCESS iff no wait sees BUSY set 65536 times. Without an input/output clash the
   output buffer then holds the mode's result for the original message; after ERROR it holds exactly the
   blocks finished before, and in both cases no other byte has changed.
   */
  lemma DriverResult(core: Core, j: Job, iv: Block, before: seq<byte>, after: seq<byte>,
                     input: nat, output: nat, n: nat, e: Entry, ok: bool)
    requires |iv| == BlockSize(j.id) && j.ready && Clean(j, e)
    requires input + Span(j.id, n) <= |before| && output + Span(j.id, n) <= |before|
    requires Driven(core, j, iv, before, after, input, output, n, e, ok)
    ensures ok <==> forall i: nat :: i < Waits(j, n) ==> WaitTime(core, j, e, i) < BUSY_TIMEOUT
    ensures Finished(core, j, n, e) <= n && (ok ==> Finished(core, j, n, e) == n)
    ensures !Clash(j.id, input, output, n) ==>
              Written(before, after, output, j.id,
                      Run(core, j, iv, Blocks(before, input, j.id, n)).0[..Finished(core, j, n, e)])
  {
    hide Step, Stream, LagStream, Clash, Written, Run, Blocks, Driven, Finished, Waits, WaitTime, Clean,
      ActualJob, ActualChain, ActualBacklog;
    DriverAnswer(core, j, iv, before, after, input, output, n, e, ok);
    CleanMeans(j, e, iv);
    var k := Finished(core, j, n, e);
    LagNone(core, j, iv, before, input, output, k);
    if !Clash(j.id, input, output, n) {
      Prefix(core, j, iv, before, input, n, k);
      ShorterNoClash(j.id, input, output, n, k);
      StreamComputesRun(core, j, iv, before, input, output, k);
    }
  }

  lemma ShorterNoClash(c: CipherId, input: nat, output: nat, n: nat, k: nat)
    requires !Clash(c, input, output, n) && k <= n
    ensures !Clash(c, input, output, k)
  {
  }

  /** The first k output blocks depend on the first k input blocks only. */
  lemma Prefix(core: Core, j: Job, iv: Block, mem: seq<byte>, a: nat, n: nat, k: nat)
    requires |iv| == BlockSize(j.id) && a + Span(j.id, n) <= |mem| && k <= n
    ensures Run(core, j, iv, Blocks(mem, a, j.id, n)).0[..k] == Run(core, j, iv, Blocks(mem, a, j.id, k)).0
  {
    hide Step;
    var xs, zs := Blocks(mem, a, j.id, k), Blocks(mem, a, j.id, n)[k..];
    assert Blocks(mem, a, j.id, n) == xs + zs;
    RunSplit(core, j, iv, xs, zs);
  }

  lemma DriverSuccess(core: Core, j: Job, iv: Block, before: seq<byte>, after: seq<byte>,
                      input: nat, output: nat, n: nat, e: Entry)
    requires |iv| == BlockSize(j.id) && j.ready && Clean(j, e)
    requires input + Span(j.id, n) <= |before| && output + Span(j.id, n) <= |before|
    requires Driven(core, j, iv, before, after, input, output, n, e, true) && !Clash(j.id, input, output, n)
    ensures |after| == |before|
    ensures Written(before, after, output, j.id, Run(core, j, iv, Blocks(before, input, j.id, n)).0)
    ensures Blocks(after, output, j.id, n) == Run(core, j, iv, Blocks(before, input, j.id, n)).0
  {
    hide Step, Run, Driven, Finished, Waits, WaitTime, Clean;
    DriverResult(core, j, iv, before, after, input, output, n, e, true);
    var ys := Run(core, j, iv, Blocks(before, input, j.id, n)).0;
    assert ys[..n] == ys;
  }

  /** On success without a clash, the output blocks are what the standard prescribes. */
  lemma DriverMeetsStandard(core: Core, j: Job, iv: Block, before: seq<byte>, after: seq<byte>,
                            input: nat, output: nat, n: nat, e: Entry)
    requires |iv| == BlockSize(j.id) && j.ready && Clean(j, e)
    requires input + Span(j.id, n) <= |before| && output + Span(j.id, n) <= |before|
    requires Driven(core, j, iv, before, after, input, output, n, e, true) && !Clash(j.id, input, output, n)
    ensures |after| == |before|
    ensures Meets(core, j, iv, Blocks(before, input, j.id, n), Blocks(after, output, j.id, n))
  {
    hide Step, Run, Driven, Clean, Meets, Written;
    DriverSuccess(core, j, iv, before, after, input, output, n, e);
    RunMeetsStandard(core, j, iv, Blocks(before, input, j.id, n), Blocks(after, output, j.id, n));
  }

  /** The bytes of the i-th block. */
  lemma BlockBytes(mem: seq<byte>, a: nat, c: CipherId, n: nat, i: nat)
    requires a + Span(c, n) <= |mem| && i < n
    ensures a + Span(c, i) + BlockSize(c) <= |mem|
    ensures Blocks(mem, a, c, n)[i] == mem[a + Span(c, i)..a + Span(c, i) + BlockSize(c)]
  {
  }

  /** The block before, or the vector. */
  function Before(mem: seq<byte>, a: nat, c: CipherId, iv: Block, i: nat): (p: Block)
    requires a + Span(c, i) <= |mem| && |iv| == BlockSize(c)
    ensures |p| == BlockSize(c)
  {
    if i == 0 then iv else mem[a + Span(c, i - 1)..a + Span(c, i)]
  }

  lemma BlockBefore(mem: seq<byte>, a: nat, c: CipherId, iv: Block, n: nat, i: nat)
    requires a + Span(c, n) <= |mem| && |iv| == BlockSize(c) && i < n
    ensures a + Span(c, i) <= |mem|
    ensures Before(mem, a, c, iv, i) == if i == 0 then iv else Blocks(mem, a, c, n)[i - 1]
  {
    if i != 0 {
      BlockBytes(mem, a, c, n, i - 1);
    }
  }

  /** Block i in memory, before and after a successful call, as a block of the run. */
  lemma DriverBlock(core: Core, j: Job, iv: Block, before: seq<byte>, after: seq<byte>,
                    input: nat, output: nat, n: nat, e: Entry, i: nat)
    requires |iv| == BlockSize(j.id) && j.ready && Clean(j, e) && i < n
    requires input + Span(j.id, n) <= |before| && output + Span(j.id, n) <= |before|
    requires Driven(core, j, iv, before, after, input, output, n, e, true) && !Clash(j.id, input, output, n)
    ensures var xs := Blocks(before, input, j.id, n);
            var x, y := input + Span(j.id, i), output + Span(j.id, i);
            && |after| == |before| && x + BlockSize(j.id) <= |before| && y + BlockSize(j.id) <= |after|
            && xs[i] == before[x..x + BlockSize(j.id)] && Run(core, j, iv, xs).0[i] == after[y..y + BlockSize(j.id)]
            && Before(before, input, j.id, iv, i) == (if i == 0 then iv else xs[i - 1])
            && Before(after, output, j.id, iv, i) == (if i == 0 then iv else Run(core, j, iv, xs).0[i - 1])
  {
    hide Step, Run, Driven, Clean, Written, Clash, Blocks, Before;
    DriverSuccess(core, j, iv, before, after, input, output, n, e);
    BlockBytes(before, input, j.id, n, i);
    BlockBytes(after, output, j.id, n, i);
    BlockBefore(before, input, j.id, iv, n, i);
    BlockBefore(after, output, j.id, iv, n, i);
  }

  /** What a successful CRYP_AES_ECB, CRYP_DES_ECB or CRYP_TDES_ECB writes. */
  lemma DriverEcb(core: Core, j: Job, iv: Block, before: seq<byte>, after: seq<byte>,
                  input: nat, output: nat, n: nat, e: Entry, i: nat)
    requires |iv| == BlockSize(j.id) && j.ready && Clean(j, e) && j.chain.ECB? && i < n
    requires input + Span(j.id, n) <= |before| && output + Span(j.id, n) <= |before|
    requires Driven(core, j, iv, before, after, input, output, n, e, true) && !Clash(j.id, input, output, n)
    ensures var x, y := input + Span(j.id, i), output + Span(j.id, i);
            && |after| == |before| && x + BlockSize(j.id) <= |before| && y + BlockSize(j.id) <= |after|
            && (j.dir.Encrypt? ==> after[y..y + BlockSize(j.id)] == core.enc(j.id, j.key, before[x..x + BlockSize(j.id)]))
            && (j.dir.Decrypt? ==> after[y..y + BlockSize(j.id)] == core.dec(j.id, j.key, before[x..x + BlockSize(j.id)]))
  {
    hide *;
    DriverBlock(core, j, iv, before, after, input, output, n, e, i);
    EcbBlocks(core, j, iv, Blocks(before, input, j.id, n), i);
  }

  /** What a successful CBC encryption writes: the encryption of z, the input block x plus the output block before, or the vector. */
  lemma DriverCbcEncrypt(core: Core, j: Job, iv: Block, before: seq<byte>, after: seq<byte>,
                         input: nat, output: nat, n: nat, e: Entry, i: nat, x: Block, z: Block)
    requires |iv| == |z| == BlockSize(j.id) && j.ready && Clean(j, e) && j.chain.CBC? && j.dir.Encrypt? && i < n
    requires input + Span(j.id, n) <= |before| == |after| && output + Span(j.id, n) <= |before|
    requires Driven(core, j, iv, before, after, input, output, n, e, true) && !Clash(j.id, input, output, n)
    requires x == before[input + Span(j.id, i)..input + Span(j.id, i) + BlockSize(j.id)]
    requires forall b :: 0 <= b < |z| ==> z[b] == x[b] ^ Before(after, output, j.id, iv, i)[b]
    ensures var y := output + Span(j.id, i);
            y + BlockSize(j.id) <= |after| && after[y..y + BlockSize(j.id)] == core.enc(j.id, j.key, z)
  {
    hide *;
    DriverBlock(core, j, iv, before, after, input, output, n, e, i);
    CbcEncryptBytes(core, j, iv, Blocks(before, input, j.id, n), i, x, Before(after, output, j.id, iv, i), z);
  }

  /** What a successful CBC decryption writes: the deciphered input block x plus the input block before, or the vector. */
  lemma DriverCbcDecrypt(core: Core, j: Job, iv: Block, before: seq<byte>, after: seq<byte>,
                         input: nat, output: nat, n: nat, e: Entry, i: nat, x: Block, y: Block, b: nat)
    requires |iv| == BlockSize(j.id) && j.ready && Clean(j, e) && j.chain.CBC? && j.dir.Decrypt? && i < n && b < BlockSize(j.id)
    requires input + Span(j.id, n) <= |before| == |after| && output + Span(j.id, n) <= |before|
    requires Driven(core, j, iv, before, after, input, output, n, e, true) && !Clash(j.id, input, output, n)
    requires x == before[input + Span(j.id, i)..input + Span(j.id, i) + BlockSize(j.id)]
    requires y == after[output + Span(j.id, i)..output + Span(j.id, i) + BlockSize(j.id)]
    ensures y[b] == core.dec(j.id, j.key, x)[b] ^ Before(before, input, j.id, iv, i)[b]
  {
    hide *;
    DriverBlock(core, j, iv, before, after, input, output, n, e, i);
    CbcDecryptBytes(core, j, iv, Blocks(before, input, j.id, n), i, x, Before(before, input, j.id, iv, i), b);
  }

  /** What a successful CRYP_AES_CTR writes: the input block x plus the encryption of its counter block, from the vector on. */
  lemma DriverCtr(core: Core, j: Job, iv: Block, before: seq<byte>, after: seq<byte>,
                  input: nat, output: nat, n: nat, e: Entry, ts: seq<Block>, i: nat, x: Block, y: Block, b: nat)
    requires |iv| == BlockSize(j.id) && j.ready && Clean(j, e) && j.chain.CTR? && i < n == |ts| && b < BlockSize(j.id)
    requires input + Span(j.id, n) <= |before| == |after| && output + Span(j.id, n) <= |before|
    requires Driven(core, j, iv, before, after, input, output, n, e, true) && !Clash(j.id, input, output, n)
    requires ts[0] == iv && forall t :: 1 <= t < n ==> ts[t] == core.inc(ts[t - 1])
    requires x == before[input + Span(j.id, i)..input + Span(j.id, i) + BlockSize(j.id)]
    requires y == after[output + Span(j.id, i)..output + Span(j.id, i) + BlockSize(j.id)]
    ensures |ts[i]| == BlockSize(j.id) && y[b] == x[b] ^ core.enc(j.id, j.key, ts[i])[b]
  {
    hide *;
    DriverBlock(core, j, iv, before, after, input, output, n, e, i);
    CtrBytes(core, j, iv, Blocks(before, input, j.id, n), ts, i, x, b);
  }

  /**
   A call that finds a block still in the core, as a time-out leaves it (Leaves), and needs no key preparation: even on SUCCESS
   the output begins with that block's bytes, and the mode's result follows one block late, from the chaining value
   the old block left.
   */
  lemma DriverStale(core: Core, j: Job, iv: Block, before: seq<byte>, after: seq<byte>,
                    input: nat, output: nat, n: nat, e: Entry)
    requires |iv| == BlockSize(j.id) && j.ready && !Needs(j) && e.activity.Crunching?
    requires input + Span(j.id, n) <= |before| && output + Span(j.id, n) <= |before|
    requires Driven(core, j, iv, before, after, input, output, n, e, true) && !Clash(j.id, input, output, n)
    ensures var ys := Run(core, j, StartChain(j.id, e.activity, iv), Blocks(before, input, j.id, n)).0;
            var all := BytesOf(e.activity.words) + Flat(ys);
            Span(j.id, n) <= |all| && Wrote(before, after, output, all[..Span(j.id, n)])
  {
    hide Step, Run, LagStream, Wrote, Flat, BytesOf, Driven, Finished, Waits, WaitTime;
    DriverAnswer(core, j, iv, before, after, input, output, n, e, true);
    LagComputes(core, j, StartChain(j.id, e.activity, iv), BytesOf(e.activity.words), before, input, output, n);
  }

  /**
   A call that needs key preparation works with an unprepared key unless the preparation could begin or one for the same key was
   going on. It then decrypts every message rightly iff the core does so with an unprepared key.
   */
  lemma EntryExact(core: Core, j: Job, e: Entry)
    requires j.ready && Needs(j)
    ensures SameFunction(core, ActualJob(j, e), j) <==> Clean(j, e) || NoPreparationNeeded(core, j)
  {
    CleanMeans(j, e, Zeros(BlockSize(j.id)));
    hide SameFunction, NoPreparationNeeded, ActualJob, ScheduleAfter;
    if Clean(j, e) {
      SameSelf(core, j);
    } else {
      UnreadyExact(core, j);
    }
  }

  // ---- There and back ----

  /** In ECB mode the vector does not matter. */
  lemma EcbAnyVector(s: Core, j: Job, iv: Block, iv': Block, xs: seq<Block>)
    requires |iv| == |iv'| == BlockSize(j.id) && AllBlocks(xs, BlockSize(j.id)) && j.chain.ECB?
    ensures Run(s, j, iv, xs).0 == Run(s, j, iv', xs).0
  {
    hide Run, Step;
    var ys := Run(s, j, iv, xs).0;
    RunMeetsStandard(s, j, iv, xs, ys);
    RunMeetsStandard(s, j, iv', xs, ys);
    forall i | 0 <= i < |xs| ensures MeetsAt(s, j, iv', xs, ys, i) {
      assert MeetsAt(s, j, iv, xs, ys, i);
    }
  }

  /** Encrypting with a driver and decrypting with the driver of the same mode returns the message; in ECB mode whatever the vectors. */
  lemma DriverRoundTrip(core: Core, e: Job, d: Job, iv: Block, iv': Block, m0: seq<byte>, m1: seq<byte>, m2: seq<byte>,
                        input: nat, output: nat, back: nat, n: nat, entry1: Entry, entry2: Entry)
    requires Undoes(d, e) && (Invertible(core) || d.chain.CTR?) && |iv| == |iv'| == BlockSize(e.id)
    requires e.chain.ECB? || iv == iv'
    requires e.ready && d.ready && Clean(e, entry1) && Clean(d, entry2)
    requires input + Span(e.id, n) <= |m0| && output + Span(e.id, n) <= |m0| && back + Span(e.id, n) <= |m0|
    requires |m1| == |m0| && !Clash(e.id, input, output, n) && !Clash(e.id, output, back, n)
    requires Driven(core, e, iv, m0, m1, input, output, n, entry1, true)
    requires Driven(core, d, iv', m1, m2, output, back, n, entry2, true)
    ensures Written(m0, m1, output, e.id, Run(core, e, iv, Blocks(m0, input, e.id, n)).0)
    ensures Written(m1, m2, back, e.id, Blocks(m0, input, e.id, n))
  {
    hide Driven, Written, Step, Clash, Clean, Run, Invertible;
    DriverSuccess(core, e, iv, m0, m1, input, output, n, entry1);
    DriverSuccess(core, d, iv', m1, m2, output, back, n, entry2);
    RoundTrip(core, e, d, iv, Blocks(m0, input, e.id, n));
    if e.chain.ECB? {
      EcbAnyVector(core, d, iv', iv, Blocks(m1, output, e.id, n));
    }
  }

  /** All operations from number base on, up to another, are fast enough. */
  predicate AllFast(latency: nat -> nat, base: nat, end: nat) {
    forall t :: base <= t < end ==> latency(t) < 0x1_0000
  }

  /** From an idle processor, disabled if it has to prepare a key, a call succeeds iff its own operations are fast enough. */
  lemma IdleAnswer(core: Core, j: Job, iv: Block, before: seq<byte>, after: seq<byte>,
                   input: nat, output: nat, n: nat, e: Entry, a: Entry, ok: bool)
    requires |iv| == BlockSize(j.id) && j.ready && e.activity.Idle? && !(Needs(j) && e.enabled)
    requires input + Span(j.id, n) <= |before| && output + Span(j.id, n) <= |before|
    requires Driven(core, j, iv, before, after, input, output, n, e, ok)
    requires Leaves(core, j, iv, before, input, output, n, e, a)
    ensures Clean(j, e)
    ensures ok <==> AllFast(core.latency, e.ops, e.ops + Waits(j, n))
    ensures ok ==> a.activity.Idle? && !a.enabled && a.ops == e.ops + Waits(j, n)
  {
    hide LagStream, LeftAt, Driven, Served;
    DriverAnswer(core, j, iv, before, after, input, output, n, e, ok);
    AllServed(core, j, n, e);
    if AllFast(core.latency, e.ops, e.ops + Waits(j, n)) {
      forall i: nat | i < Waits(j, n) ensures WaitTime(core, j, e, i) < BUSY_TIMEOUT {
        assert core.latency(e.ops + i) < BUSY_TIMEOUT;
      }
    }
    if ok {
      forall t | e.ops <= t < e.ops + Waits(j, n) ensures core.latency(t) < BUSY_TIMEOUT {
        assert WaitTime(core, j, e, t - e.ops) < BUSY_TIMEOUT;
      }
    }
  }

  lemma FastParts(latency: nat -> nat, base: nat, mid: nat, end: nat)
    requires base <= mid <= end
    ensures AllFast(latency, base, end) <==> AllFast(latency, base, mid) && AllFast(latency, mid, end)
  {
    if AllFast(latency, base, mid) && AllFast(latency, mid, end) {
      forall t | base <= t < end ensures latency(t) < BUSY_TIMEOUT {
        if t < mid {
        }
      }
    }
  }

  /** after differs from before only in the two buffers, and the second holds the message that was at input. */
  ghost predicate Returned(before: seq<byte>, after: seq<byte>, c: CipherId, input: nat, output: nat, back: nat, n: nat)
    requires input + Span(c, n) <= |before| && output + Span(c, n) <= |before| && back + Span(c, n) <= |before|
  {
    && |after| == |before| && Blocks(after, back, c, n) == Blocks(before, input, c, n)
    && forall b :: 0 <= b < |before| && !InBuffers(c, output, back, n, b) ==> after[b] == before[b]
  }

  lemma TwiceWritten(m0: seq<byte>, m1: seq<byte>, m2: seq<byte>, c: CipherId, input: nat, output: nat, back: nat, n: nat, ys: seq<Block>)
    requires input + Span(c, n) <= |m0| && output + Span(c, n) <= |m0| && back + Span(c, n) <= |m0| && |ys| == n
    requires Written(m0, m1, output, c, ys) && Written(m1, m2, back, c, Blocks(m0, input, c, n))
    ensures Returned(m0, m2, c, input, output, back, n)
  {
    hide Slice;
    assert Blocks(m2, back, c, n) == Blocks(m0, input, c, n);
  }

  /** Bytes away from the written buffer are the same. */
  lemma KeyKept(m0: seq<byte>, m1: seq<byte>, output: nat, c: CipherId, ys: seq<Block>, a: nat, len: nat)
    requires output + Span(c, |ys|) <= |m0| && Written(m0, m1, output, c, ys) && a + len <= |m0|
    requires a + len <= output || output + Span(c, |ys|) <= a
    ensures m1[a..a + len] == m0[a..a + len]
  {
  }

  /** What two calls on an idle processor amount to. */
  lemma ThereAndBack(core: Core, e: Job, d: Job, iv: Block, iv': Block, m0: seq<byte>, m1: seq<byte>, m2: seq<byte>,
                     input: nat, output: nat, back: nat, n: nat, entry1: Entry, entry2: Entry, entry3: Entry, ok: bool)
    requires Undoes(d, e) && (Invertible(core) || d.chain.CTR?) && |iv| == |iv'| == BlockSize(e.id)
    requires e.chain.ECB? || iv == iv'
    requires e.ready && d.ready && entry1.activity.Idle? && !Needs(e)
    requires input + Span(e.id, n) <= |m0| && output + Span(e.id, n) <= |m0| && back + Span(e.id, n) <= |m0|
    requires |m1| == |m0| && !Clash(e.id, input, output, n) && !Clash(e.id, output, back, n)
    requires Driven(core, e, iv, m0, m1, input, output, n, entry1, true) && Leaves(core, e, iv, m0, input, output, n, entry1, entry2)
    requires Driven(core, d, iv', m1, m2, output, back, n, entry2, ok) && Leaves(core, d, iv', m1, output, back, n, entry2, entry3)
    ensures ok <==> AllFast(core.latency, entry1.ops, entry1.ops + n + Waits(d, n))
    ensures ok ==> Returned(m0, m2, e.id, input, output, back, n)
  {
    hide Driven, Leaves, Written, Step, Clash, Clean, Run, Invertible, AllFast, Returned, Undoes;
    UndoesIds(e, d);
    IdleAnswer(core, e, iv, m0, m1, input, output, n, entry1, entry2, true);
    IdleAnswer(core, d, iv', m1, m2, output, back, n, entry2, entry3, ok);
    FastParts(core.latency, entry1.ops, entry1.ops + n, entry1.ops + n + Waits(d, n));
    if ok {
      DriverRoundTrip(core, e, d, iv, iv', m0, m1, m2, input, output, back, n, entry1, entry2);
      TwiceWritten(m0, m1, m2, e.id, input, output, back, n, Run(core, e, iv, Blocks(m0, input, e.id, n)).0);
    }
  }

  lemma UndoesIds(e: Job, d: Job)
    requires Undoes(d, e)
    ensures d.id == e.id
  {
  }

  /** The first call leaves bytes away from its output, like the key, as they were. */
  lemma FirstCallKeeps(core: Core, e: Job, iv: Block, m0: seq<byte>, m1: seq<byte>, input: nat, output: nat, n: nat,
              entry1: Entry, entry2: Entry, a: nat, len: nat)
    requires |iv| == BlockSize(e.id) && e.ready && entry1.activity.Idle? && !Needs(e)
    requires input + Span(e.id, n) <= |m0| && output + Span(e.id, n) <= |m0| && !Clash(e.id, input, output, n)
    requires Driven(core, e, iv, m0, m1, input, output, n, entry1, true) && Leaves(core, e, iv, m0, input, output, n, entry1, entry2)
    requires a + len <= |m0| && (a + len <= output || output + Span(e.id, n) <= a)
    ensures |m1| == |m0| && m1[a..a + len] == m0[a..a + len]
  {
    hide Driven, Leaves, AllFast, Clash, Run, Blocks, Step;
    IdleAnswer(core, e, iv, m0, m1, input, output, n, entry1, entry2, true);
    DriverSuccess(core, e, iv, m0, m1, input, output, n, entry1);
    KeyKept(m0, m1, output, e.id, Run(core, e, iv, Blocks(m0, input, e.id, n)).0, a, len);
  }

  /** If the first call fails there is no second. */
  lemma FirstCallFails(core: Core, e: Job, iv: Block, m0: seq<byte>, m1: seq<byte>, input: nat, output: nat, n: nat,
                   entry1: Entry, entry2: Entry, end: nat)
    requires |iv| == BlockSize(e.id) && e.ready && entry1.activity.Idle? && !Needs(e) && entry1.ops + n <= end
    requires input + Span(e.id, n) <= |m0| && output + Span(e.id, n) <= |m0|
    requires Driven(core, e, iv, m0, m1, input, output, n, entry1, false) && Leaves(core, e, iv, m0, input, output, n, entry1, entry2)
    ensures !AllFast(core.latency, entry1.ops, end)
  {
    hide Driven, Leaves, AllFast;
    IdleAnswer(core, e, iv, m0, m1, input, output, n, entry1, entry2, false);
    FastParts(core.latency, entry1.ops, entry1.ops + n, end);
  }

  /** The jobs of an AES encryption and a later AES decryption with the same key bytes in memory do undo each other. */
  lemma AesJobsUndo(m0: seq<byte>, m1: seq<byte>, chain: Chain, key: nat, keysize: nat)
    requires IsKeySize(keysize) && key + KeyBytes(keysize) <= |m0| == |m1|
    requires m0[key..key + KeyBytes(keysize)] == m1[key..key + KeyBytes(keysize)]
    ensures Undoes(AesJob(m1, chain, MODE_DECRYPT, key, keysize), AesJob(m0, chain, MODE_ENCRYPT, key, keysize))
  {
  }

  lemma DesJobsUndo(m0: seq<byte>, m1: seq<byte>, c: CipherId, chain: Chain, key: nat)
    requires (c.DES? || c.TDES?) && key + DesKeyBytes(c) <= |m0| == |m1|
    requires m0[key..key + DesKeyBytes(c)] == m1[key..key + DesKeyBytes(c)]
    ensures Undoes(DesJob(m1, c, chain, MODE_DECRYPT, key), DesJob(m0, c, chain, MODE_ENCRYPT, key))
  {
  }

  /** Where the three buffers and the key may lie. */
  predicate SafeTrip(c: CipherId, size: nat, key: nat, bytes: nat, input: nat, length: nat, output: nat, back: nat) {
    var n := BlockCount(c, length);
    && Fits(c, size, input, length, output) && Fits(c, size, output, length, back) && key + bytes <= size
    && !Clash(c, input, output, n) && !Clash(c, output, back, n)
    && (key + bytes <= output || output + Span(c, n) <= key)
  }

  /** CRYP_AES_ECB there and back, from an idle processor: it succeeds iff all 2n + 1 operations are fast enough. */
  method AesEcbRoundTrip(dev: Cryp, mem: array<byte>, key: nat, keysize: nat, input: nat, length: nat, output: nat, back: nat)
    returns (ok: bool)
    requires dev.Valid() && dev.activity.Idle? && Invertible(dev.core) && IsKeySize(keysize)
    requires SafeTrip(AesIdOf(keysize), mem.Length, key, KeyBytes(keysize), input, length, output, back)
    modifies dev, mem
    ensures ok <==> AllFast(dev.core.latency, old(dev.ops), old(dev.ops) + 2 * BlockCount(AesIdOf(keysize), length) + 1)
    ensures ok ==> Returned(old(mem[..]), mem[..], AesIdOf(keysize), input, output, back, BlockCount(AesIdOf(keysize), length))
  {
    hide Driven, Leaves, Written, Step, Run, Invertible, AllFast, Returned, Undoes, PlacedKey, ChainOfIv, Sound, Blocks;
    ghost var c, n := AesIdOf(keysize), BlockCount(AesIdOf(keysize), length);
    ghost var m0, e1, v1 := mem[..], EntryOf(dev), ChainOfIv(c, SoonIv(dev.Now()));
    ghost var e := AesJob(m0, ECB, MODE_ENCRYPT, key, keysize);
    ok := AesEcb(dev, mem, MODE_ENCRYPT, key, keysize, input, length, output);
    if ok {
      ghost var m1, e2, v2 := mem[..], EntryOf(dev), ChainOfIv(c, SoonIv(dev.Now()));
      ghost var d := AesJob(m1, ECB, MODE_DECRYPT, key, keysize);
      FirstCallKeeps(dev.core, e, v1, m0, m1, input, output, n, e1, e2, key, KeyBytes(keysize));
      AesJobsUndo(m0, m1, ECB, key, keysize);
      ok := AesEcb(dev, mem, MODE_DECRYPT, key, keysize, output, length, back);
      ThereAndBack(dev.core, e, d, v1, v2, m0, m1, mem[..], input, output, back, n, e1, e2, EntryOf(dev), ok);
    } else {
      FirstCallFails(dev.core, e, v1, m0, mem[..], input, output, n, e1, EntryOf(dev), e1.ops + 2 * n + 1);
    }
  }

  /** The same for CRYP_AES_CBC, with the same vector. */
  method AesCbcRoundTrip(dev: Cryp, mem: array<byte>, vector: nat, key: nat, keysize: nat, input: nat, length: nat,
                         output: nat, back: nat)
    returns (ok: bool)
    requires dev.Valid() && dev.activity.Idle? && Invertible(dev.core) && IsKeySize(keysize)
    requires SafeTrip(AesIdOf(keysize), mem.Length, key, KeyBytes(keysize), input, length, output, back)
    requires vector + 16 <= mem.Length
    requires vector + 16 <= output || output + Span(AesIdOf(keysize), BlockCount(AesIdOf(keysize), length)) <= vector
    modifies dev, mem
    ensures ok <==> AllFast(dev.core.latency, old(dev.ops), old(dev.ops) + 2 * BlockCount(AesIdOf(keysize), length) + 1)
    ensures ok ==> Returned(old(mem[..]), mem[..], AesIdOf(keysize), input, output, back, BlockCount(AesIdOf(keysize), length))
  {
    hide Driven, Leaves, Written, Step, Run, Invertible, AllFast, Returned, Undoes, PlacedKey, ChainOfIv, Sound, Blocks;
    ghost var c, n := AesIdOf(keysize), BlockCount(AesIdOf(keysize), length);
    ghost var m0, e1, v := mem[..], EntryOf(dev), mem[vector..vector + 16];
    ghost var e := AesJob(m0, CBC, MODE_ENCRYPT, key, keysize);
    ok := AesCbc(dev, mem, MODE_ENCRYPT, vector, key, keysize, input, length, output);
    if ok {
      ghost var m1, e2 := mem[..], EntryOf(dev);
      ghost var d := AesJob(m1, CBC, MODE_DECRYPT, key, keysize);
      FirstCallKeeps(dev.core, e, v, m0, m1, input, output, n, e1, e2, key, KeyBytes(keysize));
      FirstCallKeeps(dev.core, e, v, m0, m1, input, output, n, e1, e2, vector, 16);
      assert m0[vector..vector + 16] == v && m1[vector..vector + 16] == mem[vector..vector + 16];
      AesJobsUndo(m0, m1, CBC, key, keysize);
      ok := AesCbc(dev, mem, MODE_DECRYPT, vector, key, keysize, output, length, back);
      ThereAndBack(dev.core, e, d, v, v, m0, m1, mem[..], input, output, back, n, e1, e2, EntryOf(dev), ok);
    } else {
      FirstCallFails(dev.core, e, v, m0, mem[..], input, output, n, e1, EntryOf(dev), e1.ops + 2 * n + 1);
    }
  }

  /** CRYP_DES_ECB there and back: 2n operations. */
  method DesEcbRoundTrip(dev: Cryp, mem: array<byte>, key: nat, input: nat, length: nat, output: nat, back: nat)
    returns (ok: bool)
    requires dev.Valid() && dev.activity.Idle? && Invertible(dev.core)
    requires SafeTrip(DES, mem.Length, key, DesKeyBytes(DES), input, length, output, back)
    modifies dev, mem
    ensures ok <==> AllFast(dev.core.latency, old(dev.ops), old(dev.ops) + 2 * BlockCount(DES, length))
    ensures ok ==> Returned(old(mem[..]), mem[..], DES, input, output, back, BlockCount(DES, length))
  {
    hide Driven, Leaves, Written, Step, Run, Invertible, AllFast, Returned, Undoes, PlacedKey, ChainOfIv, Sound, Blocks;
    ghost var n := BlockCount(DES, length);
    ghost var m0, e1, v1 := mem[..], EntryOf(dev), ChainOfIv(DES, SoonIv(dev.Now()));
    ghost var e := DesJob(m0, DES, ECB, MODE_ENCRYPT, key);
    ok := DesEcb(dev, mem, MODE_ENCRYPT, key, input, length, output);
    if ok {
      ghost var m1, e2, v2 := mem[..], EntryOf(dev), ChainOfIv(DES, SoonIv(dev.Now()));
      ghost var d := DesJob(m1, DES, ECB, MODE_DECRYPT, key);
      FirstCallKeeps(dev.core, e, v1, m0, m1, input, output, n, e1, e2, key, DesKeyBytes(DES));
      DesJobsUndo(m0, m1, DES, ECB, key);
      ok := DesEcb(dev, mem, MODE_DECRYPT, key, output, length, back);
      ThereAndBack(dev.core, e, d, v1, v2, m0, m1, mem[..], input, output, back, n, e1, e2, EntryOf(dev), ok);
    } else {
      FirstCallFails(dev.core, e, v1, m0, mem[..], input, output, n, e1, EntryOf(dev), e1.ops + 2 * n);
    }
  }

  // ---- A call after a time-out ----

  /**
   CRYP_DES_ECB from reset, on a processor whose first operation is too slow: ERROR. Called again for another message, it
   reports SUCCESS if the slow operation ends meanwhile, and the answer is the encryption of the first message.
   */
  method Retry(core: Core, mem: array<byte>, key: nat, first: nat, second: nat, output: nat) returns (ok1: bool, ok2: bool)
    requires core.latency(0) >= BUSY_TIMEOUT && mem.Length < TWO32
    requires key + 8 <= mem.Length && first + 8 <= mem.Length && second + 8 <= mem.Length && output + 8 <= mem.Length
    modifies mem
    ensures !ok1 && (ok2 <==> core.latency(0) + core.latency(1) + 1 < 0x2_0000)
    ensures mem[..] == if ok2
                       then Store(old(mem[..]), output, core.enc(DES, PlacedKey(old(mem[..]), key, 8, 8), old(mem[first..first + 8])))
                       else old(mem[..])
  {
    hide PlacedKey, Sound, Driven, Leaves, ChainOfIv, Step;
    ghost var m := mem[..];
    var dev := new Cryp(core);
    ghost var job, e1, v1 := DesJob(m, DES, ECB, MODE_ENCRYPT, key), EntryOf(dev), ChainOfIv(DES, SoonIv(dev.Now()));
    ok1 := DesEcb(dev, mem, MODE_ENCRYPT, key, first, 8, output);
    ghost var m1, e2, v2 := mem[..], EntryOf(dev), ChainOfIv(DES, SoonIv(dev.Now()));
    FirstSlow(core, job, v1, m, m1, first, output, e1, e2, ok1);
    assert m[first..first + 8] == old(mem[first..first + 8]);
    ok2 := DesEcb(dev, mem, MODE_ENCRYPT, key, second, 8, output);
    SecondStale(core, job, v2, m, mem[..], second, output, e2, m[first..first + 8], ok2);
  }

  lemma FirstSlow(core: Core, j: Job, v: Block, m: seq<byte>, after: seq<byte>, input: nat, output: nat, e: Entry, a: Entry, ok: bool)
    requires j.id.DES? && j.chain.ECB? && j.dir.Encrypt? && j.ready && |v| == 8
    requires input + 8 <= |m| && output + 8 <= |m|
    requires e.activity.Idle? && core.latency(e.ops) >= BUSY_TIMEOUT
    requires Driven(core, j, v, m, after, input, output, BlockCount(DES, 8), e, ok)
    requires Leaves(core, j, v, m, input, output, BlockCount(DES, 8), e, a)
    ensures !ok && after == m
    ensures a.activity.Crunching? && Backlog(a.activity) == core.enc(DES, j.key, m[input..input + 8])
    ensures a.left == core.latency(e.ops) - BUSY_TIMEOUT && a.ops == e.ops + 1
  {
    hide LagStream;
    assert BlockCount(DES, 8) == 1 && !Needs(j) && ActualChain(j, e, v) == v;
    assert Served(core.latency, e.ops, 0, 0) == 0;
    assert Served(core.latency, e.ops, 0, 1) == 0;
    LagZero(core, j, v, [], m, input, output);
    assert Slice(m, input, j.id, 0) == m[input..input + 8];
  }

  lemma SecondStale(core: Core, j: Job, v: Block, m: seq<byte>, after: seq<byte>, input: nat, output: nat, e: Entry, x: Block, ok: bool)
    requires j.id.DES? && j.chain.ECB? && j.dir.Encrypt? && j.ready && |v| == |x| == 8
    requires input + 8 <= |m| && output + 8 <= |m|
    requires e.activity.Crunching? && Backlog(e.activity) == core.enc(DES, j.key, x)
    requires Driven(core, j, v, m, after, input, output, BlockCount(DES, 8), e, ok)
    ensures ok <==> core.latency(e.ops) + e.left + 1 < BUSY_TIMEOUT
    ensures after == if ok then Store(m, output, core.enc(DES, j.key, x)) else m
  {
    hide LagStream, StartChain, Store, Backlog;
    assert BlockCount(DES, 8) == 1;
    var v', q := ActualChain(j, e, v), Backlog(e.activity);
    assert Served(core.latency, e.ops, e.left + 1, 0) == 0;
    LagZero(core, j, v', q, m, input, output);
    LagSnoc(core, j, v', q, m, input, output, 1);
    var y := Step(core, j, v', Slice(m, input, j.id, 0)).0;
    assert (q + y)[..8] == q;
  }

  /** A core that copies, slowly at first. */
  const SLOW: Core := Silicon((c, k, b) => b, (c, k, b) => b, (c, k, b) => b, b => b, (t, w) => w,
                              t => if t == 0 then BUSY_TIMEOUT else 0)

  /** After ERROR, SUCCESS with an answer that is not the encryption of the message. */
  method StaleAnswer() returns (ok1: bool, ok2: bool, message: seq<byte>, answer: seq<byte>)
    ensures !ok1 && ok2 && |message| == 8 && forall k :: answer != SLOW.enc(DES, k, message)
  {
    ok1, ok2, message, answer := StaleCopy(SLOW);
  }

  method StaleCopy(core: Core) returns (ok1: bool, ok2: bool, message: seq<byte>, answer: seq<byte>)
    requires (forall k, b :: core.enc(DES, k, b) == b) && core.latency(0) == BUSY_TIMEOUT && core.latency(1) == 0
    ensures !ok1 && ok2 && |message| == 8 && answer != message
  {
    hide PlacedKey, Store;
    var mem := new byte[32];
    mem[8] := 0;
    mem[16] := 1;
    message := mem[16..24];
    ghost var m := mem[..];
    ok1, ok2 := Retry(core, mem, 0, 8, 16, 24);
    answer := mem[24..32];
    assert answer[0] == mem[24] == m[8] && message[0] == 1;
  }

  // ---- Decryption without a prepared key ----

  /** Two jobs compute the same on every message. */
  ghost predicate SameFunction(core: Core, r: Job, j: Job)
    requires r.id == j.id
  {
    forall iv: Block, xs: seq<Block> | |iv| == BlockSize(j.id) && AllBlocks(xs, BlockSize(j.id)) ::
      Run(core, r, iv, xs) == Run(core, j, iv, xs)
  }

  ghost predicate NoPreparationNeeded(core: Core, j: Job) {
    forall x: Block | |x| == BlockSize(j.id) :: core.unprepared(j.id, j.key, x) == core.dec(j.id, j.key, x)
  }

  lemma SameSelf(core: Core, j: Job)
    ensures SameFunction(core, j, j)
  {
  }

  lemma UnreadyExact(core: Core, j: Job)
    requires j.ready && Needs(j)
    ensures SameFunction(core, j.(ready := false), j) <==> NoPreparationNeeded(core, j)
  {
    if NoPreparationNeeded(core, j) {
      forall iv: Block, xs: seq<Block> | |iv| == BlockSize(j.id) && AllBlocks(xs, BlockSize(j.id))
        ensures Run(core, j.(ready := false), iv, xs) == Run(core, j, iv, xs)
      {
        SameRuns(core, j, j.(ready := false), iv, xs);
      }
    } else {
      var x: Block :| |x| == BlockSize(j.id) && core.unprepared(j.id, j.key, x) != core.dec(j.id, j.key, x);
      UnreadyBreaks(core, j, x);
    }
  }

  /** A block that the core decrypts wrongly with an unprepared key comes out wrong. */
  lemma UnreadyDiffers(core: Core, j: Job, iv: Block, x: Block)
    requires j.ready && Needs(j) && |x| == |iv| == BlockSize(j.id)
    requires core.unprepared(j.id, j.key, x) != core.dec(j.id, j.key, x)
    ensures Step(core, j.(ready := false), iv, x).0 != Step(core, j, iv, x).0
  {
    XorInjective(core.unprepared(j.id, j.key, x), core.dec(j.id, j.key, x), iv);
  }

  lemma UnreadyBreaks(core: Core, j: Job, x: Block)
    requires j.ready && Needs(j) && |x| == BlockSize(j.id)
    requires core.unprepared(j.id, j.key, x) != core.dec(j.id, j.key, x)
    ensures AllBlocks([x], BlockSize(j.id))
    ensures Run(core, j.(ready := false), Zeros(BlockSize(j.id)), [x]) != Run(core, j, Zeros(BlockSize(j.id)), [x])
  {
    hide Step, Run;
    var r, iv := j.(ready := false), Zeros(BlockSize(j.id));
    UnreadyDiffers(core, j, iv, x);
    RunOne(core, r, iv, x);
    RunOne(core, j, iv, x);
    assert [Step(core, r, iv, x).0][0] != [Step(core, j, iv, x).0][0];
  }

  lemma {:induction false} SameRuns(s: Core, j: Job, r: Job, iv: Block, xs: seq<Block>)
    requires |iv| == BlockSize(j.id) && AllBlocks(xs, BlockSize(j.id))
    requires r == j.(ready := r.ready) && j.ready && NoPreparationNeeded(s, j)
    ensures Run(s, r, iv, xs) == Run(s, j, iv, xs)
  {
    if xs != [] {
      var last := |xs| - 1;
      SameRuns(s, j, r, iv, xs[..last]);
      SameStep(s, j, r, Run(s, j, iv, xs[..last]).1, xs[last]);
      hide Step;
    }
  }

  lemma SameStep(s: Core, j: Job, r: Job, iv: Block, x: Block)
    requires |iv| == |x| == BlockSize(j.id) && r == j.(ready := r.ready) && j.ready
    requires s.unprepared(j.id, j.key, x) == s.dec(j.id, j.key, x)
    ensures Step(s, r, iv, x) == Step(s, j, iv, x)
  {
  }

  // ---- Exactly when a call is right ----

  /** A call whose waits all end in time is right for this memory. */
  ghost predicate Right(core: Core, j: Job, iv: Block, mem: seq<byte>, input: nat, output: nat, n: nat, e: Entry)
    requires |iv| == BlockSize(j.id)
    requires input + Span(j.id, n) <= |mem| && output + Span(j.id, n) <= |mem|
  {
    Written(mem, LagStream(core, ActualJob(j, e), ActualChain(j, e, iv), ActualBacklog(j, e), mem, input, output, n).0, output, j.id,
            Run(core, j, iv, Blocks(mem, input, j.id, n)).0)
  }

  /** Then SUCCESS has one outcome. */
  lemma DrivenIs(core: Core, j: Job, iv: Block, before: seq<byte>, after: seq<byte>, input: nat, output: nat, n: nat, e: Entry)
    requires |iv| == BlockSize(j.id) && j.ready
    requires input + Span(j.id, n) <= |before| && output + Span(j.id, n) <= |before|
    requires forall i: nat :: i < Waits(j, n) ==> WaitTime(core, j, e, i) < BUSY_TIMEOUT
    ensures Driven(core, j, iv, before, after, input, output, n, e, true) <==>
            after == LagStream(core, ActualJob(j, e), ActualChain(j, e, iv), ActualBacklog(j, e), before, input, output, n).0
  {
    hide Step, LagStream, ActualJob, ActualChain, ActualBacklog, LoopEntry, Waits, WaitTime, Served;
    AllServed(core, j, n, e);
  }

  /**
   A call that reports SUCCESS has computed the mode's result, whatever was in memory, iff the layout is safe and nothing
   it found in the core could spoil it: no block, and for AES ECB and CBC decryption a preparation of its key that could
   begin or had begun, unless the core needs none.
   */
  lemma DriverExact(core: Core, j: Job, iv: Block, len: nat, input: nat, output: nat, n: nat, e: Entry)
    requires |iv| == BlockSize(j.id) && j.ready && Reversible(core, j) && 1 <= n
    requires input + Span(j.id, n) <= len && output + Span(j.id, n) <= len
    requires e.activity.Crunching? ==> e.activity.words != []
    requires forall i: nat :: i < Waits(j, n) ==> WaitTime(core, j, e, i) < BUSY_TIMEOUT
    ensures (Clean(j, e) || (Needs(j) && NoPreparationNeeded(core, j))) && !Clash(j.id, input, output, n) <==>
            forall before: seq<byte>, after: seq<byte> |
              |before| == len && Driven(core, j, iv, before, after, input, output, n, e, true) ::
              Written(before, after, output, j.id, Run(core, j, iv, Blocks(before, input, j.id, n)).0)
  {
    hide LagStream, Driven, Clean, NoPreparationNeeded, Clash, Written, Run, Blocks, Needs, Reversible, ActualJob, ActualChain,
      ActualBacklog, Waits, WaitTime;
    RightExact(core, j, iv, len, input, output, n, e);
    if mem: seq<byte> :| |mem| == len && !Right(core, j, iv, mem, input, output, n, e) {
      DrivenIs(core, j, iv, mem, LagStream(core, ActualJob(j, e), ActualChain(j, e, iv), ActualBacklog(j, e), mem, input, output, n).0,
               input, output, n, e);
    } else {
      forall before: seq<byte>, after: seq<byte> |
        |before| == len && Driven(core, j, iv, before, after, input, output, n, e, true)
        ensures Written(before, after, output, j.id, Run(core, j, iv, Blocks(before, input, j.id, n)).0)
      {
        DrivenIs(core, j, iv, before, after, input, output, n, e);
        assert Right(core, j, iv, before, input, output, n, e);
      }
    }
  }

  lemma RightExact(core: Core, j: Job, iv: Block, len: nat, input: nat, output: nat, n: nat, e: Entry)
    requires |iv| == BlockSize(j.id) && j.ready && Reversible(core, j) && 1 <= n
    requires input + Span(j.id, n) <= len && output + Span(j.id, n) <= len
    requires e.activity.Crunching? ==> e.activity.words != []
    ensures (Clean(j, e) || (Needs(j) && NoPreparationNeeded(core, j))) && !Clash(j.id, input, output, n) <==>
            forall mem: seq<byte> | |mem| == len :: Right(core, j, iv, mem, input, output, n, e)
  {
    hide LagStream, NoPreparationNeeded, Clash, Written, Run, Blocks, Reversible, ScheduleAfter, Begins, Span, Right;
    if Needs(j) && !Clean(j, e) && !NoPreparationNeeded(core, j) {
      var mem := UnreadyWrong(core, j, iv, len, input, output, n, e);
    } else {
      var v, q := if Needs(j) then iv else StartChain(j.id, e.activity, iv), if Needs(j) then [] else Backlog(e.activity);
      BacklogEmpty(e.activity);
      LagExact(core, j, v, iv, q, len, input, output, n);
      forall mem: seq<byte> | |mem| == len
        ensures Right(core, j, iv, mem, input, output, n, e) <==> LagFaithful(core, j, v, iv, q, mem, input, output, n)
      {
        RightIs(core, j, iv, mem, input, output, n, e);
      }
    }
  }

  lemma BacklogEmpty(activity: Activity)
    requires activity.Crunching? ==> activity.words != []
    ensures Backlog(activity) == [] <==> !activity.Crunching?
  {
    if activity.Crunching? {
      BytesLength(activity.words);
    }
  }

  lemma RightIs(core: Core, j: Job, iv: Block, mem: seq<byte>, input: nat, output: nat, n: nat, e: Entry)
    requires |iv| == BlockSize(j.id) && j.ready && (Needs(j) ==> Clean(j, e) || NoPreparationNeeded(core, j))
    requires input + Span(j.id, n) <= |mem| && output + Span(j.id, n) <= |mem|
    ensures var v, q := if Needs(j) then iv else StartChain(j.id, e.activity, iv), if Needs(j) then [] else Backlog(e.activity);
            Right(core, j, iv, mem, input, output, n, e) <==> LagFaithful(core, j, v, iv, q, mem, input, output, n)
  {
    hide LagStream, NoPreparationNeeded, Written, Run, Blocks, ScheduleAfter, Begins, Span;
    CleanMeans(j, e, iv);
    if Needs(j) && !Clean(j, e) {
      SameStreams(core, j, j.(ready := false), iv, [], mem, input, output, n);
    }
  }

  /** The loop with an unprepared key, where that makes no difference. */
  lemma {:induction false} SameStreams(s: Core, j: Job, r: Job, v: Block, q: seq<byte>, mem: seq<byte>, input: nat, output: nat, n: nat)
    requires |v| == BlockSize(j.id) && r == j.(ready := r.ready) && j.ready && NoPreparationNeeded(s, j)
    requires input + Span(j.id, n) <= |mem| && output + Span(j.id, n) <= |mem|
    ensures LagStream(s, r, v, q, mem, input, output, n) == LagStream(s, j, v, q, mem, input, output, n)
  {
    hide Step, LagStream, Slice, Store, NoPreparationNeeded;
    if n == 0 {
      LagZero(s, j, v, q, mem, input, output);
      LagZero(s, r, v, q, mem, input, output);
    } else {
      SameStreams(s, j, r, v, q, mem, input, output, n - 1);
      LagSnoc(s, j, v, q, mem, input, output, n);
      LagSnoc(s, r, v, q, mem, input, output, n);
      var (m, v', _) := LagStream(s, j, v, q, mem, input, output, n - 1);
      SameStepAny(s, j, r, v', Slice(m, input, j.id, n - 1));
    }
  }

  lemma SameStepAny(s: Core, j: Job, r: Job, iv: Block, x: Block)
    requires |iv| == |x| == BlockSize(j.id) && r == j.(ready := r.ready) && j.ready && NoPreparationNeeded(s, j)
    ensures Step(s, r, iv, x) == Step(s, j, iv, x)
  {
    hide Step;
    SameStep(s, j, r, iv, x);
  }

  /** A memory whose first block is decrypted wrongly. */
  lemma UnreadyWrong(core: Core, j: Job, iv: Block, len: nat, input: nat, output: nat, n: nat, e: Entry) returns (mem: seq<byte>)
    requires |iv| == BlockSize(j.id) && j.ready && Needs(j) && 1 <= n && !Clean(j, e) && !NoPreparationNeeded(core, j)
    requires input + Span(j.id, n) <= len && output + Span(j.id, n) <= len
    ensures |mem| == len && !Right(core, j, iv, mem, input, output, n, e)
  {
    hide Step, LagStream, Stream, Run, Blocks, Slice, ScheduleAfter, Begins;
    var x: Block :| |x| == BlockSize(j.id) && core.unprepared(j.id, j.key, x) != core.dec(j.id, j.key, x);
    var r := j.(ready := false);
    mem := Store(Zeros(len), input, x);
    SliceStored(Zeros(len), input, j.id, 0, x);
    UnreadyDiffers(core, j, iv, x);
    CleanMeans(j, e, iv);
    LagNone(core, r, iv, mem, input, output, n);
    RunFirst(core, j, iv, mem, input, n);
    FirstBlock(core, r, iv, mem, input, output, n);
    hide Written;
    if Right(core, j, iv, mem, input, output, n, e) {
      WrittenFirst(mem, Stream(core, r, iv, mem, input, output, n).0, output, j.id, Run(core, j, iv, Blocks(mem, input, j.id, n)).0);
    }
  }

  lemma WrittenFirst(before: seq<byte>, after: seq<byte>, a: nat, c: CipherId, ys: seq<Block>)
    requires 1 <= |ys| && a + Span(c, |ys|) <= |before| && Written(before, after, a, c, ys)
    ensures Slice(after, a, c, 0) == ys[0]
  {
  }

  lemma FirstBlock(s: Core, j: Job, iv: Block, mem: seq<byte>, input: nat, output: nat, n: nat)
    requires |iv| == BlockSize(j.id) && 1 <= n
    requires input + Span(j.id, n) <= |mem| && output + Span(j.id, n) <= |mem|
    ensures Slice(Stream(s, j, iv, mem, input, output, n).0, output, j.id, 0) == Step(s, j, iv, Slice(mem, input, j.id, 0)).0
  {
    hide Step, Stream, Slice;
    var r, y := Stream(s, j, iv, mem, input, output, n).0, Step(s, j, iv, Slice(mem, input, j.id, 0)).0;
    forall k | 0 <= k < BlockSize(j.id) ensures Slice(r, output, j.id, 0)[k] == y[k] {
      FirstStays(s, j, iv, mem, input, output, n, output + k);
      SliceAt(r, output, j.id, 0, k);
    }
  }

  // ---- Context switch ----

  /** The job the registers describe after CRYP_SaveContext and CRYP_RestoreContext. */
  function RestoredJob(cr: Control, key: KeyRegs): Job {
    JobOf(cr.(enabled := false).(enabled := true), key, Unprepared)
  }

  /**
   A restored job computes what the suspended one would have, on every message, unless it is an AES ECB or CBC
   decryption; for those it does so iff the core decrypts correctly with an unprepared key.
   */
  lemma RestoreExact(core: Core, cr: Control, key: KeyRegs, schedule: Schedule)
    requires JobOf(cr, key, schedule).ready
    ensures var j := JobOf(cr, key, schedule);
            SameFunction(core, RestoredJob(cr, key), j) <==> !Needs(j) || NoPreparationNeeded(core, j)
  {
    var j := JobOf(cr, key, schedule);
    hide SameFunction, NoPreparationNeeded;
    if Needs(j) {
      UnreadyExact(core, j);
    } else {
      SameSelf(core, j);
    }
  }

  function Complement(b: Block): (r: Block)
    ensures |r| == |b|
  {
    seq(|b|, i requires 0 <= i < |b| => Other(b[i]))
  }

  /** A core that decrypts wrongly without a prepared key. */
  const FAULTY: Core := Silicon((c, k, b) => b, (c, k, b) => b, (c, k, b) => Complement(b), b => b, (t, w) => w, t => 0)

  /** AES-128 CBC decryption as CRYP_AES_CBC sets it up. */
  const DECRYPTING := Control(AES_CBC, Type8b, Key128b, Decrypt, true)

  /** With a key prepared as CRYP_AES_CBC does, suspended and resumed, the decryption of one block comes out wrong. */
  lemma RestoreBreaks(key: KeyRegs)
    ensures var j := JobOf(DECRYPTING, key, Prepared(AES128, key));
            var x := Zeros(16);
            && j.ready && AllBlocks([x], 16)
            && Run(FAULTY, RestoredJob(DECRYPTING, key), x, [x]) != Run(FAULTY, j, x, [x])
  {
    var x := Zeros(16);
    Differs(x[0]);
    assert Complement(x)[0] != x[0];
    UnreadyBreaks(FAULTY, JobOf(DECRYPTING, key, Prepared(AES128, key)), x);
  }

  /**
   A save while a block is in the core and none waits. In the ECB and CTR modes it never succeeds; in the CBC
   modes it succeeds iff the block is done in time and its result fits, and the result is then in the OUT FIFO, unread.
   */
  lemma MidBlockSave(u: Setting, s: State)
    requires Sound(s) && s.activity.Crunching? && s.inFifo == []
    ensures SaveChecksOutput(u.cr) ==> !Clears(u, s)
    ensures !SaveChecksOutput(u.cr) ==> (Clears(u, s) <==> |s.outFifo| + |s.activity.words| <= FIFO_DEPTH)
    ensures Time(u, s) == s.left + 1
    ensures Clears(u, s) ==> Rested(u, s).outFifo == s.outFifo + s.activity.words && Rested(u, s).iv == s.activity.next.Over(s.iv)
  {
    if Clears(u, s) {
      RestedOne(u, s);
    }
  }

  /**
   Everything another job may leave behind: registers, schedule, what is still going on in the core, the OUT FIFO, the
   operation count and memory.
   */
  datatype Leftover = Leftover(cr: Control, key: KeyRegs, iv: IvRegs, schedule: Schedule, activity: Activity, left: nat,
                               ops: nat, outFifo: seq<Word>, memory: seq<byte>)

  /** At most one block is unread, as after a success or after the time-out of a call that found the core empty. */
  predicate Plausible(l: Leftover) {
    && |l.outFifo| + InCore(l.activity) <= 4 && (l.activity.Crunching? ==> l.activity.words != [])
  }

  /** The bytes the other job has not read, and may be still to come. */
  function Residue(l: Leftover): seq<byte> {
    BytesOf(l.outFifo) + Backlog(l.activity)
  }

  /** The addresses of the suspended job's buffers. */
  predicate InBuffers(c: CipherId, input: nat, output: nat, n: nat, b: nat) {
    input <= b < input + Span(c, n) || output <= b < output + Span(c, n)
  }

  /** m in the buffers, w elsewhere. */
  function Overlay(c: CipherId, input: nat, output: nat, n: nat, m: seq<byte>, w: seq<byte>): (r: seq<byte>)
    requires |m| == |w|
    ensures |r| == |m| && forall b :: 0 <= b < |m| ==> r[b] == if InBuffers(c, input, output, n, b) then m[b] else w[b]
  {
    seq(|m|, b requires 0 <= b < |m| => if InBuffers(c, input, output, n, b) then m[b] else w[b])
  }

  /**
   Another job runs, and ends or times out: like every driver it flushes both FIFOs at its start, and it may write
   anywhere in memory but to the suspended job's buffers.
   */
  method OtherJob(dev: Cryp, mem: array<byte>, l: Leftover, c: CipherId, input: nat, output: nat, n: nat)
    requires dev.Valid() && Plausible(l) && |l.memory| == mem.Length
    modifies dev, mem
    ensures dev.Valid() && dev.cr == l.cr && dev.key == l.key
    ensures dev.Now() == State([], l.outFifo, l.iv, l.schedule, l.activity, l.left, l.ops)
    ensures mem[..] == Overlay(c, input, output, n, old(mem[..]), l.memory)
  {
    dev.FIFOFlush();
    dev.cr, dev.key, dev.iv, dev.schedule, dev.activity, dev.left, dev.ops, dev.outFifo :=
      l.cr, l.key, l.iv, l.schedule, l.activity, l.left, l.ops, l.outFifo;
    forall b | 0 <= b < mem.Length && !InBuffers(c, input, output, n, b) {
      mem[b] := l.memory[b];
    }
  }

  /**
   Save, another job, restore, from any state of the device. The save succeeds iff all words waiting make whole blocks,
   there is room for the results, the save does not look for them, and all is done within 65536 reads of SR. The results
   in the OUT FIFO are then lost; every register of the job is back, and a key preparation starts anew if the other job
   left the core idle. What the other job left in the core and the OUT FIFO is still there.
   */
  method SwitchOut(dev: Cryp, mem: array<byte>, repository: Context, l: Leftover,
                   c: CipherId, input: nat, output: nat, n: nat)
    returns (ok: bool, ghost lost: seq<Word>)
    requires dev.Valid() && Plausible(l) && |l.memory| == mem.Length
    modifies dev, mem
    ensures dev.Valid()
    ensures ok <==> Clears(old(dev.Set()), old(dev.Now())) && Time(old(dev.Set()), old(dev.Now())) <= SAVE_READS
    ensures ok ==> Sound(old(dev.Now())) && Due(old(dev.Set()), old(dev.Now())) <= FIFO_DEPTH
    ensures ok ==> lost == Rested(old(dev.Set()), old(dev.Now())).outFifo && |lost| == Due(old(dev.Set()), old(dev.Now()))
    ensures ok ==> dev.inFifo == [] && dev.outFifo == l.outFifo && dev.cr == old(dev.cr).(enabled := true) && dev.key == old(dev.key)
    ensures ok ==> dev.iv == Rested(old(dev.Set()), old(dev.Now())).iv && dev.schedule == Unprepared
    ensures ok ==> if old(dev.cr).algo.AES_KEY? && l.activity.Idle?
                   then dev.activity == Preparing(dev.cr.Id(), dev.key) && dev.ops == l.ops + 1
                   else dev.activity == l.activity && dev.left == l.left && dev.ops == l.ops
    ensures mem[..] == if ok then Overlay(c, input, output, n, old(mem[..]), l.memory) else old(mem[..])
    ensures !ok ==> dev.Now() == Polls(old(dev.Set()), old(dev.Now()), SAVE_READS) && dev.cr == old(dev.cr)
  {
    hide Poll, Polls, Sound, Settled, AtRest, Clears, Time, Due, Rested, Control.Bits, Decode, Overlay;
    ghost var u, s := dev.Set(), dev.Now();
    SavedRest(u, s);
    var context;
    ok, context := dev.SaveContext(repository, dev.key);
    lost := dev.outFifo;
    if ok {
      SettledIdle(u, dev.Now());
      DecodeBits(u.cr.(enabled := false));
      OtherJob(dev, mem, l, c, input, output, n);
      dev.RestoreContext(context);
    }
  }

  lemma SettledIdle(u: Setting, s: State)
    requires Settled(u, s)
    ensures s.activity == Idle && s.inFifo == []
  {
  }

  /** A successful save finds the device in its state of rest. */
  lemma SavedRest(u: Setting, s: State)
    requires Sound(s)
    ensures Clears(u, s) ==> Due(u, s) <= FIFO_DEPTH
    ensures Clears(u, s) && Time(u, s) <= SAVE_READS ==>
              Polls(u, s, SAVE_READS) == Rested(u, s) && |Rested(u, s).outFifo| == Due(u, s)
  {
    hide Poll, Polls, Sound, Due, Time, Remainder, Rested;
    if Clears(u, s) && Time(u, s) <= SAVE_READS {
      RestIff(u, s, SAVE_READS);
      PollsCount(u, s, SAVE_READS);
      RestTime(u, Polls(u, s, SAVE_READS));
    }
  }

  /** The loop can go on: at its head, nothing left over, with this job and chaining value. */
  ghost predicate Ready(dev: Cryp, j: Job, v: Block)
    reads dev
  {
    AtHead(dev) && Fresh(dev) && SoonJob(dev) == j && SoonChain(dev) == v
  }

  lemma ReadyMeans(dev: Cryp, j: Job, v: Block)
    requires Ready(dev, j, v)
    ensures dev.cr.Id() == j.id
  {
  }

  /** The loop is back at its head with its job, and whatever the other job left. */
  ghost predicate Resumed(dev: Cryp, j: Job, v: Block, l: Leftover)
    requires |v| == BlockSize(j.id)
    reads dev
  {
    && AtHead(dev) && SoonJob(dev) == j && SoonChain(dev) == StartChain(j.id, l.activity, v) && Unread(dev.Now()) == Residue(l)
    && dev.activity == l.activity && dev.left == l.left && dev.ops == l.ops
  }

  /** At the head of the block loop with nothing left over, the save succeeds, and the loop's job is back whatever the other job was. */
  method Interrupt(dev: Cryp, mem: array<byte>, repository: Context, l: Leftover, c: CipherId, input: nat, output: nat, n: nat,
                   ghost j: Job, ghost v: Block)
    returns (ok: bool)
    requires Ready(dev, j, v) && !Needs(j) && |v| == BlockSize(j.id) && Plausible(l) && |l.memory| == mem.Length
    modifies dev, mem
    ensures ok && Resumed(dev, j, v, l)
    ensures mem[..] == Overlay(c, input, output, n, old(mem[..]), l.memory)
  {
    hide ChainOfIv, JobOf, Overlay, Clears, Time, Rested, Due;
    FreshClears(dev.Set(), dev.Now());
    NoScheduleNeeded(dev.cr, dev.key, dev.schedule);
    ghost var lost;
    ok, lost := SwitchOut(dev, mem, repository, l, c, input, output, n);
    NoScheduleNeeded(dev.cr, dev.key, SoonSchedule(dev.Now()));
  }

  lemma FreshClears(u: Setting, s: State)
    requires Sound(s) && s.activity.Idle? && s.inFifo == [] && s.outFifo == []
    ensures Clears(u, s) && Time(u, s) <= SAVE_READS && Due(u, s) <= FIFO_DEPTH && Rested(u, s) == s
  {
  }

  lemma NoScheduleNeeded(cr: Control, key: KeyRegs, schedule: Schedule)
    requires !NeedsPreparation(cr.Id(), cr.Chain(), cr.dir)
    ensures JobOf(cr, key, schedule) == JobOf(cr, key, Unprepared)
  {
  }

  /** The block loop over one part of a message. */
  method RunPart(dev: Cryp, mem: array<byte>, input: nat, length: nat, output: nat) returns (ok: bool)
    requires AtHead(dev) && Fresh(dev) && Fits(dev.cr.Id(), mem.Length, input, length, output)
    modifies dev`inFifo, dev`outFifo, dev`iv, dev`schedule, dev`activity, dev`left, dev`ops, dev`polls, dev`peakIn, dev`peakOut, mem
    ensures var n := BlockCount(dev.cr.Id(), length);
            var k := Served(dev.core.latency, old(dev.ops), 0, n);
            && ok == (k == n)
            && mem[..] == Stream(dev.core, old(SoonJob(dev)), old(SoonChain(dev)), old(mem[..]), input, output, k).0
    ensures ok ==> AtHead(dev) && Fresh(dev) && SoonJob(dev) == old(SoonJob(dev)) &&
                   SoonChain(dev) == Stream(dev.core, old(SoonJob(dev)), old(SoonChain(dev)), old(mem[..]), input, output,
                                            BlockCount(dev.cr.Id(), length)).1
  {
    hide Step, ChainOfIv, JobOf, Stream, LagStream, BlockCount, AtHead, Progress, Performed, Unread;
    ghost var j, v, m, n := SoonJob(dev), SoonChain(dev), mem[..], BlockCount(dev.cr.Id(), length);
    ghost var k := Served(dev.core.latency, dev.ops, 0, n);
    FreshUnread(dev);
    LagNone(dev.core, j, v, m, input, output, n);
    LagNone(dev.core, j, v, m, input, output, k);
    ok := BlockLoop(dev, mem, input, length, output);
    PerformedClean(dev.core, j, v, m, mem[..], input, output, n, old(dev.ops), ok);
    if ok {
      ProgressFresh(dev, mem, j, v, m, input, output, n);
    }
  }

  /** The same in terms of a given job and chaining value. */
  method RunReady(dev: Cryp, mem: array<byte>, input: nat, length: nat, output: nat, ghost j: Job, ghost v: Block) returns (ok: bool)
    requires Ready(dev, j, v) && |v| == BlockSize(j.id) && Fits(j.id, mem.Length, input, length, output)
    modifies dev`inFifo, dev`outFifo, dev`iv, dev`schedule, dev`activity, dev`left, dev`ops, dev`polls, dev`peakIn, dev`peakOut, mem
    ensures var n := BlockCount(j.id, length);
            var k := Served(dev.core.latency, old(dev.ops), 0, n);
            && ok == (k == n) && mem[..] == Stream(dev.core, j, v, old(mem[..]), input, output, k).0
            && (ok ==> Ready(dev, j, Stream(dev.core, j, v, old(mem[..]), input, output, k).1))
  {
    hide Step, Stream, AtHead, Fresh, Fits, Span, BlockCount, Served;
    ok := RunPart(dev, mem, input, length, output);
  }

  lemma FreshUnread(dev: Cryp)
    requires Fresh(dev)
    ensures Unread(dev.Now()) == [] && Extra(dev.activity, dev.left) == 0
  {
  }

  lemma PerformedClean(core: Core, j: Job, v: Block, m: seq<byte>, after: seq<byte>, input: nat, output: nat, n: nat, base: nat, ok: bool)
    requires |v| == BlockSize(j.id)
    requires input + Span(j.id, n) <= |m| && output + Span(j.id, n) <= |m|
    requires Performed(core, j, v, [], m, after, input, output, n, base, 0, ok)
    ensures var k := Served(core.latency, base, 0, n);
            ok == (k == n) && after == LagStream(core, j, v, [], m, input, output, k).0
  {
  }

  lemma ProgressFresh(dev: Cryp, mem: array<byte>, j: Job, v: Block, m: seq<byte>, input: nat, output: nat, n: nat)
    requires |v| == BlockSize(j.id)
    requires input + Span(j.id, n) <= |m| && output + Span(j.id, n) <= |m|
    requires Progress(dev, mem, j, v, [], m, input, output, n) && dev.activity.Idle?
    ensures AtHead(dev) && Fresh(dev) && SoonJob(dev) == j
    ensures SoonChain(dev) == LagStream(dev.core, j, v, [], m, input, output, n).1
  {
    hide Step, LagStream;
    BytesLength(dev.outFifo);
  }

  /** The loop sees and changes only the buffers: run on other memory with the same buffers it does the same there. */
  lemma {:induction false} StreamOverlay(s: Core, j: Job, v: Block, m: seq<byte>, w: seq<byte>, input: nat, output: nat,
                                         k: nat, n: nat, i: nat)
    requires |v| == BlockSize(j.id) && |w| == |m| && i <= n
    requires input + Span(j.id, k + n) <= |m| && output + Span(j.id, k + n) <= |m|
    ensures var in2, out2 := input + Span(j.id, k), output + Span(j.id, k);
            var r := Stream(s, j, v, m, in2, out2, i);
            Stream(s, j, v, Overlay(j.id, input, output, k + n, m, w), in2, out2, i) ==
            (Overlay(j.id, input, output, k + n, r.0, w), r.1)
  {
    hide Step, Stream;
    var in2, out2 := input + Span(j.id, k), output + Span(j.id, k);
    var m' := Overlay(j.id, input, output, k + n, m, w);
    if i == 0 {
      StreamZero(s, j, v, m, in2, out2);
      StreamZero(s, j, v, m', in2, out2);
    } else {
      StreamOverlay(s, j, v, m, w, input, output, k, n, i - 1);
      var (r, u) := Stream(s, j, v, m, in2, out2, i - 1);
      StreamSnoc(s, j, v, m, in2, out2, i);
      StreamSnoc(s, j, v, m', in2, out2, i);
      OverlayTurn(r, w, j.id, input, output, k, n, i, Step(s, j, u, Slice(r, in2, j.id, i - 1)).0);
    }
  }

  lemma OverlayTurn(r: seq<byte>, w: seq<byte>, c: CipherId, input: nat, output: nat, k: nat, n: nat, i: nat, y: Block)
    requires |w| == |r| && 1 <= i <= n && |y| == BlockSize(c)
    requires input + Span(c, k + n) <= |r| && output + Span(c, k + n) <= |r|
    ensures var in2, out2 := input + Span(c, k), output + Span(c, k);
            && Slice(Overlay(c, input, output, k + n, r, w), in2, c, i - 1) == Slice(r, in2, c, i - 1)
            && Store(Overlay(c, input, output, k + n, r, w), out2 + Span(c, i - 1), y) ==
               Overlay(c, input, output, k + n, Store(r, out2 + Span(c, i - 1), y), w)
  {
  }

  /** What a run over two parts with another job in between leaves, when the waits end with k and then n' blocks finished. */
  lemma Together(s: Core, j: Job, iv: Block, m: seq<byte>, w: seq<byte>, m1: seq<byte>, v1: Block,
                 input: nat, output: nat, k: nat, n: nat, i: nat)
    requires |iv| == |v1| == BlockSize(j.id) && |w| == |m| == |m1| && i <= n
    requires input + Span(j.id, k + n) <= |m| && output + Span(j.id, k + n) <= |m|
    requires (m1, v1) == Stream(s, j, iv, m, input, output, k)
    ensures var r := Stream(s, j, v1, Overlay(j.id, input, output, k + n, m1, w), input + Span(j.id, k), output + Span(j.id, k), i);
            var all := Stream(s, j, iv, m, input, output, k + i);
            r == (Overlay(j.id, input, output, k + n, all.0, w), all.1)
  {
    hide Stream, Step;
    StreamOverlay(s, j, v1, m1, w, input, output, k, n, i);
    StreamSplit(s, j, iv, m, input, output, k, i);
  }

  /**
   The waits of both parts that end in time: those of the second part begin after the other job's operations, with the one
   still going on.
   */
  function ServedParts(latency: nat -> nat, base: nat, k: nat, l: Leftover, n: nat): (i: nat)
    ensures i <= k + n
  {
    var i := Served(latency, base, 0, k);
    if i < k then i else k + Served(latency, l.ops, Extra(l.activity, l.left), n)
  }

  /** The memory when i blocks are finished: once the first part is over, the other job has run, and what it left over comes first. */
  function MemoryAfter(core: Core, j: Job, iv: Block, m: seq<byte>, l: Leftover, input: nat, output: nat, k: nat, n: nat, i: nat)
    : seq<byte>
    requires |iv| == BlockSize(j.id) && |l.memory| == |m| && i <= k + n
    requires input + Span(j.id, k + n) <= |m| && output + Span(j.id, k + n) <= |m|
  {
    if i < k then Stream(core, j, iv, m, input, output, i).0
    else
      var (m1, v) := Stream(core, j, iv, m, input, output, k);
      LagStream(core, j, StartChain(j.id, l.activity, v), Residue(l), Overlay(j.id, input, output, k + n, m1, l.memory),
                input + Span(j.id, k), output + Span(j.id, k), i - k).0
  }

  /** The outcome of both parts, in terms of the waits. */
  ghost predicate PartsDone(core: Core, j: Job, iv: Block, m: seq<byte>, l: Leftover, after: seq<byte>,
                            input: nat, output: nat, k: nat, n: nat, i: nat, ok: bool)
    requires |iv| == BlockSize(j.id) && |l.memory| == |m| && i <= k + n
    requires input + Span(j.id, k + n) <= |m| && output + Span(j.id, k + n) <= |m|
  {
    ok == (i == k + n) && after == MemoryAfter(core, j, iv, m, l, input, output, k, n, i)
  }

  /** From the end of the first part on. */
  method Resume(dev: Cryp, mem: array<byte>, input: nat, second: nat, output: nat, repository: Context, l: Leftover,
                k: nat, n: nat, first: nat, ghost j: Job, ghost iv: Block, ghost m: seq<byte>, ghost v: Block)
    returns (ok: bool)
    requires Ready(dev, j, v) && !Needs(j) && |iv| == BlockSize(j.id) && Plausible(l) && |l.memory| == mem.Length == |m|
    requires first == Span(j.id, k) && n == BlockCount(j.id, second) && Fits(j.id, mem.Length, input + first, second, output + first)
    requires input + Span(j.id, k + n) <= |m| && output + Span(j.id, k + n) <= |m|
    requires (mem[..], v) == Stream(dev.core, j, iv, m, input, output, k)
    modifies dev, mem
    ensures PartsDone(dev.core, j, iv, m, l, mem[..], input, output, k, n,
                      k + Served(dev.core.latency, l.ops, Extra(l.activity, l.left), n), ok)
    ensures ok && Residue(l) == [] && 1 <= n ==> Ready(dev, j, Stream(dev.core, j, iv, m, input, output, k + n).1)
  {
    hide *;
    ghost var m1 := mem[..];
    ReadyMeans(dev, j, v);
    ok := Interrupt(dev, mem, repository, l, dev.cr.Id(), input, output, k + n, j, v);
    ResumedMeans(dev, j, v, l);
    ghost var over, v' := mem[..], SoonChain(dev);
    LaterFits(j.id, mem.Length, input, output, k, n);
    ok := BlockLoop(dev, mem, input + first, second, output + first);
    PartTwo(dev.core, j, iv, m, l, m1, v, over, mem[..], input, output, k, n, ok);
    if ok && Residue(l) == [] && 1 <= n {
      PartTwoReady(dev, mem, j, iv, m, l, m1, v, over, input, output, k, n);
    }
  }

  lemma ResumedMeans(dev: Cryp, j: Job, v: Block, l: Leftover)
    requires |v| == BlockSize(j.id) && Resumed(dev, j, v, l)
    ensures AtHead(dev) && SoonJob(dev) == j && SoonChain(dev) == StartChain(j.id, l.activity, v) && Unread(dev.Now()) == Residue(l)
    ensures dev.activity == l.activity && dev.left == l.left && dev.ops == l.ops && dev.cr.Id() == j.id
    ensures |SoonChain(dev)| == BlockSize(j.id)
  {
  }

  lemma LaterFits(c: CipherId, size: nat, input: nat, output: nat, k: nat, n: nat)
    requires input + Span(c, k + n) <= size && output + Span(c, k + n) <= size
    ensures input + Span(c, k) + Span(c, n) == input + Span(c, k + n) && output + Span(c, k) + Span(c, n) == output + Span(c, k + n)
  {
  }

  lemma PartTwo(core: Core, j: Job, iv: Block, m: seq<byte>, l: Leftover, m1: seq<byte>, v: Block, over: seq<byte>, after: seq<byte>,
                input: nat, output: nat, k: nat, n: nat, ok: bool)
    requires |iv| == |v| == BlockSize(j.id) && |l.memory| == |m| == |m1|
    requires input + Span(j.id, k + n) <= |m| && output + Span(j.id, k + n) <= |m|
    requires (m1, v) == Stream(core, j, iv, m, input, output, k) && over == Overlay(j.id, input, output, k + n, m1, l.memory)
    requires Performed(core, j, StartChain(j.id, l.activity, v), Residue(l), over, after,
                       input + Span(j.id, k), output + Span(j.id, k), n, l.ops, Extra(l.activity, l.left), ok)
    ensures PartsDone(core, j, iv, m, l, after, input, output, k, n, k + Served(core.latency, l.ops, Extra(l.activity, l.left), n), ok)
  {
    hide Step, Stream, LagStream, Overlay, Residue, StartChain, Served, Extra;
  }

  /** If nothing was left over, the device is back where an uninterrupted loop would be. */
  lemma PartTwoReady(dev: Cryp, mem: array<byte>, j: Job, iv: Block, m: seq<byte>, l: Leftover, m1: seq<byte>, v: Block,
                     over: seq<byte>, input: nat, output: nat, k: nat, n: nat)
    requires |iv| == |v| == BlockSize(j.id) && |l.memory| == |m| == |m1| && Plausible(l) && Residue(l) == [] && 1 <= n
    requires input + Span(j.id, k + n) <= |m| && output + Span(j.id, k + n) <= |m|
    requires (m1, v) == Stream(dev.core, j, iv, m, input, output, k) && over == Overlay(j.id, input, output, k + n, m1, l.memory)
    requires Progress(dev, mem, j, StartChain(j.id, l.activity, v), [], over, input + Span(j.id, k), output + Span(j.id, k), n)
    ensures Ready(dev, j, Stream(dev.core, j, iv, m, input, output, k + n).1)
  {
    hide Step, Stream, LagStream, Overlay, Residue, AtHead, SoonJob, SoonChain, Unread;
    ResidueEmpty(l);
    var in2, out2 := input + Span(j.id, k), output + Span(j.id, k);
    LagNone(dev.core, j, v, over, in2, out2, n);
    Together(dev.core, j, iv, m, l.memory, m1, v, input, output, k, n, n);
    ProgressFresh(dev, mem, j, v, over, in2, out2, n);
  }

  lemma ResidueEmpty(l: Leftover)
    requires Plausible(l)
    ensures Residue(l) == [] <==> l.outFifo == [] && !l.activity.Crunching?
  {
    BytesLength(l.outFifo);
    BacklogEmpty(l.activity);
  }

  /** If nothing was left over, both parts together do what one uninterrupted run does. */
  lemma SwitchedSame(core: Core, j: Job, iv: Block, m: seq<byte>, l: Leftover, input: nat, output: nat, k: nat, n: nat, i: nat)
    requires |iv| == BlockSize(j.id) && |l.memory| == |m| && k <= i <= k + n && Plausible(l) && Residue(l) == []
    requires input + Span(j.id, k + n) <= |m| && output + Span(j.id, k + n) <= |m|
    ensures MemoryAfter(core, j, iv, m, l, input, output, k, n, i) ==
            Overlay(j.id, input, output, k + n, Stream(core, j, iv, m, input, output, i).0, l.memory)
  {
    hide Step, Stream, LagStream, Overlay, Residue;
    ResidueEmpty(l);
    var (m1, v) := Stream(core, j, iv, m, input, output, k);
    LagNone(core, j, v, Overlay(j.id, input, output, k + n, m1, l.memory), input + Span(j.id, k), output + Span(j.id, k), i - k);
    Together(core, j, iv, m, l.memory, m1, v, input, output, k, n, i - k);
  }

  /**
   The resumed job leaves in its buffers what one uninterrupted run leaves, whatever was in memory, iff the other job left no
   block in the core and nothing in the OUT FIFO. A key preparation going on only makes it wait.
   */
  lemma SwitchedExact(core: Core, j: Job, iv: Block, l: Leftover, input: nat, output: nat, k: nat, n: nat)
    requires |iv| == BlockSize(j.id) && Reversible(core, j) && 1 <= n && Plausible(l)
    requires input + Span(j.id, k + n) <= |l.memory| && output + Span(j.id, k + n) <= |l.memory|
    requires !Clash(j.id, input, output, k + n)
    ensures l.outFifo == [] && !l.activity.Crunching? <==>
            forall m: seq<byte> | |m| == |l.memory| ::
              MemoryAfter(core, j, iv, m, l, input, output, k, n, k + n) ==
              Overlay(j.id, input, output, k + n, Stream(core, j, iv, m, input, output, k + n).0, l.memory)
  {
    hide Step, Stream, LagStream, Overlay, Residue, MemoryAfter, Clash, Reversible, Plausible;
    ResidueEmpty(l);
    if Residue(l) == [] {
      forall m: seq<byte> | |m| == |l.memory|
        ensures MemoryAfter(core, j, iv, m, l, input, output, k, n, k + n) ==
                Overlay(j.id, input, output, k + n, Stream(core, j, iv, m, input, output, k + n).0, l.memory)
      {
        SwitchedSame(core, j, iv, m, l, input, output, k, n, k + n);
      }
    } else {
      var m := SwitchedBreaks(core, j, iv, l, input, output, k, n);
    }
  }

  /** A message whose next block must not begin as what is left over does. */
  lemma SwitchedBreaks(core: Core, j: Job, iv: Block, l: Leftover, input: nat, output: nat, k: nat, n: nat) returns (m: seq<byte>)
    requires |iv| == BlockSize(j.id) && Reversible(core, j) && 1 <= n && Residue(l) != []
    requires input + Span(j.id, k + n) <= |l.memory| && output + Span(j.id, k + n) <= |l.memory|
    requires !Clash(j.id, input, output, k + n)
    ensures |m| == |l.memory|
    ensures MemoryAfter(core, j, iv, m, l, input, output, k, n, k + n)[output + Span(j.id, k)] !=
            Overlay(j.id, input, output, k + n, Stream(core, j, iv, m, input, output, k + n).0, l.memory)[output + Span(j.id, k)]
  {
    hide Step, Stream, LagStream, Residue, Reversible, Run, Blocks, MemoryAfter, Clash, Overlay;
    var z, a := Zeros(|l.memory|), input + Span(j.id, k);
    var v := Run(core, j, iv, Blocks(z, input, j.id, k)).1;
    m := Choose(core, j, v, Residue(l)[0], z, a);
    SameBlocks(z, m, input, j.id, k);
    ResidueFirst(core, j, iv, m, l, input, output, k, n);
    NextFirst(core, j, iv, m, input, output, k, n);
    InBuffer(j.id, input, output, k, n, Stream(core, j, iv, m, input, output, k + n).0, l.memory);
  }

  lemma InBuffer(c: CipherId, input: nat, output: nat, k: nat, n: nat, m: seq<byte>, w: seq<byte>)
    requires |m| == |w| && 1 <= n && output + Span(c, k + n) <= |m|
    ensures Overlay(c, input, output, k + n, m, w)[output + Span(c, k)] == m[output + Span(c, k)]
  {
  }

  /** What is left over comes first. */
  lemma ResidueFirst(core: Core, j: Job, iv: Block, m: seq<byte>, l: Leftover, input: nat, output: nat, k: nat, n: nat)
    requires |iv| == BlockSize(j.id) && |l.memory| == |m| && 1 <= n && Residue(l) != []
    requires input + Span(j.id, k + n) <= |m| && output + Span(j.id, k + n) <= |m|
    ensures MemoryAfter(core, j, iv, m, l, input, output, k, n, k + n)[output + Span(j.id, k)] == Residue(l)[0]
  {
    hide Stream, LagStream, Residue, Overlay;
    var (m1, v) := Stream(core, j, iv, m, input, output, k);
    LagFirst(core, j, StartChain(j.id, l.activity, v), Residue(l), Overlay(j.id, input, output, k + n, m1, l.memory),
             input + Span(j.id, k), output + Span(j.id, k), n);
  }

  /** Without interruption it is the result of block k. */
  lemma NextFirst(core: Core, j: Job, iv: Block, m: seq<byte>, input: nat, output: nat, k: nat, n: nat)
    requires |iv| == BlockSize(j.id) && 1 <= n && !Clash(j.id, input, output, k + n)
    requires input + Span(j.id, k + n) <= |m| && output + Span(j.id, k + n) <= |m|
    ensures var a := input + Span(j.id, k);
            Stream(core, j, iv, m, input, output, k + n).0[output + Span(j.id, k)] ==
            Step(core, j, Run(core, j, iv, Blocks(m, input, j.id, k)).1, m[a..a + BlockSize(j.id)]).0[0]
  {
    hide Step, Stream, Run, Blocks, Slice, Written;
    var in2, out2 := input + Span(j.id, k), output + Span(j.id, k);
    StreamComputesRun(core, j, iv, m, input, output, k);
    var (m1, v) := Stream(core, j, iv, m, input, output, k);
    StreamSplit(core, j, iv, m, input, output, k, n);
    FirstStays(core, j, v, m1, in2, out2, n, out2);
    NextIntact(m, m1, input, output, j.id, k, n, Run(core, j, iv, Blocks(m, input, j.id, k)).0);
  }

  lemma {:induction false} SameBlocks(z: seq<byte>, m: seq<byte>, a: nat, c: CipherId, k: nat)
    requires |z| == |m| && a + Span(c, k) <= |z| && forall b :: 0 <= b < a + Span(c, k) ==> m[b] == z[b]
    ensures Blocks(m, a, c, k) == Blocks(z, a, c, k)
  {
    if k != 0 {
      SameBlocks(z, m, a, c, k - 1);
      assert Slice(m, a, c, k - 1) == Slice(z, a, c, k - 1);
    }
  }

  lemma NextIntact(m: seq<byte>, m1: seq<byte>, input: nat, output: nat, c: CipherId, k: nat, n: nat, ys: seq<Block>)
    requires input + Span(c, k + n) <= |m| && output + Span(c, k + n) <= |m| && 1 <= n && |ys| == k
    requires Written(m, m1, output, c, ys) && !Clash(c, input, output, k + n)
    ensures Slice(m1, input + Span(c, k), c, 0) == m[input + Span(c, k)..input + Span(c, k) + BlockSize(c)]
  {
  }

  /**
   A job suspended at a block boundary, with any other job run in between that leaves its buffers alone, and resumed. It succeeds
   iff all waits of both parts end in time, the first wait after the resumption with what the other job left going on. After
   ERROR memory is what the blocks finished before leave. See SwitchedSame and SwitchedExact for the result. AES ECB and CBC
   decryption are excluded (see RestoreExact).
   */
  method SwitchedRun(dev: Cryp, mem: array<byte>, input: nat, first: nat, second: nat, output: nat,
                     repository: Context, l: Leftover, k: nat, n: nat, ghost j: Job, ghost iv: Block, ghost m: seq<byte>)
    returns (ok: bool)
    requires Ready(dev, j, iv) && !Needs(j) && m == mem[..] && Plausible(l) && |l.memory| == mem.Length
    requires |iv| == BlockSize(j.id) && Fits(j.id, mem.Length, input, first + second, output)
    requires k == BlockCount(j.id, first) && first == Span(j.id, k) && n == BlockCount(j.id, second)
    requires input + Span(j.id, k + n) <= |m| && output + Span(j.id, k + n) <= |m|
    modifies dev, mem
    ensures k + n == BlockCount(j.id, first + second)
    ensures PartsDone(dev.core, j, iv, m, l, mem[..], input, output, k, n,
                      ServedParts(dev.core.latency, old(dev.ops), k, l, n), ok)
    ensures ok && Residue(l) == [] && 1 <= n ==> Ready(dev, j, Stream(dev.core, j, iv, m, input, output, k + n).1)
  {
    hide *;
    ReadyMeans(dev, j, iv);
    PartsFit(j.id, mem.Length, input, first, second, output, k, n);
    FirstOutcome(dev.core, j, iv, m, l, input, output, k, n, dev.ops);
    ok := RunReady(dev, mem, input, first, output, j, iv);
    if ok {
      ok := Resume(dev, mem, input, second, output, repository, l, k, n, first, j, iv, m,
                   Stream(dev.core, j, iv, m, input, output, k).1);
    }
  }

  /** If the first part fails, that is the outcome; if not, the second part decides. */
  lemma FirstOutcome(core: Core, j: Job, iv: Block, m: seq<byte>, l: Leftover, input: nat, output: nat, k: nat, n: nat, base: nat)
    requires |iv| == BlockSize(j.id) && |l.memory| == |m|
    requires input + Span(j.id, k + n) <= |m| && output + Span(j.id, k + n) <= |m|
    ensures var i := Served(core.latency, base, 0, k);
            && ServedParts(core.latency, base, k, l, n) ==
               (if i < k then i else k + Served(core.latency, l.ops, Extra(l.activity, l.left), n))
            && (i < k ==> PartsDone(core, j, iv, m, l, Stream(core, j, iv, m, input, output, i).0, input, output, k, n, i, false))
  {
  }

  lemma PartsFit(c: CipherId, size: nat, input: nat, first: nat, second: nat, output: nat, k: nat, n: nat)
    requires Fits(c, size, input, first + second, output)
    requires k == BlockCount(c, first) && first == Span(c, k) && n == BlockCount(c, second)
    ensures k + n == BlockCount(c, first + second)
    ensures Fits(c, size, input, first, output) && Fits(c, size, input + first, second, output + first)
    ensures input + Span(c, k + n) <= size && output + Span(c, k + n) <= size
  {
  }
}
