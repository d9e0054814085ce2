/**
 Block cipher modes of operation as the CRYP processor computes them, block by block
 with a chaining register, and as NIST SP 800-38A defines them (sections 6.1, 6.2, 6.5).
 The ciphers themselves are unknown functions.
 */
module Modes {
  import opened Bytes
  import Pigeonhole

  type Block = seq<byte>

  /** The key registers K0LR to K3RR. */
  datatype KeyRegs = KeyRegs(k0l: Word, k0r: Word, k1l: Word, k1r: Word, k2l: Word, k2r: Word, k3l: Word, k3r: Word)
  {
    /** The 32 key bytes, most significant register and byte first. */
    function Image(): (b: seq<byte>)
      ensures |b| == 32
    {
      k0l.MsbFirst() + k0r.MsbFirst() + k1l.MsbFirst() + k1r.MsbFirst() +
      k2l.MsbFirst() + k2r.MsbFirst() + k3l.MsbFirst() + k3r.MsbFirst()
    }
  }

  /** CRYP_KeyStructInit. */
  const ZERO_KEY := KeyRegs(ZERO_WORD, ZERO_WORD, ZERO_WORD, ZERO_WORD, ZERO_WORD, ZERO_WORD, ZERO_WORD, ZERO_WORD)

  datatype CipherId = AES128 | AES192 | AES256 | DES | TDES

  predicate IsAes(c: CipherId) {
    c.AES128? || c.AES192? || c.AES256?
  }

  /** The number of bytes in k blocks. */
  function Span(c: CipherId, k: nat): nat {
    if IsAes(c) then 16 * k else 8 * k
  }

  function BlockSize(c: CipherId): nat {
    Span(c, 1)
  }

  /**
   What is assumed of the silicon: a cipher and its inverse for each content of the key registers, what
   AES decryption yields when the key was not prepared, the counter increment of CTR mode, the
   data swapping of the data types the drivers never use for data, and the number of status
   reads that see BUSY set during the t-th operation of the core.
   */
  datatype Silicon = Silicon(
    enc: (CipherId, KeyRegs, Block) -> Block,
    dec: (CipherId, KeyRegs, Block) -> Block,
    unprepared: (CipherId, KeyRegs, Block) -> Block,
    inc: Block -> Block,
    swap: (bv32, Word) -> Word,
    latency: nat -> nat)

  /** Every function maps blocks to blocks of the same size. */
  ghost predicate Sized(s: Silicon) {
    && (forall c, k, b :: |b| == BlockSize(c) ==> |s.enc(c, k, b)| == BlockSize(c))
    && (forall c, k, b :: |b| == BlockSize(c) ==> |s.dec(c, k, b)| == BlockSize(c))
    && (forall c, k, b :: |b| == BlockSize(c) ==> |s.unprepared(c, k, b)| == BlockSize(c))
    && (forall b :: |s.inc(b)| == |b|)
  }

  type Core = s: Silicon | Sized(s)
    witness Silicon((c, k, b) => b, (c, k, b) => b, (c, k, b) => b, b => b, (t, w) => w, t => 0)

  /** Decryption under the same key undoes encryption. */
  ghost predicate Invertible(s: Core) {
    forall c, k, b :: |b| == BlockSize(c) ==> s.dec(c, k, s.enc(c, k, b)) == b
  }

  datatype Chain = ECB | CBC | CTR
  datatype Direction = Encrypt | Decrypt

  /** A configured core. ready is false only when AES ECB/CBC decryption lacks a prepared key. */
  datatype Job = Job(id: CipherId, chain: Chain, dir: Direction, key: KeyRegs, ready: bool)

  function Forward(s: Core, j: Job, x: Block): (y: Block)
    requires |x| == BlockSize(j.id)
    ensures |y| == BlockSize(j.id)
  {
    s.enc(j.id, j.key, x)
  }

  function Backward(s: Core, j: Job, x: Block): (y: Block)
    requires |x| == BlockSize(j.id)
    ensures |y| == BlockSize(j.id)
  {
    if j.ready then s.dec(j.id, j.key, x) else s.unprepared(j.id, j.key, x)
  }

  /** One block through the core: the output block and the next content of the chaining register. */
  function Step(s: Core, j: Job, iv: Block, x: Block): (r: (Block, Block))
    requires |x| == |iv| == BlockSize(j.id)
    ensures |r.0| == |r.1| == BlockSize(j.id)
  {
    match (j.chain, j.dir)
    case (ECB, Encrypt) => (Forward(s, j, x), iv)
    case (ECB, Decrypt) => (Backward(s, j, x), iv)
    case (CBC, Encrypt) => var y := Forward(s, j, Xor(x, iv)); (y, y)
    case (CBC, Decrypt) => (Xor(Backward(s, j, x), iv), x)
    case (CTR, _) => (Xor(x, Forward(s, j, iv)), s.inc(iv))
  }

  predicate AllBlocks(xs: seq<Block>, size: nat) {
    forall i :: 0 <= i < |xs| ==> |xs[i]| == size
  }

  /** A whole message through the core: the output blocks and the chaining register afterwards. */
  function Run(s: Core, j: Job, iv: Block, xs: seq<Block>): (r: (seq<Block>, Block))
    requires |iv| == BlockSize(j.id) && AllBlocks(xs, BlockSize(j.id))
    ensures |r.0| == |xs| && AllBlocks(r.0, BlockSize(j.id)) && |r.1| == BlockSize(j.id)
  {
    if xs == [] then ([], iv) else
      var last := |xs| - 1;
      var (ys, v) := Run(s, j, iv, xs[..last]);
      var (y, v') := Step(s, j, v, xs[last]);
      (ys + [y], v')
  }

  /** Running a message in two parts, the second from the chaining value the first left, is running it at once. */
  lemma {:induction false} RunSplit(s: Core, j: Job, iv: Block, xs: seq<Block>, zs: seq<Block>)
    requires |iv| == BlockSize(j.id) && AllBlocks(xs, BlockSize(j.id)) && AllBlocks(zs, BlockSize(j.id))
    ensures Run(s, j, iv, xs + zs) ==
            (Run(s, j, iv, xs).0 + Run(s, j, Run(s, j, iv, xs).1, zs).0, Run(s, j, Run(s, j, iv, xs).1, zs).1)
  {
    if zs == [] {
      assert xs + zs == xs;
      assert Run(s, j, iv, xs).0 + [] == Run(s, j, iv, xs).0;
    } else {
      var last := |zs| - 1;
      RunSplit(s, j, iv, xs, zs[..last]);
      assert (xs + zs)[..|xs + zs| - 1] == xs + zs[..last];
      assert (xs + zs)[|xs + zs| - 1] == zs[last];
      var (ys, v) := Run(s, j, iv, xs);
      var (ws, u) := Run(s, j, v, zs[..last]);
      assert (ys + ws) + [Step(s, j, u, zs[last]).0] == ys + (ws + [Step(s, j, u, zs[last]).0]);
    }
  }

  // ---- The standard's definitions ----

  /** The i-th counter block, T(i+1) of section 6.5. */
  function Counter(s: Core, iv: Block, i: nat): (t: Block)
    ensures |t| == |iv|
  {
    if i == 0 then iv else s.inc(Counter(s, iv, i - 1))
  }

  /** The block a CBC block is chained to: the initialization vector, then the previous ciphertext. */
  function Previous(iv: Block, cs: seq<Block>, i: nat): Block
    requires i <= |cs|
  {
    if i == 0 then iv else cs[i - 1]
  }

  /** Output block i is what sections 6.1 (ECB), 6.2 (CBC) and 6.5 (CTR) of NIST SP 800-38A prescribe. */
  predicate MeetsAt(s: Core, j: Job, iv: Block, xs: seq<Block>, ys: seq<Block>, i: nat)
    requires |iv| == BlockSize(j.id) && AllBlocks(xs, BlockSize(j.id)) && AllBlocks(ys, BlockSize(j.id))
    requires i < |xs| == |ys|
  {
    match (j.chain, j.dir)
    case (ECB, Encrypt) => ys[i] == Forward(s, j, xs[i])
    case (ECB, Decrypt) => ys[i] == Backward(s, j, xs[i])
    case (CBC, Encrypt) => ys[i] == Forward(s, j, Xor(xs[i], Previous(iv, ys, i)))
    case (CBC, Decrypt) => ys[i] == Xor(Backward(s, j, xs[i]), Previous(iv, xs, i))
    case (CTR, _) => ys[i] == Xor(xs[i], Forward(s, j, Counter(s, iv, i)))
  }

  predicate Meets(s: Core, j: Job, iv: Block, xs: seq<Block>, ys: seq<Block>)
    requires |iv| == BlockSize(j.id) && AllBlocks(xs, BlockSize(j.id)) && AllBlocks(ys, BlockSize(j.id))
  {
    |ys| == |xs| && forall i :: 0 <= i < |xs| ==> MeetsAt(s, j, iv, xs, ys, i)
  }

  /** What the chaining register holds after the whole message. */
  function ChainValue(s: Core, j: Job, iv: Block, xs: seq<Block>, ys: seq<Block>): Block
    requires |ys| == |xs|
  {
    match j.chain
    case ECB => iv
    case CBC => Previous(iv, if j.dir.Encrypt? then ys else xs, |xs|)
    case CTR => Counter(s, iv, |xs|)
  }

  /** The streaming computation is the standard's function: its output meets the definition and nothing else does. */
  lemma {:induction false} RunMeetsStandard(s: Core, j: Job, iv: Block, xs: seq<Block>, ys: seq<Block>)
    requires |iv| == BlockSize(j.id) && AllBlocks(xs, BlockSize(j.id)) && AllBlocks(ys, BlockSize(j.id))
    ensures Meets(s, j, iv, xs, ys) <==> ys == Run(s, j, iv, xs).0
    ensures Run(s, j, iv, xs).1 == ChainValue(s, j, iv, xs, Run(s, j, iv, xs).0)
    decreases |xs|, if |ys| == |xs| then 0 else 1
  {
    if |ys| != |xs| {
      RunMeetsStandard(s, j, iv, xs, Run(s, j, iv, xs).0);
    } else if xs != [] {
      var last := |xs| - 1;
      RunMeetsStandard(s, j, iv, xs[..last], ys[..last]);
      MeetsLast(s, j, iv, xs, ys);
      var (zs, v) := Run(s, j, iv, xs[..last]);
      var y := Step(s, j, v, xs[last]).0;
      assert ys == ys[..last] + [ys[last]];
      assert (zs + [y])[..last] == zs && (zs + [y])[last] == y;
    }
  }

  /** Meeting the standard, one block at a time. */
  lemma MeetsLast(s: Core, j: Job, iv: Block, xs: seq<Block>, ys: seq<Block>)
    requires |iv| == BlockSize(j.id) && AllBlocks(xs, BlockSize(j.id)) && AllBlocks(ys, BlockSize(j.id))
    requires 0 < |xs| == |ys|
    ensures var last := |xs| - 1;
            Meets(s, j, iv, xs, ys) <==>
            && Meets(s, j, iv, xs[..last], ys[..last])
            && ys[last] == Step(s, j, ChainValue(s, j, iv, xs[..last], ys[..last]), xs[last]).0
  {
    var last := |xs| - 1;
    var xs', ys' := xs[..last], ys[..last];
    forall i | 0 <= i < last
      ensures MeetsAt(s, j, iv, xs', ys', i) <==> MeetsAt(s, j, iv, xs, ys, i)
    {
      assert Previous(iv, ys', i) == Previous(iv, ys, i);
      assert Previous(iv, xs', i) == Previous(iv, xs, i);
    }
    assert Previous(iv, ys', last) == Previous(iv, ys, last);
    assert Previous(iv, xs', last) == Previous(iv, xs, last);
    assert MeetsAt(s, j, iv, xs, ys, last) <==> ys[last] == Step(s, j, ChainValue(s, j, iv, xs', ys'), xs[last]).0;
    if Meets(s, j, iv, xs, ys) {
      forall i | 0 <= i < last ensures MeetsAt(s, j, iv, xs', ys', i) {
        assert MeetsAt(s, j, iv, xs, ys, i);
      }
    }
  }

  // ---- The same, byte by byte on the cipher itself ----

  lemma RunMeets(s: Core, j: Job, iv: Block, xs: seq<Block>, i: nat)
    requires |iv| == BlockSize(j.id) && AllBlocks(xs, BlockSize(j.id)) && i < |xs|
    ensures MeetsAt(s, j, iv, xs, Run(s, j, iv, xs).0, i)
  {
    hide MeetsAt, Run, Step;
    RunMeetsStandard(s, j, iv, xs, Run(s, j, iv, xs).0);
  }

  /** ECB: each block on its own. */
  lemma EcbBlocks(s: Core, j: Job, iv: Block, xs: seq<Block>, i: nat)
    requires |iv| == BlockSize(j.id) && AllBlocks(xs, BlockSize(j.id)) && i < |xs| && j.chain.ECB?
    ensures j.dir.Encrypt? ==> Run(s, j, iv, xs).0[i] == s.enc(j.id, j.key, xs[i])
    ensures j.dir.Decrypt? && j.ready ==> Run(s, j, iv, xs).0[i] == s.dec(j.id, j.key, xs[i])
  {
    RunMeets(s, j, iv, xs, i);
    hide Run;
  }

  /** CBC encryption: every byte of z is that of the input block x added to that of p, the output block before or the vector. */
  lemma CbcEncryptBytes(s: Core, j: Job, iv: Block, xs: seq<Block>, i: nat, x: Block, p: Block, z: Block)
    requires |iv| == BlockSize(j.id) && AllBlocks(xs, BlockSize(j.id)) && i < |xs| && j.chain.CBC? && j.dir.Encrypt?
    requires x == xs[i] && p == (if i == 0 then iv else Run(s, j, iv, xs).0[i - 1])
    requires |x| == |p| == |z| && forall b :: 0 <= b < |z| ==> z[b] == x[b] ^ p[b]
    ensures |z| == BlockSize(j.id) && Run(s, j, iv, xs).0[i] == s.enc(j.id, j.key, z)
  {
    hide Run, Xor;
    RunMeets(s, j, iv, xs, i);
    SumIs(x, p, z);
  }

  lemma SumIs(x: Block, p: Block, z: Block)
    requires |x| == |p| == |z| && forall b :: 0 <= b < |z| ==> z[b] == x[b] ^ p[b]
    ensures z == Xor(x, p)
  {
  }

  lemma SumAt(x: Block, p: Block, b: nat)
    requires |x| == |p| && b < |x|
    ensures Xor(x, p)[b] == x[b] ^ p[b]
  {
  }

  /** CBC decryption: the deciphered input block x, byte by byte added to p, the input block before or the vector. */
  lemma CbcDecryptBytes(s: Core, j: Job, iv: Block, xs: seq<Block>, i: nat, x: Block, p: Block, b: nat)
    requires |iv| == BlockSize(j.id) && AllBlocks(xs, BlockSize(j.id)) && i < |xs| && j.chain.CBC? && j.dir.Decrypt? && j.ready
    requires x == xs[i] && p == (if i == 0 then iv else xs[i - 1]) && b < BlockSize(j.id)
    ensures |x| == |p| == BlockSize(j.id) && Run(s, j, iv, xs).0[i][b] == s.dec(j.id, j.key, x)[b] ^ p[b]
  {
    hide Run, Xor;
    RunMeets(s, j, iv, xs, i);
    SumAt(s.dec(j.id, j.key, x), p, b);
  }

  /** CTR: the input block x added to the encryption of the counter, which starts with the vector and is incremented every block. */
  lemma CtrBytes(s: Core, j: Job, iv: Block, xs: seq<Block>, ts: seq<Block>, i: nat, x: Block, b: nat)
    requires |iv| == BlockSize(j.id) && AllBlocks(xs, BlockSize(j.id)) && i < |xs| == |ts| && j.chain.CTR? && b < BlockSize(j.id)
    requires ts[0] == iv && (forall t :: 1 <= t < |ts| ==> ts[t] == s.inc(ts[t - 1])) && x == xs[i]
    ensures |x| == |ts[i]| == BlockSize(j.id)
    ensures Run(s, j, iv, xs).0[i][b] == x[b] ^ s.enc(j.id, j.key, ts[i])[b]
  {
    hide Run, Xor;
    RunMeets(s, j, iv, xs, i);
    CountersAre(s, iv, ts, i);
    SumAt(x, s.enc(j.id, j.key, ts[i]), b);
  }

  lemma {:induction false} CountersAre(s: Core, iv: Block, ts: seq<Block>, i: nat)
    requires i < |ts| && ts[0] == iv && forall t :: 1 <= t < |ts| ==> ts[t] == s.inc(ts[t - 1])
    ensures ts[i] == Counter(s, iv, i)
  {
    if i != 0 {
      CountersAre(s, iv, ts, i - 1);
    }
  }

  // ---- Round trip ----

  /** d is the job that is meant to undo e. */
  predicate Undoes(d: Job, e: Job) {
    && d.id == e.id && d.key == e.key && d.chain == e.chain
    && (d.chain.CTR? || (e.dir.Encrypt? && d.dir.Decrypt? && d.ready))
  }

  /** Decrypting an encrypted message returns it, for every cipher, key, vector and length; CTR needs no inverse. */
  lemma {:induction false} RoundTrip(s: Core, e: Job, d: Job, iv: Block, xs: seq<Block>)
    requires Undoes(d, e) && (Invertible(s) || d.chain.CTR?)
    requires |iv| == BlockSize(e.id) && AllBlocks(xs, BlockSize(e.id))
    ensures Run(s, d, iv, Run(s, e, iv, xs).0).0 == xs
    ensures Run(s, d, iv, Run(s, e, iv, xs).0).1 == Run(s, e, iv, xs).1
  {
    if xs == [] {
    } else {
      var last := |xs| - 1;
      var x := xs[last];
      RoundTrip(s, e, d, iv, xs[..last]);
      var (ys, v) := Run(s, e, iv, xs[..last]);
      var (y, v') := Step(s, e, v, x);
      assert Run(s, e, iv, xs).0[..last] == ys;
      StepBack(s, e, d, v, x);
      assert xs == xs[..last] + [x];
    }
  }

  lemma StepBack(s: Core, e: Job, d: Job, iv: Block, x: Block)
    requires Undoes(d, e) && (Invertible(s) || d.chain.CTR?)
    requires |iv| == |x| == BlockSize(e.id)
    ensures Step(s, d, iv, Step(s, e, iv, x).0) == (x, Step(s, e, iv, x).1)
  {
    match e.chain
    case ECB =>
    case CBC => XorCancels(x, iv);
    case CTR => XorCancels(x, Forward(s, e, iv));
  }

  // ---- One to one ----

  /** The core's output determines its input: CTR by construction, the other modes if the cipher can be undone. */
  ghost predicate Reversible(s: Core, j: Job) {
    j.chain.CTR? || (Invertible(s) && (j.dir.Encrypt? || j.ready))
  }

  /** Every block is the encryption of one. */
  lemma EncryptReaches(s: Core, c: CipherId, k: KeyRegs, y: Block) returns (x: Block)
    requires Invertible(s) && |y| == BlockSize(c)
    ensures |x| == BlockSize(c) && s.enc(c, k, x) == y
  {
    var f := b => s.enc(c, k, b);
    forall z: Block, w: Block | |z| == BlockSize(c) && |w| == BlockSize(c) && f(z) == f(w) ensures z == w {
      assert s.dec(c, k, s.enc(c, k, z)) == z && s.dec(c, k, s.enc(c, k, w)) == w;
    }
    x := Pigeonhole.Reaches(f, BlockSize(c), y);
  }

  lemma DecryptInjective(s: Core, c: CipherId, k: KeyRegs, x: Block, z: Block)
    requires Invertible(s) && |x| == |z| == BlockSize(c) && s.dec(c, k, x) == s.dec(c, k, z)
    ensures x == z
  {
    var b := EncryptReaches(s, c, k, x);
    var d := EncryptReaches(s, c, k, z);
  }

  lemma XorInjective(a: Block, b: Block, v: Block)
    requires |a| == |b| == |v|
    ensures Xor(a, v) == Xor(b, v) ==> a == b
  {
    hide Xor;
    XorCancels(a, v);
    XorCancels(b, v);
  }

  /** Different blocks come out different. */
  lemma StepInjective(s: Core, j: Job, v: Block, x: Block, z: Block)
    requires Reversible(s, j) && |v| == |x| == |z| == BlockSize(j.id)
    requires Step(s, j, v, x).0 == Step(s, j, v, z).0
    ensures x == z
  {
    match (j.chain, j.dir)
    case (ECB, Encrypt) => EncryptInjective(s, j.id, j.key, x, z);
    case (ECB, Decrypt) => DecryptInjective(s, j.id, j.key, x, z);
    case (CBC, Encrypt) =>
      EncryptInjective(s, j.id, j.key, Xor(x, v), Xor(z, v));
      XorInjective(x, z, v);
    case (CBC, Decrypt) =>
      XorInjective(Backward(s, j, x), Backward(s, j, z), v);
      DecryptInjective(s, j.id, j.key, x, z);
    case (CTR, _) => XorInjective(x, z, Forward(s, j, v));
  }

  lemma EncryptInjective(s: Core, c: CipherId, k: KeyRegs, x: Block, z: Block)
    requires Invertible(s) && |x| == |z| == BlockSize(c) && s.enc(c, k, x) == s.enc(c, k, z)
    ensures x == z
  {
    assert s.dec(c, k, s.enc(c, k, x)) == x;
  }

  /** Every block comes out for some input block. */
  lemma StepReaches(s: Core, j: Job, v: Block, y: Block) returns (x: Block)
    requires Reversible(s, j) && |v| == |y| == BlockSize(j.id)
    ensures |x| == BlockSize(j.id) && Step(s, j, v, x).0 == y
  {
    match (j.chain, j.dir)
    case (ECB, Encrypt) => x := EncryptReaches(s, j.id, j.key, y);
    case (ECB, Decrypt) => x := s.enc(j.id, j.key, y);
    case (CBC, Encrypt) =>
      var z := EncryptReaches(s, j.id, j.key, y);
      x := Xor(z, v);
      XorCancels(z, v);
    case (CBC, Decrypt) =>
      x := s.enc(j.id, j.key, Xor(y, v));
      XorCancels(y, v);
    case (CTR, _) =>
      x := Xor(y, Forward(s, j, v));
      XorCancels(y, Forward(s, j, v));
  }
}
