/**
 Bytes, 32-bit words and the few operations on them that the CRYP drivers use.
 A word is kept as its four bytes, least significant first; Value ties it to the
 machine integer.
 */
module Bytes {

  type byte = bv8

  datatype Word = Word(b0: byte, b1: byte, b2: byte, b3: byte)
  {
    /** The 32-bit register value. */
    function Value(): bv32 {
      (b0 as bv32) | (b1 as bv32 << 8) | (b2 as bv32 << 16) | (b3 as bv32 << 24)
    }

    /** The __REV intrinsic: reverses the byte order. */
    function Rev(): Word {
      Word(b3, b2, b1, b0)
    }

    function MsbFirst(): seq<byte> {
      [b3, b2, b1, b0]
    }
  }

  const ZERO_WORD := Word(0, 0, 0, 0)

  function FromMsb(s: seq<byte>): Word
    requires |s| == 4
  {
    Word(s[3], s[2], s[1], s[0])
  }

  /** A 32-bit little-endian load, *(uint32_t*)a. */
  function Load(mem: seq<byte>, a: nat): Word
    requires a + 4 <= |mem|
  {
    Word(mem[a], mem[a + 1], mem[a + 2], mem[a + 3])
  }

  function Xor(a: seq<byte>, b: seq<byte>): (r: seq<byte>)
    requires |a| == |b|
  {
    seq(|a|, i requires 0 <= i < |a| => a[i] ^ b[i])
  }

  lemma XorCancels(a: seq<byte>, b: seq<byte>)
    requires |a| == |b|
    ensures Xor(Xor(a, b), b) == a
  {
    forall i | 0 <= i < |a| ensures (a[i] ^ b[i]) ^ b[i] == a[i] {}
  }

  /** The byte at the lowest address is the least significant. */
  lemma LoadValue(mem: seq<byte>, a: nat)
    requires a + 4 <= |mem|
    ensures Load(mem, a).Value() ==
            mem[a] as bv32 | (mem[a + 1] as bv32 << 8) | (mem[a + 2] as bv32 << 16) | (mem[a + 3] as bv32 << 24)
  {
  }

  /** Loading a word little-endian and reversing it presents the memory bytes in order, most significant first. */
  lemma LoadRev(mem: seq<byte>, a: nat)
    requires a + 4 <= |mem|
    ensures Load(mem, a).Rev().MsbFirst() == mem[a..a + 4]
    ensures Load(mem, a).Rev().Value() ==
            (mem[a] as bv32 << 24) | (mem[a + 1] as bv32 << 16) | (mem[a + 2] as bv32 << 8) | mem[a + 3] as bv32
  {
  }
}
