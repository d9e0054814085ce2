/**
 There are finitely many blocks of one size, so a function that maps them to blocks of that size and keeps
 different blocks different reaches every one.
 */
module Pigeonhole {
  import opened Bytes

  /** The bytes below n. */
  function BytesBelow(n: nat): set<byte>
    requires n <= 256
  {
    if n == 0 then {} else BytesBelow(n - 1) + {(n - 1) as byte}
  }

  lemma {:induction false} ByteBelow(k: nat, n: nat)
    requires k < n <= 256
    ensures k as byte in BytesBelow(n)
  {
    if k < n - 1 {
      ByteBelow(k, n - 1);
    }
  }

  lemma SameByte(b: byte)
    ensures (b as nat) as byte == b
  {
  }

  lemma EveryByte(b: byte)
    ensures b in BytesBelow(256)
  {
    hide BytesBelow;
    SameByte(b);
    ByteBelow(b as nat, 256);
  }

  /** All blocks of n bytes. */
  ghost function BlocksOf(n: nat): set<seq<byte>> {
    if n == 0 then {[]} else set b, x | b in BytesBelow(256) && x in BlocksOf(n - 1) :: [b] + x
  }

  lemma {:induction false} BlocksIn(n: nat, x: seq<byte>)
    requires |x| == n
    ensures x in BlocksOf(n)
  {
    hide BytesBelow;
    if n != 0 {
      EveryByte(x[0]);
      BlocksIn(n - 1, x[1..]);
      assert [x[0]] + x[1..] in BlocksOf(n);
      assert x == [x[0]] + x[1..];
    }
  }

  lemma {:induction false} BlocksSize(n: nat, x: seq<byte>)
    requires x in BlocksOf(n)
    ensures |x| == n
  {
    hide BytesBelow;
    if n != 0 {
      var b, y :| b in BytesBelow(256) && y in BlocksOf(n - 1) && x == [b] + y;
      BlocksSize(n - 1, y);
    }
  }

  // ---- Counting ----

  ghost function Image(f: seq<byte> -> seq<byte>, xs: set<seq<byte>>): set<seq<byte>> {
    set x | x in xs :: f(x)
  }

  ghost predicate Injective(f: seq<byte> -> seq<byte>, xs: set<seq<byte>>) {
    forall x, y :: x in xs && y in xs && f(x) == f(y) ==> x == y
  }

  lemma {:induction false} ImageSize(f: seq<byte> -> seq<byte>, xs: set<seq<byte>>)
    requires Injective(f, xs)
    ensures |Image(f, xs)| == |xs|
  {
    if xs != {} {
      var x :| x in xs;
      var rest := xs - {x};
      ImageSize(f, rest);
      ImageLess(f, xs, x);
    }
  }

  lemma ImageLess(f: seq<byte> -> seq<byte>, xs: set<seq<byte>>, x: seq<byte>)
    requires Injective(f, xs) && x in xs
    ensures Image(f, xs) == Image(f, xs - {x}) + {f(x)} && f(x) !in Image(f, xs - {x})
  {
  }

  lemma {:induction false} SubsetSize(a: set<seq<byte>>, b: set<seq<byte>>)
    requires a <= b
    ensures |a| <= |b|
  {
    if a != {} {
      var x :| x in a;
      SubsetSize(a - {x}, b - {x});
    }
  }

  lemma SubsetAll(a: set<seq<byte>>, b: set<seq<byte>>)
    requires a <= b && |a| == |b|
    ensures a == b
  {
    if a != b {
      var x :| x in b && x !in a;
      SubsetSize(a, b - {x});
    }
  }

  /** A one-to-one function on the blocks of n bytes reaches y. */
  lemma Reaches(f: seq<byte> -> seq<byte>, n: nat, y: seq<byte>) returns (x: seq<byte>)
    requires forall z: seq<byte> :: |z| == n ==> |f(z)| == n
    requires forall z: seq<byte>, w: seq<byte> :: |z| == n && |w| == n && f(z) == f(w) ==> z == w
    requires |y| == n
    ensures |x| == n && f(x) == y
  {
    hide BlocksOf;
    var all := BlocksOf(n);
    forall z | z in all ensures |z| == n {
      BlocksSize(n, z);
    }
    ImageSize(f, all);
    forall z | z in Image(f, all) ensures z in all {
      BlocksIn(n, z);
    }
    SubsetAll(Image(f, all), all);
    BlocksIn(n, y);
    x :| x in all && f(x) == y;
  }
}
