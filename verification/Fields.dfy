/**
 Packed registers: w-bit fields of a 32-bit word at bit s, read with a mask and written by clearing the mask and
 or-ing the value in. One law for all drivers: a field reads what was put into it, and no other field changes.
 */
module Fields {

  // ---- The operations on words, each under a name ----

  function And(x: bv32, m: bv32): bv32 { x & m }

  function Or(v: bv32, m: bv32): bv32 { v | m }

  function AndNot(v: bv32, m: bv32): bv32 { v & !m }

  function Shl(v: bv32, s: bv32): bv32
    requires s < 32
  {
    v << s
  }

  function Shr(v: bv32, s: bv32): bv32
    requires s < 32
  {
    v >> s
  }

  predicate Touches(v: bv32, m: bv32) {
    v & m != 0
  }

  /** All bits of v are bits of m. */
  predicate Within(v: bv32, m: bv32) {
    v & !m == 0
  }

  // ---- Fields ----

  function Ones(w: bv32): bv32
    requires w <= 32
  {
    (1 << w) - 1
  }

  predicate Fits(s: bv32, w: bv32) {
    s < 32 && 1 <= w <= 32 && s + w <= 32
  }

  predicate Disjoint(s: bv32, w: bv32, s': bv32, w': bv32) {
    s + w <= s' || s' + w' <= s
  }

  function Mask(s: bv32, w: bv32): bv32
    requires s < 32 && w <= 32
  {
    Shl(Ones(w), s)
  }

  function Get(x: bv32, s: bv32, w: bv32): bv32
    requires s < 32 && w <= 32
  {
    Shr(And(x, Mask(s, w)), s)
  }

  function Put(x: bv32, s: bv32, w: bv32, v: bv32): bv32
    requires s < 32 && w <= 32
  {
    Or(AndNot(x, Mask(s, w)), Shl(v, s))
  }

  lemma GetPut(x: bv32, s: bv32, w: bv32, v: bv32)
    requires Fits(s, w) && v <= Ones(w)
    ensures Get(Put(x, s, w, v), s, w) == v
  {
    hide Mask, Ones, Shl, Shr, And, Or, AndNot, Within;
    ShiftWithin(s, w, v);
    ShiftBack(s, w, v);
    SetReads(x, Mask(s, w), Shl(v, s));
  }

  lemma Frame(x: bv32, s: bv32, w: bv32, v: bv32, s': bv32, w': bv32)
    requires Fits(s, w) && Fits(s', w') && Disjoint(s, w, s', w') && v <= Ones(w)
    ensures Get(Put(x, s, w, v), s', w') == Get(x, s', w')
  {
    hide Mask, Ones, Shl, Shr, And, Or, AndNot, Within, Touches;
    ShiftWithin(s, w, v);
    Apart(s, w, s', w');
    SetKeeps(x, Mask(s, w), Shl(v, s), Mask(s', w'));
  }

  /** The read-modify-write the drivers repeat: clear with the shifted mask, then set the shifted value. */
  method ClearThenSet(tmpreg1: bv32, ones: bv32, s: bv32, v: bv32, ghost w: bv32) returns (r: bv32)
    requires s < 32 && w <= 32 && ones == Ones(w)
    ensures r == Put(tmpreg1, s, w, v)
  {
    hide Ones, Shl, Or, AndNot;
    r := tmpreg1;
    var tmpreg2 := Shl(ones, s);
    r := AndNot(r, tmpreg2);
    tmpreg2 := Shl(v, s);
    r := Or(r, tmpreg2);
  }

  /** Reading a field is shifting the word and keeping w bits. */
  lemma GetMeans(x: bv32, s: bv32, w: bv32)
    requires Fits(s, w)
    ensures Get(x, s, w) == (x >> s) & ((1 << w) - 1)
  {
    hide Mask, Ones, Shl, Shr, And;
    ShiftBack(s, w, Ones(w));
    AndShifts(x, Mask(s, w), s);
    MaskIs(s, w);
    MeaningOf(x, s, w);
  }

  lemma MaskIs(s: bv32, w: bv32)
    requires Fits(s, w)
    ensures Mask(s, w) == Shl(Ones(w), s)
  {
    hide Ones, Shl;
  }

  lemma {:induction false} AndShifts(x: bv32, m: bv32, s: bv32)
    requires s < 32
    ensures Shr(And(x, m), s) == And(Shr(x, s), Shr(m, s))
    decreases s
  {
    hide And, Shr;
    if s == 0 {
      ShiftNone(x);
      ShiftNone(m);
      ShiftNone(And(x, m));
    } else {
      AndShifts(x, m, s - 1);
      ShiftOne(x, s);
      ShiftOne(m, s);
      ShiftOne(And(x, m), s);
      AndShiftsOne(Shr(x, s - 1), Shr(m, s - 1));
    }
  }

  lemma ShiftNone(y: bv32)
    ensures Shr(y, 0) == y
  {
  }

  lemma ShiftOne(y: bv32, s: bv32)
    requires 0 < s < 32
    ensures Shr(y, s) == Shr(Shr(y, s - 1), 1)
  {
  }

  lemma AndShiftsOne(a: bv32, b: bv32)
    ensures Shr(And(a, b), 1) == And(Shr(a, 1), Shr(b, 1))
  {
  }

  lemma MeaningOf(x: bv32, s: bv32, w: bv32)
    requires Fits(s, w)
    ensures And(Shr(x, s), Ones(w)) == (x >> s) & ((1 << w) - 1)
  {
  }

  /** A field never reads more than w bits. */
  lemma GetBound(x: bv32, s: bv32, w: bv32)
    requires Fits(s, w)
    ensures Get(x, s, w) <= Ones(w)
  {
  }

  lemma ShiftWithin(s: bv32, w: bv32, v: bv32)
    requires Fits(s, w) && v <= Ones(w)
    ensures Within(Shl(v, s), Mask(s, w))
  {
  }

  lemma ShiftBack(s: bv32, w: bv32, v: bv32)
    requires Fits(s, w) && v <= Ones(w)
    ensures Shr(Shl(v, s), s) == v
  {
  }

  /** What was set can be read back, and what lies apart stays. */
  lemma SetReads(x: bv32, m: bv32, y: bv32)
    requires Within(y, m)
    ensures And(Or(AndNot(x, m), y), m) == y
  {
  }

  lemma SetKeeps(x: bv32, m: bv32, y: bv32, m': bv32)
    requires Within(y, m) && !Touches(m, m')
    ensures And(Or(AndNot(x, m), y), m') == And(x, m')
  {
    hide And, Or, AndNot, Within, Touches;
    WithinMisses(y, m, m');
    OrKeeps(AndNot(x, m), y, m');
    AndNotKeeps(x, m, m');
  }

  lemma WithinMisses(y: bv32, m: bv32, n: bv32)
    requires Within(y, m) && !Touches(m, n)
    ensures !Touches(y, n)
  {
  }

  lemma OrKeeps(x: bv32, y: bv32, n: bv32)
    requires !Touches(y, n)
    ensures And(Or(x, y), n) == And(x, n)
  {
  }

  lemma AndNotKeeps(x: bv32, m: bv32, n: bv32)
    requires !Touches(m, n)
    ensures And(AndNot(x, m), n) == And(x, n)
  {
  }

  lemma Apart(s: bv32, w: bv32, s': bv32, w': bv32)
    requires Fits(s, w) && Fits(s', w') && Disjoint(s, w, s', w')
    ensures !Touches(Mask(s, w), Mask(s', w'))
  {
    hide Mask, Touches;
    if s + w <= s' {
      Above(s, w, s', w');
    } else {
      Above(s', w', s, w);
      TouchesBoth(Mask(s, w), Mask(s', w'));
    }
  }

  lemma TouchesBoth(m: bv32, m': bv32)
    ensures Touches(m, m') == Touches(m', m)
  {
  }

  lemma Above(s: bv32, w: bv32, s': bv32, w': bv32)
    requires Fits(s, w) && Fits(s', w') && s + w <= s'
    ensures !Touches(Mask(s, w), Mask(s', w'))
  {
    hide Mask, Ones, Between, Within, Touches;
    MaskBetween(s, w);
    MaskBetween(s', w');
    OnesNest(s + w, s');
    Separate(Mask(s, w), Mask(s', w'), Ones(s), Ones(s + w), Ones(s'), Ones(s' + w'));
  }

  /** m is what lies in b and not in a. */
  predicate Between(m: bv32, a: bv32, b: bv32) {
    m ^ (b & !a) == 0
  }

  /** A mask is what lies below its end and not below its start. */
  lemma MaskBetween(s: bv32, w: bv32)
    requires Fits(s, w)
    ensures Between(Mask(s, w), Ones(s), Ones(s + w))
  {
  }

  lemma OnesNest(a: bv32, b: bv32)
    requires a <= b <= 32
    ensures Within(Ones(a), Ones(b))
  {
  }

  lemma Separate(m: bv32, m': bv32, a: bv32, b: bv32, c: bv32, d: bv32)
    requires Between(m, a, b) && Between(m', c, d) && Within(b, c)
    ensures !Touches(m, m')
  {
  }

  // ---- Single flags ----

  function OneAt(k: bv32): bv32
    requires k < 32
  {
    1 << k
  }

  /** The flag at place k is bit k of the word. */
  lemma BitMeans(v: bv32, k: bv32)
    requires k < 32
    ensures Touches(v, OneAt(k)) <==> (v >> k) & 1 == 1
  {
    hide Touches, OneAt;
    if Touches(v, OneAt(k)) {
      BitThere(v, k);
    } else if (v >> k) & 1 == 1 {
      BitShown(v, k);
    }
  }

  lemma BitThere(v: bv32, k: bv32)
    requires k < 32 && Touches(v, OneAt(k))
    ensures (v >> k) & 1 == 1
  {
  }

  lemma BitShown(v: bv32, k: bv32)
    requires k < 32 && (v >> k) & 1 == 1
    ensures Touches(v, OneAt(k))
  {
  }

  lemma OneAtApart(n: bv32, k: bv32)
    requires n < 32 && k < 32
    ensures Touches(OneAt(n), OneAt(k)) == (n == k)
  {
    hide OneAt, Touches;
    if n == k {
      OneAtSelf(k);
    } else {
      OneAtOther(n, k);
    }
  }

  lemma OneAtSelf(k: bv32)
    requires k < 32
    ensures Touches(OneAt(k), OneAt(k))
  {
  }

  lemma OneAtOther(n: bv32, k: bv32)
    requires n < 32 && k < 32 && n != k
    ensures !Touches(OneAt(n), OneAt(k))
  {
  }

  /** A single bit stays iff it was there and is not cleared. */
  lemma AndNotOneBit(v: bv32, m: bv32, k: bv32)
    requires k < 32
    ensures Touches(AndNot(v, m), OneAt(k)) <==> Touches(v, OneAt(k)) && !Touches(m, OneAt(k))
  {
    hide Touches, AndNot, OneAt;
    if Touches(AndNot(v, m), OneAt(k)) {
      AndNotFrom(v, m, OneAt(k));
      OneBitCleared(v, m, k);
    } else if Touches(v, OneAt(k)) && !Touches(m, OneAt(k)) {
      AndNotHits(v, m, OneAt(k));
    }
  }

  lemma OneBitCleared(v: bv32, m: bv32, k: bv32)
    requires k < 32 && Touches(AndNot(v, m), OneAt(k))
    ensures !Touches(m, OneAt(k))
  {
  }

  lemma OrWithin(v: bv32, w: bv32, m: bv32)
    requires Within(v, m) && Within(w, m)
    ensures Within(Or(v, w), m)
  {
  }

  lemma OrTouches(v: bv32, m: bv32, n: bv32)
    ensures Touches(Or(v, m), n) == (Touches(v, n) || Touches(m, n))
  {
    hide Touches, Or;
    if Touches(v, n) {
      OrLeft(v, m, n);
    } else if Touches(m, n) {
      OrRight(v, m, n);
    } else if Touches(Or(v, m), n) {
      OrFrom(v, m, n);
    }
  }

  lemma OrLeft(v: bv32, m: bv32, n: bv32)
    requires Touches(v, n)
    ensures Touches(Or(v, m), n)
  {
  }

  lemma OrRight(v: bv32, m: bv32, n: bv32)
    requires Touches(m, n)
    ensures Touches(Or(v, m), n)
  {
  }

  lemma OrFrom(v: bv32, m: bv32, n: bv32)
    requires Touches(Or(v, m), n) && !Touches(v, n)
    ensures Touches(m, n)
  {
  }

  lemma AndNotTouches(v: bv32, m: bv32, n: bv32)
    ensures !Touches(m, n) ==> Touches(AndNot(v, m), n) == Touches(v, n)
    ensures !Touches(AndNot(v, m), m)
  {
    hide Touches, AndNot;
    AndNotSelf(v, m);
    if Touches(AndNot(v, m), n) {
      AndNotFrom(v, m, n);
    } else if Touches(v, n) && !Touches(m, n) {
      AndNotHits(v, m, n);
    }
  }

  lemma AndNotSelf(v: bv32, m: bv32)
    ensures !Touches(AndNot(v, m), m)
  {
  }

  lemma AndNotFrom(v: bv32, m: bv32, n: bv32)
    requires Touches(AndNot(v, m), n)
    ensures Touches(v, n)
  {
  }

  lemma AndNotHits(v: bv32, m: bv32, n: bv32)
    requires Touches(v, n) && !Touches(m, n)
    ensures Touches(AndNot(v, m), n)
  {
  }
}
