/**
 DMA interrupt codes: five events of sixteen streams, their pending bits in LISR/HISR of two controllers,
 their enable bits in CR and FCR of each stream, and the 40 packed codes that name them.
 */
module Dma {
  import opened Fields

  /** FIFO error, direct mode error, transfer error, half transfer, transfer complete. */
  datatype Event = FE | DME | TE | HT | TC

  const DMA_IT_FE: bv32 := 0x80
  const TRANSFER_IT_ENABLE_MASK: bv32 := 0x1E
  const TRANSFER_IT_MASK: bv32 := 0x0F3C_0F3C
  const HIGH_ISR_MASK: bv32 := 0x2000_0000
  const RESERVED_MASK: bv32 := 0x0F7D_0F7D

  // ---- The tables of the headers ----

  datatype Row = Row(fe: bv32, dme: bv32, te: bv32, ht: bv32, tc: bv32)
  {
    function At(e: Event): bv32 {
      match e case FE => fe case DME => dme case TE => te case HT => ht case TC => tc
    }
  }

  /** The bit of an event of stream q (or q + 4) in LISR (or HISR) and in LIFCR (or HIFCR). */
  function Bit(q: nat, e: Event): bv32
    requires q < 4
  {
    BitRow(q).At(e)
  }

  function BitRow(q: nat): Row
    requires q < 4
  {
    match q
    case 0 => Row(0x0000_0001, 0x0000_0004, 0x0000_0008, 0x0000_0010, 0x0000_0020)
    case 1 => Row(0x0000_0040, 0x0000_0100, 0x0000_0200, 0x0000_0400, 0x0000_0800)
    case 2 => Row(0x0001_0000, 0x0004_0000, 0x0008_0000, 0x0010_0000, 0x0020_0000)
    case _ => Row(0x0040_0000, 0x0100_0000, 0x0200_0000, 0x0400_0000, 0x0800_0000)
  }

  /** The enable bit of an event, in FCR for the FIFO error and in CR for the others. */
  function EnableBit(e: Event): bv32 {
    Row(DMA_IT_FE, 0x02, 0x04, 0x08, 0x10).At(e)
  }

  /** Streams x and x + 4 have the same bits in LISR and in HISR. */
  function Quarter(x: nat): (q: nat)
    requires x < 8
    ensures q < 4
  {
    if x < 4 then x else x - 4
  }

  /** DMA_FLAG_*. */
  function FlagCode(x: nat, e: Event): bv32
    requires x < 8
  {
    FlagCodes(x).At(e)
  }

  function FlagCodes(x: nat): Row
    requires x < 8
  {
    match x
    case 0 => Row(0x1080_0001, 0x1080_0004, 0x1000_0008, 0x1000_0010, 0x1000_0020)
    case 1 => Row(0x1000_0040, 0x1000_0100, 0x1000_0200, 0x1000_0400, 0x1000_0800)
    case 2 => Row(0x1001_0000, 0x1004_0000, 0x1008_0000, 0x1010_0000, 0x1020_0000)
    case 3 => Row(0x1040_0000, 0x1100_0000, 0x1200_0000, 0x1400_0000, 0x1800_0000)
    case 4 => Row(0x2000_0001, 0x2000_0004, 0x2000_0008, 0x2000_0010, 0x2000_0020)
    case 5 => Row(0x2000_0040, 0x2000_0100, 0x2000_0200, 0x2000_0400, 0x2000_0800)
    case 6 => Row(0x2001_0000, 0x2004_0000, 0x2008_0000, 0x2010_0000, 0x2020_0000)
    case _ => Row(0x2040_0000, 0x2100_0000, 0x2200_0000, 0x2400_0000, 0x2800_0000)
  }

  /** DMA_IT_*. */
  function ItCode(x: nat, e: Event): bv32
    requires x < 8
  {
    ItCodes(x).At(e)
  }

  function ItCodes(x: nat): Row
    requires x < 8
  {
    match x
    case 0 => Row(0x9000_0001, 0x1000_1004, 0x1000_2008, 0x1000_4010, 0x1000_8020)
    case 1 => Row(0x9000_0040, 0x1000_1100, 0x1000_2200, 0x1000_4400, 0x1000_8800)
    case 2 => Row(0x9001_0000, 0x1004_1000, 0x1008_2000, 0x1010_4000, 0x1020_8000)
    case 3 => Row(0x9040_0000, 0x1100_1000, 0x1200_2000, 0x1400_4000, 0x1800_8000)
    case 4 => Row(0xA000_0001, 0x2000_1004, 0x2000_2008, 0x2000_4010, 0x2000_8020)
    case 5 => Row(0xA000_0040, 0x2000_1100, 0x2000_2200, 0x2000_4400, 0x2000_8800)
    case 6 => Row(0xA001_0000, 0x2004_1000, 0x2008_2000, 0x2010_4000, 0x2020_8000)
    case _ => Row(0xA040_0000, 0x2100_1000, 0x2200_2000, 0x2400_4000, 0x2800_8000)
  }

  predicate IsClearFlag(code: bv32) {
    code & 0x3000_0000 != 0x3000_0000 && code & 0x3000_0000 != 0 && code & 0xC082_F082 == 0 && code != 0
  }

  predicate IsClearIt(code: bv32) {
    code & 0x3000_0000 != 0x3000_0000 && code & 0x3000_0000 != 0 && code != 0 && code & 0x4082_0082 == 0
  }

  predicate IsConfigIt(it: bv32) {
    it & 0xFFFF_FF61 == 0 && it != 0
  }

  // ---- What the codes mean ----

  /** The code belongs to HISR and HIFCR. */
  predicate High(code: bv32) {
    code & HIGH_ISR_MASK != 0
  }

  /** Clearing with this code, which may be a combination, reaches the event of stream x. */
  predicate Names(code: bv32, x: nat, e: Event)
    requires x < 8
  {
    High(code) == (x >= 4) && Touches(code, Bit(Quarter(x), e))
  }

  function Unreserved(v: bv32): bv32 {
    v & RESERVED_MASK
  }

  function MaskRow(r: Row): Row {
    Row(Unreserved(r.fe), Unreserved(r.dme), Unreserved(r.te), Unreserved(r.ht), Unreserved(r.tc))
  }

  lemma ItCodeRow(x: nat)
    requires x < 8
    ensures MaskRow(ItCodes(x)) == BitRow(Quarter(x))
  {
    if x == 0 {} else if x == 1 {} else if x == 2 {} else if x == 3 {} else if x == 4 {} else if x == 5 {} else if x == 6 {} else {}
  }

  lemma FlagCodeRow(x: nat)
    requires x < 8
    ensures MaskRow(FlagCodes(x)) == BitRow(Quarter(x))
  {
    if x == 0 {} else if x == 1 {} else if x == 2 {} else if x == 3 {} else if x == 4 {} else if x == 5 {} else if x == 6 {} else {}
  }

  lemma MaskAt(r: Row, e: Event)
    ensures MaskRow(r).At(e) == Unreserved(r.At(e))
  {
    hide Unreserved;
  }

  lemma ItCodeBit(x: nat, e: Event)
    requires x < 8
    ensures Unreserved(ItCode(x, e)) == Bit(Quarter(x), e)
  {
    hide ItCodes, BitRow, MaskRow, Row.At, Unreserved;
    ItCodeRow(x);
    MaskAt(ItCodes(x), e);
  }

  lemma ItCodeHigh(x: nat, e: Event)
    requires x < 8
    ensures High(ItCode(x, e)) == (x >= 4)
  {
    if x == 0 {} else if x == 1 {} else if x == 2 {} else if x == 3 {} else if x == 4 {} else if x == 5 {} else if x == 6 {} else {}
  }

  lemma FlagCodeBit(x: nat, e: Event)
    requires x < 8
    ensures Unreserved(FlagCode(x, e)) == Bit(Quarter(x), e)
  {
    hide FlagCodes, BitRow, MaskRow, Row.At, Unreserved;
    FlagCodeRow(x);
    MaskAt(FlagCodes(x), e);
  }

  lemma FlagCodeHigh(x: nat, e: Event)
    requires x < 8
    ensures High(FlagCode(x, e)) == (x >= 4)
  {
    if x == 0 {} else if x == 1 {} else if x == 2 {} else if x == 3 {} else if x == 4 {} else if x == 5 {} else if x == 6 {} else {}
  }

  /** The enable bits in FCR and CR: the FIFO error is bit 7, the others are bits 1 to 4 in the order of the status bits. */
  lemma EnableBits()
    ensures EnableBit(FE) == 1 << 7 && EnableBit(DME) == 1 << 1
    ensures EnableBit(TE) == EnableBit(DME) << 1 && EnableBit(HT) == EnableBit(TE) << 1 && EnableBit(TC) == EnableBit(HT) << 1
  {
  }

  /** The status bits: each stream has six places, the streams begin at 0, 6, 16 and 22. */
  lemma BitParts(q: nat, e: Event)
    requires q < 4
    ensures Bit(q, e) == (if e == FE then 1 else EnableBit(e) << 1) << (if q == 0 then 0 else if q == 1 then 6 else if q == 2 then 16 else 22)
  {
    if q == 0 {} else if q == 1 {} else if q == 2 {} else {}
  }

  /** The half of the streams that a code is for. */
  function Half(x: nat): bv32 {
    if x < 4 then 0x1000_0000 else 0x2000_0000
  }

  /** An interrupt code: the half, the status bit and, eleven places above where CR has it, the enable bit; bit 31 for the FIFO error. */
  lemma ItCodeParts(x: nat, e: Event)
    requires x < 8
    ensures ItCode(x, e) == Half(x) | Bit(Quarter(x), e) | if e == FE then 0x8000_0000 else EnableBit(e) << 11
  {
    if x == 0 {} else if x == 1 {} else if x == 2 {} else if x == 3 {} else if x == 4 {} else if x == 5 {} else if x == 6 {} else {}
  }

  /** A flag code: the half and the status bit, and a stray bit in two of them. */
  lemma FlagCodeParts(x: nat, e: Event)
    requires x < 8
    ensures FlagCode(x, e) == Half(x) | Bit(Quarter(x), e) | if x == 0 && (e == FE || e == DME) then 0x0080_0000 else 0
  {
    if x == 0 {} else if x == 1 {} else if x == 2 {} else if x == 3 {} else if x == 4 {} else if x == 5 {} else if x == 6 {} else {}
  }

  /**
   What DMA_ITConfig admits: the unions of enable bits, and not the empty one. Each event alone is admitted, their bits
   are apart, and every admitted code lists at least one event.
   */
  lemma ConfigCodes(it: bv32, e: Event, e': Event)
    ensures IsConfigIt(it) <==> it != 0 && Within(it, AllEnables())
    ensures IsConfigIt(EnableBit(e)) && (Touches(EnableBit(e), EnableBit(e')) <==> e == e')
    ensures IsConfigIt(it) ==> Lists(it)
  {
    AdmittedWithin(it);
    EnablesApart(e, e');
    if IsConfigIt(it) {
      SomeListed(it);
    }
    hide IsConfigIt, Within, AllEnables, Touches, EnableBit;
  }

  function AllEnables(): bv32 {
    EnableBit(FE) | EnableBit(DME) | EnableBit(TE) | EnableBit(HT) | EnableBit(TC)
  }

  /** Some event is listed. */
  predicate Lists(it: bv32) {
    exists e :: Touches(it, EnableBit(e))
  }

  lemma AdmittedWithin(it: bv32)
    ensures IsConfigIt(it) <==> it != 0 && Within(it, AllEnables())
  {
    hide IsConfigIt, Within, AllEnables;
    AllEnablesIs();
    AdmittedIs(it);
  }

  lemma AllEnablesIs()
    ensures AllEnables() == 0x9E
  {
  }

  lemma AdmittedIs(it: bv32)
    ensures IsConfigIt(it) <==> it != 0 && Within(it, 0x9E)
  {
  }

  lemma EnablesApart(e: Event, e': Event)
    ensures IsConfigIt(EnableBit(e)) && (Touches(EnableBit(e), EnableBit(e')) <==> e == e')
  {
  }

  lemma SomeListed(it: bv32)
    requires IsConfigIt(it)
    ensures Lists(it)
  {
    OneListed(it);
    hide Touches, EnableBit, IsConfigIt;
    assert Touches(it, EnableBit(FE)) || Touches(it, EnableBit(DME)) || Touches(it, EnableBit(TE)) || Touches(it, EnableBit(HT)) ||
           Touches(it, EnableBit(TC));
  }

  lemma OneListed(it: bv32)
    requires IsConfigIt(it)
    ensures Touches(it, EnableBit(FE)) || Touches(it, EnableBit(DME)) || Touches(it, EnableBit(TE)) || Touches(it, EnableBit(HT)) ||
            Touches(it, EnableBit(TC))
  {
  }

  /** The place of an event's bit. */
  function Place(q: nat, e: Event): (k: bv32)
    requires q < 4
    ensures k < 32
  {
    var within: bv32 := match e case FE => 0 case DME => 2 case TE => 3 case HT => 4 case TC => 5;
    match q case 0 => within case 1 => within + 6 case 2 => within + 16 case _ => within + 22
  }

  lemma BitPlaced(q: nat, e: Event)
    requires q < 4
    ensures Bit(q, e) == OneAt(Place(q, e))
  {
    if q == 0 {} else if q == 1 {} else if q == 2 {} else {}
  }

  lemma PlacesApart(q: nat, e: Event, q': nat, e': Event)
    requires q < 4 && q' < 4
    ensures Place(q, e) == Place(q', e') <==> q == q' && e == e'
  {
  }

  lemma BitsApart(q: nat, e: Event, q': nat, e': Event)
    requires q < 4 && q' < 4
    ensures Touches(Bit(q, e), Bit(q', e')) <==> q == q' && e == e'
  {
    hide Bit, Place, OneAt, Touches;
    BitPlaced(q, e);
    BitPlaced(q', e');
    PlacesApart(q, e, q', e');
    OneAtApart(Place(q, e), Place(q', e'));
  }

  lemma BitUnreserved(q: nat, e: Event)
    requires q < 4
    ensures Unreserved(Bit(q, e)) == Bit(q, e)
  {
    hide BitRow, MaskRow, Row.At, Unreserved;
    MaskAt(BitRow(q), e);
    BitRowUnreserved(q);
  }

  lemma BitRowUnreserved(q: nat)
    requires q < 4
    ensures MaskRow(BitRow(q)) == BitRow(q)
  {
    if q == 0 {} else if q == 1 {} else if q == 2 {} else {}
  }

  lemma TouchesMasked(v: bv32, b: bv32)
    requires Unreserved(b) == b
    ensures Touches(Unreserved(v), b) == Touches(v, b)
  {
    hide Touches, Unreserved;
    MaskedTouches(v, b);
  }

  /** A code names its own stream and event and no other. */
  lemma ItCodeNamesItself(x: nat, e: Event, x': nat, e': Event)
    requires x < 8 && x' < 8
    ensures Names(ItCode(x, e), x', e') <==> x == x' && e == e'
  {
    hide ItCode, Bit, High, Touches, Unreserved;
    ItCodeBit(x, e);
    ItCodeHigh(x, e);
    BitTest(ItCode(x, e), Quarter(x), e, Quarter(x'), e');
  }

  lemma FlagCodeNamesItself(x: nat, e: Event, x': nat, e': Event)
    requires x < 8 && x' < 8
    ensures Names(FlagCode(x, e), x', e') <==> x == x' && e == e'
  {
    hide FlagCode, Bit, High, Touches, Unreserved;
    FlagCodeBit(x, e);
    FlagCodeHigh(x, e);
    BitTest(FlagCode(x, e), Quarter(x), e, Quarter(x'), e');
  }

  lemma BitTest(code: bv32, q: nat, e: Event, q': nat, e': Event)
    requires q < 4 && q' < 4 && Unreserved(code) == Bit(q, e)
    ensures Touches(code, Bit(q', e')) <==> q == q' && e == e'
  {
    hide Bit, Touches, Unreserved;
    BitsApart(q, e, q', e');
    BitUnreserved(q', e');
    TouchesMasked(code, Bit(q', e'));
  }

  /** Codes of one half of the streams may be combined. */
  lemma CombinedCodes(a: bv32, b: bv32, x: nat, e: Event)
    requires x < 8 && High(a) == High(b)
    ensures Names(Or(a, b), x, e) <==> Names(a, x, e) || Names(b, x, e)
  {
    hide Bit, Touches, High;
    HighUnion(a, b);
    OrTouches(a, b, Bit(Quarter(x), e));
  }

  lemma HighUnion(a: bv32, b: bv32)
    requires High(a) == High(b)
    ensures High(Or(a, b)) == High(a)
  {
  }

  /**
   The parameter check of DMA_ClearFlag rejects two of the forty flags it documents: a stray bit in the codes of
   FEIF0 and DMEIF0 falls in its mask. The interrupt codes all pass theirs.
   */
  lemma ClearableFlags(x: nat, e: Event)
    requires x < 8
    ensures IsClearFlag(FlagCode(x, e)) <==> !(x == 0 && (e == FE || e == DME))
    ensures IsClearIt(ItCode(x, e))
  {
    if x == 0 {} else if x == 1 {} else if x == 2 {} else if x == 3 {} else if x == 4 {} else if x == 5 {} else if x == 6 {} else {}
  }

  // ---- The registers and the steps on them ----

  /** isr holds LISR and HISR of DMA1, then of DMA2; cr and fcr those of the streams of DMA1, then of DMA2. */
  datatype Regs = Regs(isr: seq<bv32>, cr: seq<bv32>, fcr: seq<bv32>)

  function Register(c: nat, x: nat): (i: nat)
    requires c < 2 && x < 8
    ensures i < 4
  {
    2 * c + if x < 4 then 0 else 1
  }

  predicate Shaped(r: Regs) {
    |r.isr| == 4 && |r.cr| == |r.fcr| == 16
  }

  /** Event e of stream x of controller c is pending. */
  predicate Pending(r: Regs, c: nat, x: nat, e: Event)
    requires Shaped(r) && c < 2 && x < 8
  {
    Touches(r.isr[Register(c, x)], Bit(Quarter(x), e))
  }

  /** Event e of stream s is enabled, s counting the streams of both controllers. */
  predicate Enabled(r: Regs, s: nat, e: Event)
    requires Shaped(r) && s < 16
  {
    Touches(if e == FE then r.fcr[s] else r.cr[s], EnableBit(e))
  }

  /** An event happens, a call clears, a call enables or disables. */
  datatype Action =
    | Raise(c: nat, x: nat, e: Event)
    | Clear(s: nat, code: bv32)
    | Config(s: nat, it: bv32, on: bool)

  predicate Possible(a: Action) {
    match a
    case Raise(c, x, e) => c < 2 && x < 8
    case Clear(s, code) => s < 16
    case Config(s, it, on) => s < 16
  }

  type Act = a: Action | Possible(a) witness Clear(0, 0)

  /** Which of the four status registers. */
  function Which(s: nat, code: bv32): (i: nat)
    requires s < 16
    ensures i < 4
  {
    2 * (s / 8) + if High(code) then 1 else 0
  }

  function Cleared(v: bv32, code: bv32): bv32 {
    AndNot(v, Unreserved(code))
  }

  function SetOrClear(v: bv32, bits: bv32, on: bool): bv32 {
    if on then v | bits else v & !bits
  }

  function Raised(v: bv32, b: bv32): bv32 {
    Or(v, b)
  }

  function FcrOf(v: bv32, it: bv32, on: bool): bv32 {
    if it & DMA_IT_FE != 0 then SetOrClear(v, DMA_IT_FE, on) else v
  }

  function CrOf(v: bv32, it: bv32, on: bool): bv32 {
    if it != DMA_IT_FE then SetOrClear(v, it & TRANSFER_IT_ENABLE_MASK, on) else v
  }

  function Step(r: Regs, a: Act): (r': Regs)
    requires Shaped(r)
    ensures Shaped(r')
  {
    match a
    case Raise(c, x, e) =>
      var i := Register(c, x);
      r.(isr := r.isr[i := Raised(r.isr[i], Bit(Quarter(x), e))])
    case Clear(s, code) =>
      var i := Which(s, code);
      r.(isr := r.isr[i := Cleared(r.isr[i], code)])
    case Config(s, it, on) =>
      r.(fcr := r.fcr[s := FcrOf(r.fcr[s], it, on)], cr := r.cr[s := CrOf(r.cr[s], it, on)])
  }

  function Run(r: Regs, acts: seq<Act>): (r': Regs)
    requires Shaped(r)
    ensures Shaped(r')
  {
    if acts == [] then r else Step(Run(r, acts[..|acts| - 1]), acts[|acts| - 1])
  }

  // ---- Over every run the registers are two maps ----

  /** Pending since the last time it happened, unless a clear of that controller named it since. */
  function PendingAfter(acts: seq<Act>, c: nat, x: nat, e: Event, before: bool): bool
    requires c < 2 && x < 8
  {
    if acts == [] then before else
      var earlier := acts[..|acts| - 1];
      match acts[|acts| - 1]
      case Raise(c', x', e') => (c' == c && x' == x && e' == e) || PendingAfter(earlier, c, x, e, before)
      case Clear(s, code) => !(s / 8 == c && Names(code, x, e)) && PendingAfter(earlier, c, x, e, before)
      case Config(_, _, _) => PendingAfter(earlier, c, x, e, before)
  }

  /** As the last configuration of the stream that listed the event left it. */
  function EnabledAfter(acts: seq<Act>, s: nat, e: Event, before: bool): bool {
    if acts == [] then before else
      var earlier := acts[..|acts| - 1];
      match acts[|acts| - 1]
      case Config(s', it, on) => if s' == s && Touches(it, EnableBit(e)) then on else EnabledAfter(earlier, s, e, before)
      case _ => EnabledAfter(earlier, s, e, before)
  }

  lemma RaisedTouches(v: bv32, q: nat, e: Event, q': nat, e': Event)
    requires q < 4 && q' < 4
    ensures Touches(Raised(v, Bit(q, e)), Bit(q', e')) <==> (q == q' && e == e') || Touches(v, Bit(q', e'))
  {
    hide Touches, Bit;
    OrTouches(v, Bit(q, e), Bit(q', e'));
    BitsApart(q, e, q', e');
  }

  lemma ClearedTouches(v: bv32, code: bv32, q: nat, e: Event)
    requires q < 4
    ensures Touches(Cleared(v, code), Bit(q, e)) <==> Touches(v, Bit(q, e)) && !Touches(code, Bit(q, e))
  {
    hide Bit, Place, OneAt, Touches, AndNot, Unreserved;
    BitPlaced(q, e);
    BitUnreserved(q, e);
    TouchesMasked(code, Bit(q, e));
    AndNotOneBit(v, Unreserved(code), Place(q, e));
  }

  lemma PendingStep(r: Regs, a: Act, c: nat, x: nat, e: Event)
    requires Shaped(r) && c < 2 && x < 8
    ensures Pending(Step(r, a), c, x, e) <==>
            (match a
             case Raise(c', x', e') => (c' == c && x' == x && e' == e) || Pending(r, c, x, e)
             case Clear(s, code) => !(s / 8 == c && Names(code, x, e)) && Pending(r, c, x, e)
             case Config(_, _, _) => Pending(r, c, x, e))
  {
    hide Touches, Bit, Raised, Cleared, High;
    var i := Register(c, x);
    match a
    case Raise(c', x', e') => RaisedTouches(r.isr[i], Quarter(x'), e', Quarter(x), e);
    case Clear(s, code) => ClearedTouches(r.isr[i], code, Quarter(x), e);
    case Config(_, _, _) =>
  }

  lemma ConfigTouches(cr: bv32, fcr: bv32, it: bv32, on: bool, e: Event)
    ensures Touches(if e == FE then FcrOf(fcr, it, on) else CrOf(cr, it, on), EnableBit(e)) <==>
            if Touches(it, EnableBit(e)) then on else Touches(if e == FE then fcr else cr, EnableBit(e))
  {
  }

  lemma EnabledStep(r: Regs, a: Act, s: nat, e: Event)
    requires Shaped(r) && s < 16
    ensures Enabled(Step(r, a), s, e) <==>
            if a.Config? && a.s == s && Touches(a.it, EnableBit(e)) then a.on else Enabled(r, s, e)
  {
    hide Touches, EnableBit, Raised, Cleared, CrOf, FcrOf, High;
    match a
    case Config(s', it, on) => ConfigTouches(r.cr[s], r.fcr[s], it, on, e);
    case _ =>
  }

  lemma {:induction false} PendingTable(r: Regs, acts: seq<Act>, c: nat, x: nat, e: Event)
    requires Shaped(r) && c < 2 && x < 8
    ensures Pending(Run(r, acts), c, x, e) <==> PendingAfter(acts, c, x, e, Pending(r, c, x, e))
  {
    if acts != [] {
      hide Pending, Step, Names;
      PendingTable(r, acts[..|acts| - 1], c, x, e);
      PendingStep(Run(r, acts[..|acts| - 1]), acts[|acts| - 1], c, x, e);
    }
  }

  lemma {:induction false} EnabledTable(r: Regs, acts: seq<Act>, s: nat, e: Event)
    requires Shaped(r) && s < 16
    ensures Enabled(Run(r, acts), s, e) <==> EnabledAfter(acts, s, e, Enabled(r, s, e))
  {
    if acts != [] {
      hide Enabled, Step, Touches, EnableBit;
      EnabledTable(r, acts[..|acts| - 1], s, e);
      EnabledStep(Run(r, acts[..|acts| - 1]), acts[|acts| - 1], s, e);
    }
  }

  // ---- The driver ----

  lemma ItCodeKind(x: nat, e: Event)
    requires x < 8
    ensures Touches(ItCode(x, e), TRANSFER_IT_MASK) == (e != FE)
  {
    if x == 0 {} else if x == 1 {} else if x == 2 {} else if x == 3 {} else if x == 4 {} else if x == 5 {} else if x == 6 {} else {}
  }

  lemma ItCodeEnable(x: nat, e: Event)
    requires x < 8
    ensures e != FE ==> EnablePosition(ItCode(x, e)) == EnableBit(e)
  {
    if x == 0 {} else if x == 1 {} else if x == 2 {} else if x == 3 {} else if x == 4 {} else if x == 5 {} else if x == 6 {} else {}
  }

  function EnablePosition(code: bv32): bv32 {
    (code >> 11) & TRANSFER_IT_ENABLE_MASK
  }

  /** What the status getters test: the code's own bit, the reserved bits masked away. */
  lemma MaskedTest(v: bv32, code: bv32, b: bv32)
    requires Unreserved(code) == b
    ensures Touches(Unreserved(v), code) == Touches(v, b)
  {
    hide Touches, Unreserved;
    MaskedTouches(v, code);
  }

  lemma MaskedTouches(v: bv32, c: bv32)
    ensures Touches(Unreserved(v), c) == Touches(v, Unreserved(c))
  {
    hide Touches, Unreserved;
    if Touches(Unreserved(v), c) {
      MaskMoves(v, c);
    } else if Touches(v, Unreserved(c)) {
      MaskMovesBack(v, c);
    }
  }

  lemma MaskMoves(v: bv32, c: bv32)
    requires Touches(Unreserved(v), c)
    ensures Touches(v, Unreserved(c))
  {
  }

  lemma MaskMovesBack(v: bv32, c: bv32)
    requires Touches(v, Unreserved(c))
    ensures Touches(Unreserved(v), c)
  {
  }

  class Dma {
    var isr: seq<bv32>
    var cr: seq<bv32>
    var fcr: seq<bv32>

    function R(): Regs
      reads this
    {
      Regs(isr, cr, fcr)
    }

    constructor (r: Regs)
      ensures R() == r
    {
      isr, cr, fcr := r.isr, r.cr, r.fcr;
    }

    /** DMA_GetFlagStatus: the flag of the controller that the stream belongs to. */
    method GetFlagStatus(s: nat, x: nat, e: Event) returns (bitstatus: bool)
      requires Shaped(R()) && s < 16 && x < 8
      ensures bitstatus <==> Pending(R(), s / 8, x, e)
    {
      hide FlagCode, Bit, High, Touches, Unreserved;
      var flag := FlagCode(x, e);
      FlagCodeBit(x, e);
      FlagCodeHigh(x, e);
      var tmpreg := isr[Which(s, flag)];
      MaskedTest(tmpreg, flag, Bit(Quarter(x), e));
      tmpreg := Unreserved(tmpreg);
      bitstatus := Touches(tmpreg, flag);
    }

    /** DMA_GetITStatus: set exactly when the event the code names is pending and its kind is enabled in stream s. */
    method GetITStatus(s: nat, x: nat, e: Event) returns (bitstatus: bool)
      requires Shaped(R()) && s < 16 && x < 8
      ensures bitstatus <==> Pending(R(), s / 8, x, e) && Enabled(R(), s, e)
    {
      hide ItCode, Bit, High, Touches, EnableBit, Unreserved, EnablePosition;
      var it := ItCode(x, e);
      ItCodeBit(x, e);
      ItCodeHigh(x, e);
      ItCodeKind(x, e);
      ItCodeEnable(x, e);
      FEBit();
      var enabled;
      if Touches(it, TRANSFER_IT_MASK) {
        var position := EnablePosition(it);
        enabled := Touches(cr[s], position);
      } else {
        enabled := Touches(fcr[s], DMA_IT_FE);
      }
      var tmpreg := isr[Which(s, it)];
      MaskedTest(tmpreg, it, Bit(Quarter(x), e));
      tmpreg := Unreserved(tmpreg);
      bitstatus := Touches(tmpreg, it) && enabled;
    }

    /** DMA_ClearFlag and DMA_ClearITPendingBit: a write to LIFCR or HIFCR, where ones clear. */
    method ClearPending(s: nat, code: bv32)
      requires Shaped(R()) && s < 16 && (IsClearFlag(code) || IsClearIt(code))
      modifies this
      ensures Shaped(R()) && R() == Step(old(R()), Clear(s, code))
      ensures forall c, x, e :: 0 <= c < 2 && 0 <= x < 8 ==>
                (Pending(R(), c, x, e) <==> !(c == s / 8 && Names(code, x, e)) && Pending(old(R()), c, x, e))
      ensures forall t, e :: 0 <= t < 16 ==> Enabled(R(), t, e) == Enabled(old(R()), t, e)
    {
      hide Cleared, High, Touches, Bit, EnableBit, IsClearFlag, IsClearIt, Pending, Names;
      forall c, x, e | 0 <= c < 2 && 0 <= x < 8
        ensures Pending(Step(R(), Clear(s, code)), c, x, e) <==>
                !(c == s / 8 && Names(code, x, e)) && Pending(R(), c, x, e)
      {
        PendingStep(R(), Clear(s, code), c, x, e);
      }
      var i := Which(s, code);
      isr := isr[i := Cleared(isr[i], code)];
    }

    /** DMA_ITConfig. */
    method ITConfig(s: nat, it: bv32, on: bool)
      requires Shaped(R()) && s < 16 && IsConfigIt(it)
      modifies this
      ensures Shaped(R()) && R() == Step(old(R()), Config(s, it, on)) && isr == old(isr)
      ensures forall t, e :: 0 <= t < 16 ==>
                (Enabled(R(), t, e) <==>
                 if t == s && Touches(it, EnableBit(e)) then on else Enabled(old(R()), t, e))
      // every admitted code lists an event
      ensures exists e :: Touches(it, EnableBit(e)) && Enabled(R(), s, e) == on
    {
      SomeListed(it);
      hide SetOrClear, Touches, EnableBit, IsConfigIt, Enabled;
      forall t, e | 0 <= t < 16
        ensures Enabled(Step(R(), Config(s, it, on)), t, e) <==>
                if t == s && Touches(it, EnableBit(e)) then on else Enabled(R(), t, e)
      {
        EnabledStep(R(), Config(s, it, on), t, e);
      }
      if it & DMA_IT_FE != 0 {
        fcr := fcr[s := SetOrClear(fcr[s], DMA_IT_FE, on)];
      }
      if it != DMA_IT_FE {
        cr := cr[s := SetOrClear(cr[s], it & TRANSFER_IT_ENABLE_MASK, on)];
      }
    }
  }

  lemma FEBit()
    ensures EnableBit(FE) == DMA_IT_FE
  {
  }
}
