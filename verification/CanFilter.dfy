/**
 The acceptance filters of bxCAN: 28 banks spread over four bitmap registers and the pairs FR1/FR2, and the first
 bank of the slave in FMR. The device ignores a write that its filter initialisation mode does not permit.
 */
module CanFilter {
  import opened Fields

  const FINIT: bv32 := 1
  const BANKS: bv32 := 28

  datatype Regs = Regs(fmr: bv32, fm1r: bv32, fs1r: bv32, ffa1r: bv32, fa1r: bv32,
                       fr1: seq<bv32>, fr2: seq<bv32>)

  predicate Shaped(r: Regs) {
    |r.fr1| == |r.fr2| == 28
  }

  /** The place of bank n in fr1 and fr2. */
  function Index(n: bv32): (i: nat)
    requires n < BANKS
    ensures i < 28
  {
    n as nat
  }

  /** One bank, as the registers describe it: in 16-bit scale each of FR1 and FR2 holds an identifier and a mask. */
  datatype Bank = Bank(active: bool, wide: bool, list: bool, fifo1: bool,
                       idHigh: bv32, idLow: bv32, maskHigh: bv32, maskLow: bv32)

  /** The bit of bank k in a bitmap. */
  predicate BitOf(v: bv32, k: bv32)
    requires k < 32
  {
    Touches(v, OneAt(k))
  }

  function SetBit(v: bv32, k: bv32): bv32
    requires k < 32
  {
    Or(v, OneAt(k))
  }

  function ClearBit(v: bv32, k: bv32): bv32
    requires k < 32
  {
    AndNot(v, OneAt(k))
  }

  function Low(v: bv32): bv32 { v & 0xFFFF }

  function High(v: bv32): bv32 { v >> 16 }

  function Pair(high: bv32, low: bv32): bv32 {
    ((0xFFFF & high) << 16) | (0xFFFF & low)
  }

  /** The bank with these flags and this content of FR1 and FR2. */
  function Decode(active: bool, wide: bool, list: bool, fifo1: bool, f: bv32, g: bv32): Bank {
    if wide then Bank(active, wide, list, fifo1, High(f), Low(f), High(g), Low(g))
    else Bank(active, wide, list, fifo1, Low(g), Low(f), High(g), High(f))
  }

  function BankOf(r: Regs, k: bv32): Bank
    requires Shaped(r) && k < BANKS
  {
    Decode(BitOf(r.fa1r, k), BitOf(r.fs1r, k), BitOf(r.fm1r, k), BitOf(r.ffa1r, k), r.fr1[Index(k)], r.fr2[Index(k)])
  }

  predicate InitMode(r: Regs) {
    Touches(r.fmr, FINIT)
  }

  /** The first bank of the slave controller, CAN2SB. */
  function StartBank(r: Regs): bv32 { Get(r.fmr, 8, 6) }

  // ---- The calls ----

  datatype Call = Filter(n: bv32, bank: Bank) | SlaveStart(bankNumber: bv32)

  predicate Allowed(c: Call) {
    match c
    case Filter(n, b) => n < BANKS && b.idHigh <= 0xFFFF && b.idLow <= 0xFFFF && b.maskHigh <= 0xFFFF && b.maskLow <= 0xFFFF
    case SlaveStart(bankNumber) => 1 <= bankNumber <= 27
  }

  type Config = c: Call | Allowed(c) witness SlaveStart(1)

  function WithBit(v: bv32, k: bv32, on: bool): bv32
    requires k < 32
  {
    if on then SetBit(v, k) else ClearBit(v, k)
  }

  /** The activity bit is cleared first in any case. */
  function Activated(v: bv32, k: bv32, on: bool): bv32
    requires k < 32
  {
    if on then SetBit(ClearBit(v, k), k) else ClearBit(v, k)
  }

  function Fr1(b: Bank): bv32 {
    if b.wide then Pair(b.idHigh, b.idLow) else Pair(b.maskLow, b.idLow)
  }

  function Fr2(b: Bank): bv32 {
    if b.wide then Pair(b.maskHigh, b.maskLow) else Pair(b.maskHigh, b.idHigh)
  }

  function SetStart(fmr: bv32, bankNumber: bv32): bv32 {
    ((fmr | FINIT) & 0xFFFF_C0F1) | (bankNumber << 8)
  }

  function LeaveInit(fmr: bv32): bv32 { fmr & !FINIT }

  function Step(r: Regs, c: Config): (r': Regs)
    requires Shaped(r)
    ensures Shaped(r')
  {
    match c
    case Filter(n, b) =>
      Regs(LeaveInit(r.fmr), WithBit(r.fm1r, n, b.list), WithBit(r.fs1r, n, b.wide), WithBit(r.ffa1r, n, b.fifo1),
           Activated(r.fa1r, n, b.active), r.fr1[Index(n) := Fr1(b)], r.fr2[Index(n) := Fr2(b)])
    case SlaveStart(bankNumber) => r.(fmr := LeaveInit(SetStart(r.fmr, bankNumber)))
  }

  function Run(r: Regs, calls: seq<Config>): (r': Regs)
    requires Shaped(r)
    ensures Shaped(r')
  {
    if calls == [] then r else Step(Run(r, calls[..|calls| - 1]), calls[|calls| - 1])
  }

  // ---- The registers refine 28 records ----

  function LastBank(calls: seq<Config>, k: bv32, before: Bank): Bank {
    if calls == [] then before else
      match calls[|calls| - 1]
      case Filter(n, b) => if n == k then b else LastBank(calls[..|calls| - 1], k, before)
      case SlaveStart(_) => LastBank(calls[..|calls| - 1], k, before)
  }

  function LastStart(calls: seq<Config>, before: bv32): bv32 {
    if calls == [] then before else
      match calls[|calls| - 1]
      case Filter(_, _) => LastStart(calls[..|calls| - 1], before)
      case SlaveStart(bankNumber) => bankNumber
  }

  lemma WithBitBit(v: bv32, n: bv32, on: bool, k: bv32)
    requires n < BANKS && k < BANKS
    ensures BitOf(WithBit(v, n, on), k) == if k == n then on else BitOf(v, k)
  {
    hide BitOf, SetBit, ClearBit;
    if on {
      SetBitBit(v, n, k);
    } else {
      ClearBitBit(v, n, k);
    }
  }

  lemma ActivatedBit(v: bv32, n: bv32, on: bool, k: bv32)
    requires n < BANKS && k < BANKS
    ensures BitOf(Activated(v, n, on), k) == if k == n then on else BitOf(v, k)
  {
    hide BitOf, SetBit, ClearBit;
    ClearBitBit(v, n, k);
    if on {
      SetBitBit(ClearBit(v, n), n, k);
    }
  }

  lemma SetBitBit(v: bv32, n: bv32, k: bv32)
    requires n < BANKS && k < BANKS
    ensures BitOf(SetBit(v, n), k) == (k == n || BitOf(v, k))
  {
    hide OneAt, Or, Touches;
    OneAtApart(n, k);
    OrTouches(v, OneAt(n), OneAt(k));
  }

  lemma ClearBitBit(v: bv32, n: bv32, k: bv32)
    requires n < BANKS && k < BANKS
    ensures BitOf(ClearBit(v, n), k) == (k != n && BitOf(v, k))
  {
    hide OneAt, AndNot, Touches;
    OneAtApart(n, k);
    AndNotTouches(v, OneAt(n), OneAt(k));
  }

  lemma PairHalves(high: bv32, low: bv32)
    requires high <= 0xFFFF && low <= 0xFFFF
    ensures Low(Pair(high, low)) == low
    ensures High(Pair(high, low)) == high
  {
  }

  /** A call rewrites its own bank whole and no other. */
  lemma StepBank(r: Regs, c: Config, k: bv32)
    requires Shaped(r) && k < BANKS
    ensures BankOf(Step(r, c), k) == if c.Filter? && c.n == k then c.bank else BankOf(r, k)
  {
    hide BitOf, WithBit, Activated, Decode, Fr1, Fr2, LeaveInit, SetStart, Index;
    match c
    case Filter(n, b) =>
      WithBitBit(r.fm1r, n, b.list, k);
      WithBitBit(r.fs1r, n, b.wide, k);
      WithBitBit(r.ffa1r, n, b.fifo1, k);
      ActivatedBit(r.fa1r, n, b.active, k);
      DecodeBack(c);
      OtherBanks(r.fr1, n, Fr1(b), k);
      OtherBanks(r.fr2, n, Fr2(b), k);
    case SlaveStart(_) =>
  }

  lemma OtherBanks(m: seq<bv32>, n: bv32, v: bv32, k: bv32)
    requires |m| == 28 && n < BANKS && k < BANKS
    ensures m[Index(n) := v][Index(k)] == if k == n then v else m[Index(k)]
  {
    if Index(k) == Index(n) {
      IndexInjective(n, k);
    } else {
    }
  }

  lemma IndexInjective(n: bv32, k: bv32)
    requires n < BANKS && k < BANKS && Index(n) == Index(k)
    ensures n == k
  {
  }

  lemma DecodeBack(c: Config)
    requires c.Filter?
    ensures var b := c.bank; Decode(b.active, b.wide, b.list, b.fifo1, Fr1(b), Fr2(b)) == b
  {
    hide Low, High, Pair;
    var b := c.bank;
    PairHalves(b.idHigh, b.idLow);
    PairHalves(b.maskHigh, b.maskLow);
    PairHalves(b.maskLow, b.idLow);
    PairHalves(b.maskHigh, b.idHigh);
  }

  /**
   The registers after CAN_FilterInit: scale in FS1R, mode in FM1R, FIFO in FFA1R and activity in FA1R, one bit a bank; in 32-bit
   scale FR1 is the identifier and FR2 the mask, in 16-bit scale each has an identifier in the low half and its mask in the high
   half. FINIT, bit 0 of FMR, is clear.
   */
  lemma FilterWords(r: Regs, n: bv32, b: Bank, k: bv32)
    requires Shaped(r) && Allowed(Filter(n, b)) && k < BANKS
    ensures var r' := Step(r, Filter(n, b));
            && (BitOf(r'.fs1r, k) <==> if k == n then b.wide else BitOf(r.fs1r, k))
            && (BitOf(r'.fm1r, k) <==> if k == n then b.list else BitOf(r.fm1r, k))
            && (BitOf(r'.ffa1r, k) <==> if k == n then b.fifo1 else BitOf(r.ffa1r, k))
            && (BitOf(r'.fa1r, k) <==> if k == n then b.active else BitOf(r.fa1r, k))
            && r'.fr1 == r.fr1[Index(n) := if b.wide then Halves(b.idHigh, b.idLow) else Halves(b.maskLow, b.idLow)]
            && r'.fr2 == r.fr2[Index(n) := if b.wide then Halves(b.maskHigh, b.maskLow) else Halves(b.maskHigh, b.idHigh)]
            && r'.fmr == AndNot(r.fmr, 1)
  {
    hide BitOf, WithBit, Activated, Pair, Halves, AndNot, Index, LeaveInit;
    WithBitBit(r.fs1r, n, b.wide, k);
    WithBitBit(r.fm1r, n, b.list, k);
    WithBitBit(r.ffa1r, n, b.fifo1, k);
    ActivatedBit(r.fa1r, n, b.active, k);
    PairIs(b.idHigh, b.idLow);
    PairIs(b.maskHigh, b.maskLow);
    PairIs(b.maskLow, b.idLow);
    PairIs(b.maskHigh, b.idHigh);
    LeaveInitIs(r.fmr);
  }

  /** The word with these halves. */
  function Halves(high: bv32, low: bv32): bv32 {
    (high << 16) | low
  }

  lemma PairIs(high: bv32, low: bv32)
    requires high <= 0xFFFF && low <= 0xFFFF
    ensures Pair(high, low) == Halves(high, low)
  {
  }

  lemma LeaveInitIs(fmr: bv32)
    ensures LeaveInit(fmr) == AndNot(fmr, 1)
  {
  }

  /** FMR after CAN_SlaveStartBank: the bank in bits 13 to 8, bits 0 to 3 clear, the others as before. */
  lemma SlaveWord(r: Regs, bankNumber: bv32)
    requires Shaped(r) && Allowed(SlaveStart(bankNumber))
    ensures Step(r, SlaveStart(bankNumber)) == r.(fmr := (r.fmr & 0xFFFF_C0F0) | (bankNumber << 8))
  {
    hide LeaveInit, SetStart;
    SlaveWordIs(r.fmr, bankNumber);
  }

  lemma SlaveWordIs(fmr: bv32, bankNumber: bv32)
    requires 1 <= bankNumber <= 27
    ensures LeaveInit(SetStart(fmr, bankNumber)) == (fmr & 0xFFFF_C0F0) | (bankNumber << 8)
  {
  }

  /** The bit of a bank is bit k of the word. */
  lemma BitOfMeans(v: bv32, k: bv32)
    requires k < BANKS
    ensures BitOf(v, k) <==> (v >> k) & 1 == 1
  {
    hide Touches, OneAt;
    BitMeans(v, k);
  }

  /** Over every sequence of calls, each bank is its last configuration. */
  lemma {:induction false} BankTable(r: Regs, calls: seq<Config>, k: bv32)
    requires Shaped(r) && k < BANKS
    ensures BankOf(Run(r, calls), k) == LastBank(calls, k, BankOf(r, k))
  {
    if calls != [] {
      hide BankOf, Step, Shaped;
      BankTable(r, calls[..|calls| - 1], k);
      StepBank(Run(r, calls[..|calls| - 1]), calls[|calls| - 1], k);
    }
  }

  lemma LeaveInitStart(fmr: bv32)
    ensures Get(LeaveInit(fmr), 8, 6) == Get(fmr, 8, 6)
  {
  }

  lemma SetStartStart(fmr: bv32, bankNumber: bv32)
    requires 1 <= bankNumber <= 27
    ensures Get(SetStart(fmr, bankNumber), 8, 6) == bankNumber
  {
  }

  lemma LeaveInitLeaves(fmr: bv32)
    ensures LeaveInit(fmr) & FINIT == 0
  {
  }

  /** The slave's first bank is the last one set, and initialisation mode is left after every call. */
  lemma {:induction false} StartTable(r: Regs, calls: seq<Config>)
    requires Shaped(r)
    ensures StartBank(Run(r, calls)) == LastStart(calls, StartBank(r))
    ensures calls != [] ==> !InitMode(Run(r, calls))
  {
    if calls != [] {
      hide Get, LeaveInit, SetStart, WithBit;
      var r' := Run(r, calls[..|calls| - 1]);
      StartTable(r, calls[..|calls| - 1]);
      match calls[|calls| - 1]
      case Filter(n, b) =>
        LeaveInitStart(r'.fmr);
        LeaveInitLeaves(r'.fmr);
      case SlaveStart(bankNumber) =>
        SetStartStart(r'.fmr, bankNumber);
        LeaveInitStart(SetStart(r'.fmr, bankNumber));
        LeaveInitLeaves(SetStart(r'.fmr, bankNumber));
    }
  }

  // ---- The device and the driver ----

  /** Where x and y differ, no bank is active. */
  predicate Inactive(x: bv32, y: bv32, active: bv32) {
    (x ^ y) & active == 0
  }

  lemma OneBitInactive(x: bv32, n: bv32, on: bool, active: bv32)
    requires n < BANKS && !BitOf(active, n)
    ensures Inactive(x, WithBit(x, n, on), active)
  {
    hide BitOf, Inactive, SetBit, ClearBit;
    if on {
      SetInactive(x, n, active);
    } else {
      ClearInactive(x, n, active);
    }
  }

  lemma SetInactive(x: bv32, n: bv32, active: bv32)
    requires n < BANKS && !BitOf(active, n)
    ensures Inactive(x, SetBit(x, n), active)
  {
    hide OneAt;
  }

  lemma ClearInactive(x: bv32, n: bv32, active: bv32)
    requires n < BANKS && !BitOf(active, n)
    ensures Inactive(x, ClearBit(x, n), active)
  {
    hide OneAt;
  }

  function EnterInit(fmr: bv32): bv32 { fmr | FINIT }

  lemma EnterInitEnters(fmr: bv32)
    ensures EnterInit(fmr) & FINIT != 0
    ensures LeaveInit(EnterInit(fmr)) == LeaveInit(fmr)
  {
    SetThenCleared(fmr);
  }

  lemma SetThenCleared(v: bv32)
    ensures (v | FINIT) & !FINIT == v & !FINIT
  {
  }

  lemma EnterInitStart(fmr: bv32)
    ensures Get(EnterInit(fmr), 8, 6) == Get(fmr, 8, 6)
  {
  }

  lemma SetStartParts(fmr: bv32, bankNumber: bv32)
    ensures EnterInit(fmr) & 0xFFFF_C0F1 & FINIT != 0
    ensures (EnterInit(fmr) & 0xFFFF_C0F1) | (bankNumber << 8) == SetStart(fmr, bankNumber)
  {
  }

  class CanFilter {
    var r: Regs
    /** No write so far has changed the scale, mode, FIFO or identifiers of a bank while it was active. */
    ghost var quiet: bool

    constructor (r: Regs)
      ensures this.r == r && quiet
    {
      this.r, quiet := r, true;
    }

    // The device.

    /** CAN2SB can only be changed in initialisation mode. */
    method WriteFMR(v: bv32)
      modifies this
      ensures quiet == old(quiet)
      ensures r == old(r).(fmr := if InitMode(old(r)) then v else Put(v, 8, 6, StartBank(old(r))))
    {
      hide Get, Put;
      r := r.(fmr := if InitMode(r) then v else Put(v, 8, 6, StartBank(r)));
    }

    method WriteFA1R(v: bv32)
      modifies this
      ensures quiet == old(quiet) && r == old(r).(fa1r := v)
    {
      r := r.(fa1r := v);
    }

    method WriteFM1R(v: bv32)
      modifies this
      ensures r == if InitMode(old(r)) then old(r).(fm1r := v) else old(r)
      ensures quiet == (old(quiet) && Inactive(old(r).fm1r, r.fm1r, r.fa1r))
    {
      hide Inactive;
      ghost var x := r.fm1r;
      if InitMode(r) {
        r := r.(fm1r := v);
      }
      quiet := quiet && Inactive(x, r.fm1r, r.fa1r);
    }

    method WriteFS1R(v: bv32)
      modifies this
      ensures r == if InitMode(old(r)) then old(r).(fs1r := v) else old(r)
      ensures quiet == (old(quiet) && Inactive(old(r).fs1r, r.fs1r, r.fa1r))
    {
      hide Inactive;
      ghost var x := r.fs1r;
      if InitMode(r) {
        r := r.(fs1r := v);
      }
      quiet := quiet && Inactive(x, r.fs1r, r.fa1r);
    }

    method WriteFFA1R(v: bv32)
      modifies this
      ensures r == if InitMode(old(r)) then old(r).(ffa1r := v) else old(r)
      ensures quiet == (old(quiet) && Inactive(old(r).ffa1r, r.ffa1r, r.fa1r))
    {
      hide Inactive;
      ghost var x := r.ffa1r;
      if InitMode(r) {
        r := r.(ffa1r := v);
      }
      quiet := quiet && Inactive(x, r.ffa1r, r.fa1r);
    }

    /** The registers of a bank can be written while it is inactive or in initialisation mode. */
    method WriteFR(n: bv32, first: bool, v: bv32)
      requires n < BANKS && Shaped(r)
      modifies this
      ensures r == if BitOf(old(r).fa1r, n) && !InitMode(old(r)) then old(r)
                   else if first then old(r).(fr1 := old(r).fr1[Index(n) := v]) else old(r).(fr2 := old(r).fr2[Index(n) := v])
      ensures quiet == (old(quiet) && (!BitOf(old(r).fa1r, n) || r == old(r)))
    {
      hide BitOf;
      ghost var r0 := r;
      if !BitOf(r.fa1r, n) || InitMode(r) {
        r := if first then r.(fr1 := r.fr1[Index(n) := v]) else r.(fr2 := r.fr2[Index(n) := v]);
      }
      quiet := quiet && (!BitOf(r0.fa1r, n) || r == r0);
    }

    // The driver.

    /** CAN_FilterInit. */
    method FilterInit(n: bv32, b: Bank)
      requires Allowed(Filter(n, b)) && Shaped(r)
      modifies this
      ensures r == Step(old(r), Filter(n, b)) && quiet == old(quiet)
    {
      hide BitOf, SetBit, ClearBit, Inactive, Get, Put, EnterInit, LeaveInit, Pair;
      Enter();
      ClearBitBit(r.fa1r, n, n);
      WriteFA1R(ClearBit(r.fa1r, n));
      Configure(n, b);
      if b.active {
        WriteFA1R(SetBit(r.fa1r, n));
      }
      EnterInitEnters(old(r).fmr);
      WriteFMR(LeaveInit(r.fmr));
    }

    /** FMR |= FINIT. */
    method Enter()
      modifies this
      ensures r == old(r).(fmr := EnterInit(old(r).fmr)) && InitMode(r) && quiet == old(quiet)
    {
      EnterInitEnters(r.fmr);
      EnterInitStart(r.fmr);
      PutSame(EnterInit(r.fmr));
      hide Get, Put, EnterInit;
      WriteFMR(EnterInit(r.fmr));
    }

    /** Scale and registers, mode, FIFO assignment, in that order, with the bank inactive. */
    method Configure(n: bv32, b: Bank)
      requires n < BANKS && Shaped(r) && InitMode(r) && !BitOf(r.fa1r, n)
      modifies this
      ensures r == old(r).(fm1r := WithBit(old(r).fm1r, n, b.list), fs1r := WithBit(old(r).fs1r, n, b.wide),
                           ffa1r := WithBit(old(r).ffa1r, n, b.fifo1),
                           fr1 := old(r).fr1[Index(n) := Fr1(b)], fr2 := old(r).fr2[Index(n) := Fr2(b)])
      ensures quiet == old(quiet)
    {
      hide BitOf, WithBit, InitMode, Fr1, Fr2, Index;
      SetScale(n, b);
      SetModeAndFifo(n, b);
    }

    method SetScale(n: bv32, b: Bank)
      requires n < BANKS && Shaped(r) && InitMode(r) && !BitOf(r.fa1r, n)
      modifies this
      ensures r == old(r).(fs1r := WithBit(old(r).fs1r, n, b.wide),
                           fr1 := old(r).fr1[Index(n) := Fr1(b)], fr2 := old(r).fr2[Index(n) := Fr2(b)])
      ensures InitMode(r) && quiet == old(quiet)
    {
      hide BitOf, SetBit, ClearBit, Inactive, Pair, Index, And, Or;
      OneBitInactive(r.fs1r, n, b.wide, r.fa1r);
      if !b.wide {
        WriteFS1R(ClearBit(r.fs1r, n));
        WriteFR(n, true, Pair(b.maskLow, b.idLow));
        WriteFR(n, false, Pair(b.maskHigh, b.idHigh));
      }
      if b.wide {
        WriteFS1R(SetBit(r.fs1r, n));
        WriteFR(n, true, Pair(b.idHigh, b.idLow));
        WriteFR(n, false, Pair(b.maskHigh, b.maskLow));
      }
    }

    method SetModeAndFifo(n: bv32, b: Bank)
      requires n < BANKS && InitMode(r) && !BitOf(r.fa1r, n)
      modifies this
      ensures r == old(r).(fm1r := WithBit(old(r).fm1r, n, b.list), ffa1r := WithBit(old(r).ffa1r, n, b.fifo1))
      ensures quiet == old(quiet)
    {
      hide BitOf, SetBit, ClearBit, Inactive;
      OneBitInactive(r.fm1r, n, b.list, r.fa1r);
      OneBitInactive(r.ffa1r, n, b.fifo1, r.fa1r);
      if !b.list {
        WriteFM1R(ClearBit(r.fm1r, n));
      } else {
        WriteFM1R(SetBit(r.fm1r, n));
      }
      if !b.fifo1 {
        WriteFFA1R(ClearBit(r.ffa1r, n));
      }
      if b.fifo1 {
        WriteFFA1R(SetBit(r.ffa1r, n));
      }
    }

    /** CAN_SlaveStartBank. */
    method SlaveStartBank(bankNumber: bv32)
      requires 1 <= bankNumber <= 27 && Shaped(r)
      modifies this
      ensures r == Step(old(r), SlaveStart(bankNumber)) && quiet == old(quiet)
    {
      hide Get, Put, EnterInit, LeaveInit, SetStart;
      Enter();
      SetStartParts(old(r).fmr, bankNumber);
      WriteFMR(r.fmr & 0xFFFF_C0F1);
      WriteFMR(r.fmr | (bankNumber << 8));
      SetStartInit(old(r).fmr, bankNumber);
      WriteFMR(LeaveInit(r.fmr));
    }
  }

  lemma SetStartInit(fmr: bv32, bankNumber: bv32)
    ensures SetStart(fmr, bankNumber) & FINIT != 0
  {
  }

  lemma PutSame(v: bv32)
    ensures Put(v, 8, 6, Get(v, 8, 6)) == v
  {
  }
}
