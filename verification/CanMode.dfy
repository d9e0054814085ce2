/**
 The mode handshakes of bxCAN: CAN_Init, CAN_OperatingModeRequest and CAN_WakeUp ask for a mode in MCR and wait,
 a bounded number of times, for MSR to acknowledge it. Every read of MSR may show anything.
 */
module CanMode {
  import opened Fields

  const WAITS: nat := 0xFFFF

  // MCR
  const INRQ: bv32 := 0x01
  const SLEEP: bv32 := 0x02
  const TXFP: bv32 := 0x04
  const RFLM: bv32 := 0x08
  const NART: bv32 := 0x10
  const AWUM: bv32 := 0x20
  const ABOM: bv32 := 0x40
  const TTCM: bv32 := 0x80

  // MSR
  const INAK: bv32 := 0x01
  const SLAK: bv32 := 0x02
  const MODE_MASK: bv32 := 0x03

  datatype Setup = Setup(prescaler: bv32, mode: bv32, sjw: bv32, bs1: bv32, bs2: bv32,
                         ttcm: bool, abom: bool, awum: bool, nart: bool, rflm: bool, txfp: bool)

  /** The parameter checks of CAN_Init. */
  predicate Allowed(i: Setup) {
    1 <= i.prescaler <= 1024 && i.mode <= 3 && i.sjw <= 3 && i.bs1 <= 15 && i.bs2 <= 7
  }

  // ---- BTR ----

  function Timing(i: Setup): bv32 {
    (i.mode << 30) | (i.sjw << 24) | (i.bs1 << 16) | (i.bs2 << 20) | (i.prescaler - 1)
  }

  lemma ModeBack(i: Setup)
    requires Allowed(i)
    ensures Get(Timing(i), 30, 2) == i.mode
  {
  }

  lemma SjwBack(i: Setup)
    requires Allowed(i)
    ensures Get(Timing(i), 24, 2) == i.sjw
  {
  }

  lemma Bs1Back(i: Setup)
    requires Allowed(i)
    ensures Get(Timing(i), 16, 4) == i.bs1
  {
  }

  lemma Bs2Back(i: Setup)
    requires Allowed(i)
    ensures Get(Timing(i), 20, 3) == i.bs2
  {
  }

  lemma PrescalerBack(i: Setup)
    requires Allowed(i)
    ensures Get(Timing(i), 0, 10) == i.prescaler - 1
  {
  }

  /** BTR decodes back to the five timing settings. */
  lemma TimingBack(i: Setup)
    requires Allowed(i)
    ensures Get(Timing(i), 30, 2) == i.mode && Get(Timing(i), 24, 2) == i.sjw && Get(Timing(i), 16, 4) == i.bs1
    ensures Get(Timing(i), 20, 3) == i.bs2 && Get(Timing(i), 0, 10) == i.prescaler - 1
  {
    hide Get, Timing;
    ModeBack(i);
    SjwBack(i);
    Bs1Back(i);
    Bs2Back(i);
    PrescalerBack(i);
  }

  // ---- MCR ----

  function With(mcr: bv32, bit: bv32, on: bool): bv32 {
    if on then Or(mcr, bit) else AndNot(mcr, bit)
  }

  datatype Flag = Ttcm | Abom | Awum | Nart | Rflm | Txfp

  function BitOf(f: Flag): bv32 {
    match f case Ttcm => TTCM case Abom => ABOM case Awum => AWUM case Nart => NART case Rflm => RFLM case Txfp => TXFP
  }

  function SetFlag(mcr: bv32, f: Flag, on: bool): bv32 {
    With(mcr, BitOf(f), on)
  }

  /** The order in which CAN_Init sets the options. */
  function Turn(f: Flag): nat {
    match f case Ttcm => 0 case Abom => 1 case Awum => 2 case Nart => 3 case Rflm => 4 case Txfp => 5
  }

  function FlagAt(n: nat): Flag {
    if n == 0 then Ttcm else if n == 1 then Abom else if n == 2 then Awum else if n == 3 then Nart
    else if n == 4 then Rflm else Txfp
  }

  /** MCR after the first n options are set. */
  function FirstOptions(mcr: bv32, i: Setup, n: nat): bv32 {
    if n == 0 then mcr else SetFlag(FirstOptions(mcr, i, n - 1), FlagAt(n - 1), OptionOf(FlagAt(n - 1), i))
  }

  /** MCR after the six options are set. */
  function Options(mcr: bv32, i: Setup): bv32 {
    FirstOptions(mcr, i, 6)
  }

  lemma WithTouches(v: bv32, bit: bv32, on: bool, m: bv32)
    ensures !Touches(bit, m) ==> Touches(With(v, bit, on), m) == Touches(v, m)
    ensures bit == m && Touches(bit, bit) ==> Touches(With(v, bit, on), m) == on
  {
    hide Touches, Or, AndNot;
    OrTouches(v, bit, m);
    AndNotTouches(v, bit, m);
  }

  function OptionOf(f: Flag, i: Setup): bool {
    match f
    case Ttcm => i.ttcm case Abom => i.abom case Awum => i.awum
    case Nart => i.nart case Rflm => i.rflm case Txfp => i.txfp
  }

  /** Each option bit shows its option. */
  lemma OptionsRead(mcr: bv32, i: Setup, f: Flag)
    ensures Touches(Options(mcr, i), BitOf(f)) == OptionOf(f, i)
  {
    hide Touches, FirstOptions, BitOf;
    FirstOptionsRead(mcr, i, f, 6);
  }

  lemma {:induction false} FirstOptionsRead(mcr: bv32, i: Setup, f: Flag, n: nat)
    requires n <= 6
    ensures Touches(FirstOptions(mcr, i, n), BitOf(f)) == if Turn(f) < n then OptionOf(f, i) else Touches(mcr, BitOf(f))
  {
    hide Touches, SetFlag, BitOf, OptionOf;
    if n != 0 {
      FirstOptionsRead(mcr, i, f, n - 1);
      OptionRead(FirstOptions(mcr, i, n - 1), FlagAt(n - 1), OptionOf(FlagAt(n - 1), i), f);
    }
  }

  lemma OptionRead(v: bv32, g: Flag, on: bool, f: Flag)
    ensures Touches(SetFlag(v, g, on), BitOf(f)) == if f == g then on else Touches(v, BitOf(f))
  {
    hide Touches, With, BitOf;
    FlagsApart(g, f);
    WithTouches(v, BitOf(g), on, BitOf(f));
  }

  lemma FlagsApart(g: Flag, f: Flag)
    ensures Touches(BitOf(g), BitOf(f)) == (f == g)
  {
  }

  /** A mask outside the six option bits. */
  predicate Other(m: bv32) {
    m & 0xFC == 0
  }

  /** No other bit of MCR changes. */
  lemma OptionsKeep(mcr: bv32, i: Setup, m: bv32)
    requires Other(m)
    ensures Touches(Options(mcr, i), m) == Touches(mcr, m)
  {
    hide Touches, FirstOptions, Other;
    FirstOptionsKeep(mcr, i, m, 6);
  }

  lemma {:induction false} FirstOptionsKeep(mcr: bv32, i: Setup, m: bv32, n: nat)
    requires Other(m) && n <= 6
    ensures Touches(FirstOptions(mcr, i, n), m) == Touches(mcr, m)
  {
    hide Touches, SetFlag, Other, OptionOf, FlagAt;
    if n != 0 {
      FirstOptionsKeep(mcr, i, m, n - 1);
      OptionKeeps(FirstOptions(mcr, i, n - 1), FlagAt(n - 1), OptionOf(FlagAt(n - 1), i), m);
    }
  }

  lemma OptionKeeps(v: bv32, g: Flag, on: bool, m: bv32)
    requires Other(m)
    ensures Touches(SetFlag(v, g, on), m) == Touches(v, m)
  {
    hide Touches, With, BitOf, Other;
    OtherApart(g, m);
    WithTouches(v, BitOf(g), on, m);
  }

  lemma OtherApart(g: Flag, m: bv32)
    requires Other(m)
    ensures !Touches(BitOf(g), m)
  {
  }

  /** Any bits of MCR that are no options stay. */
  lemma {:induction false} FirstOptionsRest(mcr: bv32, i: Setup, m: bv32, n: nat)
    requires Other(m) && n <= 6
    ensures And(FirstOptions(mcr, i, n), m) == And(mcr, m)
  {
    hide And, SetFlag, OptionOf, FlagAt, Other;
    if n != 0 {
      FirstOptionsRest(mcr, i, m, n - 1);
      FlagRest(FirstOptions(mcr, i, n - 1), FlagAt(n - 1), OptionOf(FlagAt(n - 1), i), m);
    }
  }

  lemma FlagRest(v: bv32, f: Flag, on: bool, m: bv32)
    requires Other(m)
    ensures And(SetFlag(v, f, on), m) == And(v, m)
  {
    hide And, Or, AndNot, BitOf, Other, Touches;
    OtherApart(f, m);
    OrKeeps(v, BitOf(f), m);
    AndNotKeeps(v, BitOf(f), m);
  }

  lemma TouchesAnd(v: bv32, m: bv32)
    ensures Touches(v, m) <==> And(v, m) != 0
  {
  }

  /** MCR after CAN_Init has set the options, option by option; no other bit changes. */
  lemma OptionsWord(mcr: bv32, i: Setup, m: bv32)
    requires Other(m)
    ensures var v := Options(mcr, i);
            && (And(v, 0x80) != 0 <==> i.ttcm) && (And(v, 0x40) != 0 <==> i.abom) && (And(v, 0x20) != 0 <==> i.awum)
            && (And(v, 0x10) != 0 <==> i.nart) && (And(v, 0x08) != 0 <==> i.rflm) && (And(v, 0x04) != 0 <==> i.txfp)
            && And(v, m) == And(mcr, m)
  {
    hide And, FirstOptions, Touches, Other;
    var v := Options(mcr, i);
    OptionShown(v, mcr, i, Ttcm);
    OptionShown(v, mcr, i, Abom);
    OptionShown(v, mcr, i, Awum);
    OptionShown(v, mcr, i, Nart);
    OptionShown(v, mcr, i, Rflm);
    OptionShown(v, mcr, i, Txfp);
    FirstOptionsRest(mcr, i, m, 6);
  }

  lemma OptionShown(v: bv32, mcr: bv32, i: Setup, f: Flag)
    requires v == Options(mcr, i)
    ensures And(v, BitOf(f)) != 0 <==> OptionOf(f, i)
  {
    hide And, Options, Touches, BitOf;
    OptionsRead(mcr, i, f);
    TouchesAnd(v, BitOf(f));
  }

  // ---- Waiting ----

  /** MSR shows what is waited for. */
  predicate Shows(msr: bv32, mask: bv32, value: bv32) {
    msr & mask == value
  }

  /** The number of reads a wait makes from read t on, when it may still step left times. */
  function Spent(env: nat -> bv32, t: nat, left: nat, mask: bv32, value: bv32, want: bool): (n: nat)
    decreases left
  {
    if Shows(env(t), mask, value) == want || left == 0 then 1
    else 1 + Spent(env, t + 1, left - 1, mask, value, want)
  }

  /** A wait ends at the first read that shows what it wants, and gives up after left steps. */
  lemma {:induction false} SpentMeans(env: nat -> bv32, t: nat, left: nat, mask: bv32, value: bv32, want: bool)
    ensures var n := Spent(env, t, left, mask, value, want);
            && 1 <= n <= left + 1
            && (forall j: nat :: t <= j < t + n - 1 ==> Shows(env(j), mask, value) != want)
            && (n <= left ==> Shows(env(t + n - 1), mask, value) == want)
    decreases left
  {
    hide Shows;
    if Shows(env(t), mask, value) != want && left != 0 {
      SpentMeans(env, t + 1, left - 1, mask, value, want);
    }
  }

  lemma SpentStep(env: nat -> bv32, t: nat, left: nat, mask: bv32, value: bv32, want: bool)
    ensures Spent(env, t, left, mask, value, want) ==
            if Shows(env(t), mask, value) == want || left == 0 then 1
            else 1 + Spent(env, t + 1, left - 1, mask, value, want)
  {
  }

  /** When a wait from read t on is over, and the read that decides about it. */
  function Decides(env: nat -> bv32, t: nat, mask: bv32, value: bv32, want: bool): nat {
    t + Spent(env, t, WAITS, mask, value, want)
  }

  /** What CAN_OperatingModeRequest asks for in MCR and waits for in MSR. */
  function Requested(mode: bv8, mcr: bv32): bv32 {
    if mode == 0 then Or(AndNot(mcr, SLEEP), INRQ)
    else if mode == 1 then AndNot(mcr, SLEEP | INRQ)
    else if mode == 2 then Or(AndNot(mcr, INRQ), SLEEP)
    else mcr
  }

  function Awaited(mode: bv8): bv32 {
    if mode == 0 then INAK else if mode == 1 then 0 else SLAK
  }

  /** Bits that are no request. */
  predicate NoRequest(m: bv32) {
    !Touches(SLEEP, m) && !Touches(INRQ, m) && !Touches(SLEEP | INRQ, m)
  }

  lemma AskInit(mcr: bv32)
    ensures And(Or(AndNot(mcr, SLEEP), INRQ), 3) == 1
  {
  }

  lemma AskNormal(mcr: bv32)
    ensures And(AndNot(mcr, SLEEP | INRQ), 3) == 0
  {
  }

  lemma AskSleep(mcr: bv32)
    ensures And(Or(AndNot(mcr, INRQ), SLEEP), 3) == 2
  {
  }

  lemma AskKeeps(mcr: bv32, m: bv32)
    requires NoRequest(m)
    ensures And(Or(AndNot(mcr, SLEEP), INRQ), m) == And(mcr, m)
    ensures And(AndNot(mcr, SLEEP | INRQ), m) == And(mcr, m)
    ensures And(Or(AndNot(mcr, INRQ), SLEEP), m) == And(mcr, m)
    ensures And(AndNot(mcr, SLEEP), m) == And(mcr, m) && And(AndNot(mcr, INRQ), m) == And(mcr, m)
  {
    hide And, Or, AndNot, Touches;
    AndNotKeeps(mcr, SLEEP, m);
    OrKeeps(AndNot(mcr, SLEEP), INRQ, m);
    AndNotKeeps(mcr, SLEEP | INRQ, m);
    AndNotKeeps(mcr, INRQ, m);
    OrKeeps(AndNot(mcr, INRQ), SLEEP, m);
  }

  /** Initialisation requests 1, normal mode 0 and sleep 2 in the low two bits of MCR; no other bit changes. */
  lemma RequestedMeans(mode: bv8, mcr: bv32, m: bv32)
    requires mode <= 2 && NoRequest(m)
    ensures And(Requested(mode, mcr), 3) == if mode == 0 then 1 else if mode == 1 then 0 else 2
    ensures And(Requested(mode, mcr), m) == And(mcr, m)
  {
    hide And, Or, AndNot, NoRequest;
    AskInit(mcr);
    AskNormal(mcr);
    AskSleep(mcr);
    AskKeeps(mcr, m);
  }

  lemma HighBits()
    ensures NoRequest(0xFFFF_FFFC) && NoRequest(0xFFFF_FF00) && Other(0xFFFF_FF00) && Other(2)
  {
  }

  lemma ShowsMode(msr: bv32, value: bv32)
    ensures Shows(msr, MODE_MASK, value) <==> And(msr, 3) == value
  {
  }

  /** INAK is bit 0 of MSR and SLAK bit 1. */
  lemma ShowsBits(msr: bv32)
    ensures Shows(msr, INAK, INAK) <==> And(msr, 1) != 0
    ensures Shows(msr, SLAK, SLAK) <==> And(msr, 2) != 0
  {
  }

  lemma ClearBit(v: bv32)
    ensures And(AndNot(v, INRQ), 1) == 0
  {
  }

  lemma ClearSleep(v: bv32)
    ensures And(AndNot(v, SLEEP), 2) == 0
  {
  }

  lemma OneMeansNotTwo(v: bv32)
    requires And(v, 3) == 1
    ensures And(v, 2) == 0
  {
  }

  lemma InrqApart()
    ensures !Touches(INRQ, 0x80) && !Touches(INRQ, 0x40) && !Touches(INRQ, 0x20) && !Touches(INRQ, 0x10)
    ensures !Touches(INRQ, 0x08) && !Touches(INRQ, 0x04) && !Touches(INRQ, 2) && !Touches(INRQ, 0xFFFF_FF00)
  {
  }

  /** MCR as a successful CAN_Init leaves it: every option as asked, neither mode requested, the upper bits as before. */
  lemma InitWord(mcr: bv32, i: Setup)
    ensures var v := AndNot(Options(Or(AndNot(mcr, SLEEP), INRQ), i), INRQ);
            && (And(v, 0x80) != 0 <==> i.ttcm) && (And(v, 0x40) != 0 <==> i.abom) && (And(v, 0x20) != 0 <==> i.awum)
            && (And(v, 0x10) != 0 <==> i.nart) && (And(v, 0x08) != 0 <==> i.rflm) && (And(v, 0x04) != 0 <==> i.txfp)
            && And(v, 1) == 0 && And(v, 2) == 0 && And(v, 0xFFFF_FF00) == And(mcr, 0xFFFF_FF00)
  {
    hide And, Or, AndNot, Options, NoRequest, Other, Touches;
    var asked := Or(AndNot(mcr, SLEEP), INRQ);
    var w := Options(asked, i);
    HighBits();
    AskInit(mcr);
    OneMeansNotTwo(asked);
    AskKeeps(mcr, 0xFFFF_FF00);
    OptionsWord(asked, i, 0xFFFF_FF00);
    OptionsWord(asked, i, 2);
    ClearBit(w);
    InrqApart();
    AndNotKeeps(w, INRQ, 0x80);
    AndNotKeeps(w, INRQ, 0x40);
    AndNotKeeps(w, INRQ, 0x20);
    AndNotKeeps(w, INRQ, 0x10);
    AndNotKeeps(w, INRQ, 0x08);
    AndNotKeeps(w, INRQ, 0x04);
    AndNotKeeps(w, INRQ, 2);
    AndNotKeeps(w, INRQ, 0xFFFF_FF00);
  }

  /** The options in x and y are the same. */
  predicate SameOptions(x: bv32, y: bv32) {
    (x ^ y) & 0xFC == 0
  }

  lemma RequestBitsKeep(mcr: bv32)
    ensures SameOptions(mcr, Or(mcr, INRQ))
    ensures SameOptions(mcr, AndNot(mcr, INRQ))
    ensures SameOptions(mcr, AndNot(mcr, SLEEP))
    ensures SameOptions(mcr, AndNot(mcr, SLEEP | INRQ))
  {
  }

  lemma EnterKeeps(mcr: bv32)
    ensures SameOptions(mcr, Or(AndNot(mcr, SLEEP), INRQ))
    ensures SameOptions(mcr, Or(AndNot(mcr, INRQ), SLEEP))
  {
  }

  lemma RequestTouches(mcr: bv32)
    ensures Touches(Or(mcr, INRQ), INRQ)
  {
  }

  class CanMode {
    /** What each read of MSR shows: any sequence. */
    const env: nat -> bv32
    /** The number of reads of MSR so far, and what the last of them showed. */
    var looks: nat
    var shown: bv32
    var mcr: bv32
    var btr: bv32
    /** Options and timing have only been written in initialisation mode, requested and seen acknowledged. */
    ghost var orderly: bool

    constructor (env: nat -> bv32, mcr: bv32, btr: bv32)
      ensures this.env == env && this.mcr == mcr && this.btr == btr && looks == 0 && orderly
    {
      this.env, this.mcr, this.btr, looks, shown, orderly := env, mcr, btr, 0, 0, true;
    }

    predicate InInit()
      reads this
    {
      Touches(mcr, INRQ) && Shows(shown, INAK, INAK)
    }

    method ReadMSR() returns (v: bv32)
      modifies `looks, `shown
      ensures v == env(old(looks)) == shown && looks == old(looks) + 1
    {
      v := env(looks);
      shown := v;
      looks := looks + 1;
    }

    method WriteMCR(v: bv32)
      modifies `mcr, `orderly
      ensures mcr == v && orderly == (old(orderly) && (SameOptions(old(mcr), v) || old(InInit())))
    {
      hide SameOptions, InInit;
      orderly := orderly && (SameOptions(mcr, v) || InInit());
      mcr := v;
    }

    method WriteBTR(v: bv32)
      modifies `btr, `orderly
      ensures btr == v && orderly == (old(orderly) && old(InInit()))
    {
      hide InInit;
      orderly := orderly && InInit();
      btr := v;
    }

    /** The loop of CAN_Init, which counts up. */
    method WaitUp(mask: bv32, value: bv32, want: bool)
      modifies `looks, `shown
      ensures looks == Decides(env, old(looks), mask, value, want)
    {
      hide Shows, Spent;
      var wait_ack: nat := 0;
      var msr := ReadMSR();
      while Shows(msr, mask, value) != want && wait_ack != WAITS
        invariant 0 <= wait_ack <= WAITS && looks == old(looks) + wait_ack + 1 && msr == env(looks - 1)
        invariant Decides(env, old(looks), mask, value, want) ==
                  looks - 1 + Spent(env, looks - 1, WAITS - wait_ack, mask, value, want)
        decreases WAITS - wait_ack
      {
        SpentStep(env, looks - 1, WAITS - wait_ack, mask, value, want);
        wait_ack := wait_ack + 1;
        msr := ReadMSR();
      }
      SpentStep(env, looks - 1, WAITS - wait_ack, mask, value, want);
    }

    /** The loop of the other two, which counts down. */
    method WaitDown(mask: bv32, value: bv32, want: bool)
      modifies `looks, `shown
      ensures looks == Decides(env, old(looks), mask, value, want)
    {
      hide Shows, Spent;
      var timeout: nat := WAITS;
      var msr := ReadMSR();
      while Shows(msr, mask, value) != want && timeout != 0
        invariant 0 <= timeout <= WAITS && looks == old(looks) + (WAITS - timeout) + 1 && msr == env(looks - 1)
        invariant Decides(env, old(looks), mask, value, want) ==
                  looks - 1 + Spent(env, looks - 1, timeout, mask, value, want)
        decreases timeout
      {
        SpentStep(env, looks - 1, timeout, mask, value, want);
        timeout := timeout - 1;
        msr := ReadMSR();
      }
      SpentStep(env, looks - 1, timeout, mask, value, want);
    }

    /** One option, set or cleared. */
    method SetOption(f: Flag, on: bool)
      requires InInit()
      modifies `mcr, `orderly
      ensures mcr == SetFlag(old(mcr), f, on) && InInit() && orderly == old(orderly)
    {
      InrqOther();
      OptionKeeps(mcr, f, on, INRQ);
      hide Or, AndNot, BitOf, Touches, Shows, SameOptions, Other;
      if on {
        WriteMCR(Or(mcr, BitOf(f)));
      } else {
        WriteMCR(AndNot(mcr, BitOf(f)));
      }
    }

    /** The six options, in order. */
    method SetOptions(i: Setup)
      requires InInit()
      modifies `mcr, `orderly
      ensures mcr == Options(old(mcr), i) && InInit() && orderly == old(orderly)
    {
      hide SetFlag, InInit, FirstOptions;
      InTurn(mcr, i);
      SetOption(Ttcm, i.ttcm);
      SetOption(Abom, i.abom);
      SetOption(Awum, i.awum);
      SetOption(Nart, i.nart);
      SetOption(Rflm, i.rflm);
      SetOption(Txfp, i.txfp);
    }

    /**
     CAN_Init. The read after the first wait decides: unless it shows INAK nothing but the request has been written;
     if it does, options and timing are written, before initialisation mode is left, and the read after the second wait
     alone decides the result.
     */
    method Init(i: Setup) returns (ok: bool)
      requires Allowed(i)
      modifies this
      ensures var c1 := Decides(env, old(looks), INAK, INAK, true);
              var asked := Or(AndNot(old(mcr), SLEEP), INRQ);
              if And(env(c1), 1) == 0 then
                !ok && looks == c1 + 1 && btr == old(btr) && mcr == asked && And(mcr, 3) == 1
              else
                var c2 := Decides(env, c1 + 1, INAK, INAK, false);
                && looks == c2 + 1 && (ok <==> And(env(c2), 1) == 0)
                && btr == Timing(i) && mcr == AndNot(Options(asked, i), INRQ) && And(mcr, 1) == And(mcr, 2) == 0
      ensures orderly == old(orderly)
    {
      hide And, Or, AndNot, Touches, Options, Timing, Shows, Decides, SameOptions;
      InitWord(mcr, i);
      AskInit(mcr);
      RequestBitsKeep(mcr);
      WriteMCR(AndNot(mcr, SLEEP));
      RequestBitsKeep(mcr);
      RequestTouches(mcr);
      WriteMCR(Or(mcr, INRQ));
      WaitUp(INAK, INAK, true);
      var msr := ReadMSR();
      ShowsBits(msr);
      if !Shows(msr, INAK, INAK) {
        ok := false;
      } else {
        SetOptions(i);
        WriteBTR(Timing(i));
        RequestBitsKeep(mcr);
        WriteMCR(AndNot(mcr, INRQ));
        WaitUp(INAK, INAK, false);
        msr := ReadMSR();
        ShowsBits(msr);
        ok := !Shows(msr, INAK, INAK);
      }
    }

    /** CAN_OperatingModeRequest. A mode that does not exist is refused without touching the device. */
    method OperatingModeRequest(mode: bv8) returns (ok: bool)
      modifies this
      ensures mcr == Requested(mode, old(mcr)) && btr == old(btr) && orderly == old(orderly)
      ensures mode > 2 ==> !ok && looks == old(looks)
      ensures mode <= 2 ==>
                var c := Decides(env, old(looks), MODE_MASK, Awaited(mode), true);
                looks == c + 1 && (ok <==> And(env(c), 3) == And(mcr, 3))
      // initialisation is requested as 1, normal mode as 0, sleep as 2; success is that MSR acknowledges what MCR requests
      ensures mode <= 2 ==> And(mcr, 3) == if mode == 0 then 1 else if mode == 1 then 0 else 2
      ensures And(mcr, 0xFFFF_FFFC) == And(old(mcr), 0xFFFF_FFFC) && (mode > 2 ==> mcr == old(mcr))
    {
      hide And, Or, AndNot, Shows, Decides, SameOptions, InInit, NoRequest;
      RequestBitsKeep(mcr);
      EnterKeeps(mcr);
      HighBits();
      if mode <= 2 {
        RequestedMeans(mode, mcr, 0xFFFF_FFFC);
      }
      if mode == 0 {
        WriteMCR(Or(AndNot(mcr, SLEEP), INRQ));
        WaitDown(MODE_MASK, INAK, true);
        var msr := ReadMSR();
        ShowsMode(msr, INAK);
        ok := Shows(msr, MODE_MASK, INAK);
      } else if mode == 1 {
        WriteMCR(AndNot(mcr, SLEEP | INRQ));
        WaitDown(MODE_MASK, 0, true);
        var msr := ReadMSR();
        ShowsMode(msr, 0);
        ok := Shows(msr, MODE_MASK, 0);
      } else if mode == 2 {
        WriteMCR(Or(AndNot(mcr, INRQ), SLEEP));
        WaitDown(MODE_MASK, SLAK, true);
        var msr := ReadMSR();
        ShowsMode(msr, SLAK);
        ok := Shows(msr, MODE_MASK, SLAK);
      } else {
        ok := false;
      }
    }

    /** CAN_WakeUp. */
    method WakeUp() returns (ok: bool)
      modifies this
      ensures mcr == AndNot(old(mcr), SLEEP) && btr == old(btr) && orderly == old(orderly)
      ensures var c := Decides(env, old(looks), SLAK, SLAK, false);
              looks == c + 1 && (ok <==> And(env(c), 2) == 0)
      ensures And(mcr, 2) == 0 && And(mcr, 0xFFFF_FFFC) == And(old(mcr), 0xFFFF_FFFC)
    {
      hide And, AndNot, Shows, Decides, SameOptions, InInit, NoRequest;
      ClearSleep(mcr);
      HighBits();
      AskKeeps(mcr, 0xFFFF_FFFC);
      RequestBitsKeep(mcr);
      WriteMCR(AndNot(mcr, SLEEP));
      WaitDown(SLAK, SLAK, false);
      var msr := ReadMSR();
      ShowsBits(msr);
      ok := !Shows(msr, SLAK, SLAK);
    }
  }

  lemma InTurn(mcr: bv32, i: Setup)
    ensures FirstOptions(mcr, i, 1) == SetFlag(mcr, Ttcm, i.ttcm)
    ensures FirstOptions(mcr, i, 2) == SetFlag(FirstOptions(mcr, i, 1), Abom, i.abom)
    ensures FirstOptions(mcr, i, 3) == SetFlag(FirstOptions(mcr, i, 2), Awum, i.awum)
    ensures FirstOptions(mcr, i, 4) == SetFlag(FirstOptions(mcr, i, 3), Nart, i.nart)
    ensures FirstOptions(mcr, i, 5) == SetFlag(FirstOptions(mcr, i, 4), Rflm, i.rflm)
    ensures FirstOptions(mcr, i, 6) == SetFlag(FirstOptions(mcr, i, 5), Txfp, i.txfp)
  {
    hide SetFlag;
  }

  lemma InrqOther()
    ensures Other(INRQ)
  {
  }

  /** A wait and its check read MSR at most 65537 times, whatever MSR shows; the bound is met when the mode never comes. */
  lemma BoundedWait(env: nat -> bv32, t: nat, mask: bv32, value: bv32, want: bool)
    ensures t + 1 <= Decides(env, t, mask, value, want) <= t + 0x10000
    ensures (forall j: nat :: t <= j < t + 0x10000 ==> Shows(env(j), mask, value) != want) ==>
              Decides(env, t, mask, value, want) == t + 0x10000
  {
    hide Spent, Shows;
    SpentMeans(env, t, WAITS, mask, value, want);
  }
}
