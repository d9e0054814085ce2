/**
 The transmit side of bxCAN: three mailboxes, the TSR register, and CAN_Transmit,
 CAN_TransmitStatus and CAN_CancelTransmit. Between any two register accesses of the
 driver the hardware may complete or drop any pending frame.
 */
module CanTransmit {
  import opened CanFrame
  import opened Fields

  const TXSTATUS_FAILED: bv8 := 0
  const TXSTATUS_OK: bv8 := 1
  const TXSTATUS_PENDING: bv8 := 2
  const NO_MAILBOX := 4

  datatype Fate = Waiting | Sent | Dropped

  /**
   A mailbox: its registers (the identifier without the request bit), its TSR flags, and the
   ticket of the last transmission requested in it. TXRQ is set exactly while it is not empty.
   */
  datatype Mailbox = Mailbox(id: bv32, dtr: bv32, dlr: bv32, dhr: bv32,
                             tme: bool, rqcp: bool, txok: bool, abrq: bool, ticket: nat)
  {
    function Tir(): bv32 {
      if tme then id else WithRequest(id)
    }

    function Registers(): Words {
      Words(Tir(), dtr, dlr, dhr)
    }

    /** The ticket is that of a frame pending here, or of one whose result TSR still shows. */
    predicate Live() {
      !tme || rqcp
    }
  }

  function KeepRequest(ir: bv32): bv32 { ir & TXRQ }

  function AddId(ir: bv32, id: bv32): bv32 { ir | id }

  predicate Bare(id: bv32) { id & TXRQ == 0 }

  function Strip(id: bv32): (r: bv32)
    ensures Bare(r)
  {
    id & !TXRQ
  }

  /** The mailboxes, the remaining TSR bits, and the history: every frame ever requested, with its fate. */
  datatype Tx = Tx(box: seq<Mailbox>, other: bv32, frame: seq<Words>, fate: seq<Fate>)

  /** What the hardware can do: send a frame, give one up (aborted or not retransmitted), change other TSR bits. */
  datatype Event = Complete(x: nat) | GiveUp(x: nat) | Noise(v: bv32)

  function HwStep(s: Tx, e: Event): Tx {
    match e
    case Complete(x) =>
      if x < |s.box| && !s.box[x].tme && s.box[x].ticket < |s.fate| then Finish(s, x, true) else s
    case GiveUp(x) =>
      if x < |s.box| && !s.box[x].tme && s.box[x].ticket < |s.fate| then Finish(s, x, false) else s
    case Noise(v) => s.(other := v)
  }

  function Finish(s: Tx, x: nat, sent: bool): Tx
    requires x < |s.box| && s.box[x].ticket < |s.fate|
  {
    s.(box := s.box[x := s.box[x].(tme := true, rqcp := true, txok := sent, abrq := false)],
       fate := s.fate[s.box[x].ticket := if sent then Sent else Dropped])
  }

  function RunHw(s: Tx, es: seq<Event>): (r: Tx)
    ensures |r.box| == |s.box|
  {
    if es == [] then s else HwStep(RunHw(s, es[..|es| - 1]), es[|es| - 1])
  }

  /** One access: a hardware event or a register write by software. Registers of a non-empty mailbox are write protected. */
  datatype Access =
    | Hw(e: Event)
    | WriteTir(x: nat, id: bv32, request: bool)
    | WriteTdtr(x: nat, v: bv32)
    | WriteTdlr(x: nat, v: bv32)
    | WriteTdhr(x: nat, v: bv32)
    | WriteTsr(clear: seq<bool>, abort: seq<bool>)

  /** A one written to RQCP clears it with TXOK; a one written to ABRQ asks for an abort of a pending frame. */
  function TsrWritten(b: Mailbox, clear: bool, abort: bool): Mailbox {
    b.(rqcp := b.rqcp && !clear, txok := b.txok && !clear, abrq := b.abrq || (abort && !b.tme))
  }

  function Apply(s: Tx, a: Access): Tx {
    match a
    case Hw(e) => HwStep(s, e)
    case WriteTir(x, id, request) =>
      if x < |s.box| && s.box[x].tme then
        var b := s.box[x].(id := Strip(id));
        if request then
          var b' := b.(tme := false, rqcp := false, txok := false, abrq := false, ticket := |s.fate|);
          s.(box := s.box[x := b'], frame := s.frame + [b'.Registers()], fate := s.fate + [Waiting])
        else s.(box := s.box[x := b])
      else s
    case WriteTdtr(x, v) => if x < |s.box| && s.box[x].tme then s.(box := s.box[x := s.box[x].(dtr := v)]) else s
    case WriteTdlr(x, v) => if x < |s.box| && s.box[x].tme then s.(box := s.box[x := s.box[x].(dlr := v)]) else s
    case WriteTdhr(x, v) => if x < |s.box| && s.box[x].tme then s.(box := s.box[x := s.box[x].(dhr := v)]) else s
    case WriteTsr(clear, abort) =>
      if |s.box| == |clear| == |abort| == 3 then
        s.(box := [TsrWritten(s.box[0], clear[0], abort[0]), TsrWritten(s.box[1], clear[1], abort[1]),
                   TsrWritten(s.box[2], clear[2], abort[2])])
      else s
  }

  function Run(s: Tx, accesses: seq<Access>): Tx {
    if accesses == [] then s else Apply(Run(s, accesses[..|accesses| - 1]), accesses[|accesses| - 1])
  }

  // ---- The invariant of every run ----

  predicate BoxOk(b: Mailbox, fate: seq<Fate>, frame: seq<Words>) {
    && |frame| == |fate|
    && Bare(b.id) && (b.txok ==> b.rqcp) && (b.abrq ==> !b.tme)
    && (!b.tme ==> b.ticket < |fate| && fate[b.ticket] == Waiting && frame[b.ticket] == b.Registers() && !b.rqcp)
    && (b.rqcp ==> b.ticket < |fate| && fate[b.ticket] == if b.txok then Sent else Dropped)
  }

  predicate Apart(b: Mailbox, c: Mailbox) {
    b.Live() && c.Live() ==> b.ticket != c.ticket
  }

  /** Frame t is pending in some mailbox. */
  ghost predicate Held(box: seq<Mailbox>, t: nat) {
    exists x :: 0 <= x < |box| && !box[x].tme && box[x].ticket == t
  }

  /** Mailboxes and history agree: the waiting frames are exactly the ones in the mailboxes, and TSR reports true results. */
  ghost predicate Inv(s: Tx) {
    && |s.box| == 3 && |s.frame| == |s.fate|
    && (forall x :: 0 <= x < 3 ==> BoxOk(s.box[x], s.fate, s.frame))
    && (forall x, y :: 0 <= x < y < 3 ==> Apart(s.box[x], s.box[y]))
    && (forall t :: 0 <= t < |s.fate| && s.fate[t] == Waiting ==> Held(s.box, t))
  }

  /** History only grows and a decided fate is final. */
  ghost predicate Grows(s: Tx, s': Tx) {
    && |s.fate| <= |s'.fate| && s.frame <= s'.frame
    && forall t :: 0 <= t < |s.fate| && s.fate[t] != Waiting ==> s'.fate[t] == s.fate[t]
  }

  lemma FinishKeeps(s: Tx, x: nat, sent: bool)
    requires Inv(s) && x < 3 && !s.box[x].tme
    ensures Inv(Finish(s, x, sent)) && Grows(s, Finish(s, x, sent))
  {
    hide WithRequest, Bare, Strip;
    var r := Finish(s, x, sent);
    forall y | 0 <= y < 3 ensures BoxOk(r.box[y], r.fate, r.frame) {
      if y < x { assert Apart(s.box[y], s.box[x]); } else if x < y { assert Apart(s.box[x], s.box[y]); }
    }
    forall t | 0 <= t < |r.fate| && r.fate[t] == Waiting ensures Held(r.box, t) {
      assert Held(s.box, t);
      var y :| 0 <= y < 3 && !s.box[y].tme && s.box[y].ticket == t;
      assert !r.box[y].tme;
    }
  }

  /** Replacing the content of an empty mailbox by other empty content without a result. */
  lemma EmptyBoxKeeps(s: Tx, x: nat, b: Mailbox)
    requires Inv(s) && x < 3 && s.box[x].tme
    requires BoxOk(b, s.fate, s.frame) && b.tme && (b.rqcp ==> s.box[x].rqcp) && b.ticket == s.box[x].ticket
    ensures Inv(s.(box := s.box[x := b])) && Grows(s, s.(box := s.box[x := b]))
  {
    hide WithRequest, Bare, Strip, BoxOk;
    var r := s.(box := s.box[x := b]);
    forall t | 0 <= t < |r.fate| && r.fate[t] == Waiting ensures Held(r.box, t) {
      assert Held(s.box, t);
      var y :| 0 <= y < 3 && !s.box[y].tme && s.box[y].ticket == t;
      assert !r.box[y].tme;
    }
  }

  lemma RequestKeeps(s: Tx, x: nat, id: bv32)
    requires Inv(s) && x < 3 && s.box[x].tme
    ensures Inv(Apply(s, WriteTir(x, id, true))) && Grows(s, Apply(s, WriteTir(x, id, true)))
  {
    hide WithRequest, Bare, Strip;
    var r := Apply(s, WriteTir(x, id, true));
    forall y | 0 <= y < 3 ensures BoxOk(r.box[y], r.fate, r.frame) {
      assert BoxOk(s.box[y], s.fate, s.frame);
    }
    forall t | 0 <= t < |r.fate| && r.fate[t] == Waiting ensures Held(r.box, t) {
      if t < |s.fate| {
        assert Held(s.box, t);
        var y :| 0 <= y < 3 && !s.box[y].tme && s.box[y].ticket == t;
        assert !r.box[y].tme;
      } else {
        assert !r.box[x].tme && r.box[x].ticket == t;
      }
    }
  }

  lemma WriteTsrKeeps(s: Tx, clear: seq<bool>, abort: seq<bool>)
    requires Inv(s) && |clear| == |abort| == 3
    ensures Inv(Apply(s, WriteTsr(clear, abort))) && Grows(s, Apply(s, WriteTsr(clear, abort)))
  {
    hide WithRequest, Bare, Strip, BoxOk, Apart, TsrWritten;
    var r := Apply(s, WriteTsr(clear, abort));
    forall y | 0 <= y < 3
      ensures BoxOk(r.box[y], r.fate, r.frame) && r.box[y].tme == s.box[y].tme && r.box[y].ticket == s.box[y].ticket
    {
      TsrWrittenOk(s.box[y], s.fate, s.frame, clear[y], abort[y]);
    }
    forall y, z | 0 <= y < z < 3 ensures Apart(r.box[y], r.box[z]) {
      TsrWrittenApart(s.box[y], s.box[z], clear[y], abort[y], clear[z], abort[z]);
    }
    StillHeld(s, r);
    hide Held;
  }

  lemma StillHeld(s: Tx, r: Tx)
    requires Inv(s) && |r.box| == 3 && r.fate == s.fate
    requires forall y :: 0 <= y < 3 ==> r.box[y].tme == s.box[y].tme && r.box[y].ticket == s.box[y].ticket
    ensures forall t :: 0 <= t < |r.fate| && r.fate[t] == Waiting ==> Held(r.box, t)
  {
    forall t | 0 <= t < |r.fate| && r.fate[t] == Waiting ensures Held(r.box, t) {
      assert Held(s.box, t);
      var y :| 0 <= y < 3 && !s.box[y].tme && s.box[y].ticket == t;
      assert !r.box[y].tme;
    }
  }

  lemma TsrWrittenOk(b: Mailbox, fate: seq<Fate>, frame: seq<Words>, clear: bool, abort: bool)
    requires BoxOk(b, fate, frame)
    ensures BoxOk(TsrWritten(b, clear, abort), fate, frame)
    ensures TsrWritten(b, clear, abort).tme == b.tme && TsrWritten(b, clear, abort).ticket == b.ticket
  {
    hide WithRequest, Bare;
  }

  lemma TsrWrittenApart(b: Mailbox, c: Mailbox, b0: bool, b1: bool, c0: bool, c1: bool)
    requires Apart(b, c)
    ensures Apart(TsrWritten(b, b0, b1), TsrWritten(c, c0, c1))
  {
  }

  lemma ApplyKeeps(s: Tx, a: Access)
    requires Inv(s)
    ensures Inv(Apply(s, a)) && Grows(s, Apply(s, a))
  {
    hide WithRequest, Bare, Strip, Inv, Grows;
    Reflexive(s);
    match a
    case Hw(Complete(x)) => if x < 3 && !s.box[x].tme { FinishKeeps(s, x, true); }
    case Hw(GiveUp(x)) => if x < 3 && !s.box[x].tme { FinishKeeps(s, x, false); }
    case Hw(Noise(v)) => NoiseKeeps(s, v);
    case WriteTir(x, id, request) =>
      if x < 3 && s.box[x].tme {
        if request { RequestKeeps(s, x, id); } else { EmptyBoxKeeps(s, x, s.box[x].(id := Strip(id))); }
      }
    case WriteTdtr(x, v) => if x < 3 && s.box[x].tme { EmptyBoxKeeps(s, x, s.box[x].(dtr := v)); }
    case WriteTdlr(x, v) => if x < 3 && s.box[x].tme { EmptyBoxKeeps(s, x, s.box[x].(dlr := v)); }
    case WriteTdhr(x, v) => if x < 3 && s.box[x].tme { EmptyBoxKeeps(s, x, s.box[x].(dhr := v)); }
    case WriteTsr(clear, abort) => if |clear| == |abort| == 3 { WriteTsrKeeps(s, clear, abort); }
  }

  lemma Reflexive(s: Tx)
    requires Inv(s)
    ensures Grows(s, s) && |s.box| == 3 && |s.frame| == |s.fate|
    ensures forall x :: 0 <= x < 3 ==> BoxOk(s.box[x], s.fate, s.frame)
  {
  }

  lemma NoiseKeeps(s: Tx, v: bv32)
    requires Inv(s)
    ensures Inv(s.(other := v)) && Grows(s, s.(other := v))
  {
  }

  /** Whatever the driver and the hardware do, in any interleaving of single accesses. */
  lemma {:induction false} RunKeeps(s: Tx, accesses: seq<Access>)
    requires Inv(s)
    ensures Inv(Run(s, accesses)) && Grows(s, Run(s, accesses))
  {
    if accesses != [] {
      RunKeeps(s, accesses[..|accesses| - 1]);
      ApplyKeeps(Run(s, accesses[..|accesses| - 1]), accesses[|accesses| - 1]);
    }
  }

  // ---- The register TSR ----

  function RqcpBit(x: nat): bv32 { if x == 0 then 0x0000_0001 else if x == 1 then 0x0000_0100 else 0x0001_0000 }

  function TxokBit(x: nat): bv32 { if x == 0 then 0x0000_0002 else if x == 1 then 0x0000_0200 else 0x0002_0000 }

  function AbrqBit(x: nat): bv32 { if x == 0 then 0x0000_0080 else if x == 1 then 0x0000_8000 else 0x0080_0000 }

  function TmeBit(x: nat): bv32 { if x == 0 then 0x0400_0000 else if x == 1 then 0x0800_0000 else 0x1000_0000 }

  /** The flags of mailbox x are in byte x of TSR, k places up, and its empty flag in bit 26 + x; ALST and TERR, CODE and LOW remain. */
  lemma TsrPlaces(x: nat, k: bv32)
    requires x < 3 && k == if x == 0 then 0 else if x == 1 then 8 else 16
    ensures RqcpBit(x) == 1 << k && TxokBit(x) == 2 << k && AbrqBit(x) == 0x80 << k
    ensures TmeBit(x) == 1 << if x == 0 then 26 else if x == 1 then 27 else 28
    ensures OTHER_BITS == 0xC | (0xC << 8) | (0xC << 16) | (3 << 24) | (7 << 29)
  {
    if x == 0 {} else if x == 1 {} else {}
  }

  /** ALST, TERR, CODE and LOW. */
  const OTHER_BITS: bv32 := 0xE30C_0C0C

  function FlagBits(b: Mailbox, x: nat): bv32 {
    Or(Or(Part(b.rqcp, RqcpBit(x)), Part(b.txok, TxokBit(x))), Or(Part(b.abrq, AbrqBit(x)), Part(b.tme, TmeBit(x))))
  }

  function Part(on: bool, bit: bv32): bv32 {
    if on then bit else 0
  }

  function Merge(f0: bv32, f1: bv32, f2: bv32, r: bv32): bv32 {
    f0 | f1 | f2 | (r & OTHER_BITS)
  }

  function Tsr(s: Tx): bv32
    requires |s.box| == 3
  {
    Merge(FlagBits(s.box[0], 0), FlagBits(s.box[1], 1), FlagBits(s.box[2], 2), s.other)
  }

  /** The bits of mailbox x in TSR. */
  function OwnBits(x: nat): bv32 {
    RqcpBit(x) | TxokBit(x) | AbrqBit(x) | TmeBit(x)
  }

  predicate InOwn(f: bv32, x: nat) { Within(f, OwnBits(x)) }

  predicate View(v: bv32, x: nat, f: bv32) { v & OwnBits(x) == f }

  lemma FlagsInOwn(b: Mailbox, x: nat)
    requires x < 3
    ensures InOwn(FlagBits(b, x), x)
  {
    hide Or, Within, Part, OwnBits, RqcpBit, TxokBit, AbrqBit, TmeBit;
    var p, q, r, s := Part(b.rqcp, RqcpBit(x)), Part(b.txok, TxokBit(x)), Part(b.abrq, AbrqBit(x)), Part(b.tme, TmeBit(x));
    OwnParts(x);
    PartWithin(b.rqcp, RqcpBit(x), OwnBits(x));
    PartWithin(b.txok, TxokBit(x), OwnBits(x));
    PartWithin(b.abrq, AbrqBit(x), OwnBits(x));
    PartWithin(b.tme, TmeBit(x), OwnBits(x));
    FourWithin(p, q, r, s, OwnBits(x));
  }

  lemma FourWithin(p: bv32, q: bv32, r: bv32, s: bv32, m: bv32)
    requires Within(p, m) && Within(q, m) && Within(r, m) && Within(s, m)
    ensures Within(Or(Or(p, q), Or(r, s)), m)
  {
    hide Or, Within;
    OrWithin(p, q, m);
    OrWithin(r, s, m);
    OrWithin(Or(p, q), Or(r, s), m);
  }

  lemma PartWithin(on: bool, bit: bv32, m: bv32)
    requires Within(bit, m)
    ensures Within(Part(on, bit), m)
  {
  }

  lemma OwnParts(x: nat)
    requires x < 3
    ensures Within(RqcpBit(x), OwnBits(x)) && Within(TxokBit(x), OwnBits(x))
    ensures Within(AbrqBit(x), OwnBits(x)) && Within(TmeBit(x), OwnBits(x))
  {
    if x == 0 {} else if x == 1 {} else {}
  }

  lemma OwnApart(f0: bv32, f1: bv32, f2: bv32, r: bv32)
    requires InOwn(f0, 0) && InOwn(f1, 1) && InOwn(f2, 2)
    ensures View(Merge(f0, f1, f2, r), 0, f0) && View(Merge(f0, f1, f2, r), 1, f1) && View(Merge(f0, f1, f2, r), 2, f2)
  {
  }

  /** Each mailbox has its own bits in TSR. */
  lemma TsrOwn(s: Tx, x: nat)
    requires |s.box| == 3 && x < 3
    ensures View(Tsr(s), x, FlagBits(s.box[x], x))
  {
    hide FlagBits, OwnBits, InOwn, View, Merge;
    FlagsInOwn(s.box[0], 0);
    FlagsInOwn(s.box[1], 1);
    FlagsInOwn(s.box[2], 2);
    OwnApart(FlagBits(s.box[0], 0), FlagBits(s.box[1], 1), FlagBits(s.box[2], 2), s.other);
  }

  predicate TmeSet(v: bv32, x: nat) { v & TmeBit(x) == TmeBit(x) }

  predicate ShowsTme(v: bv32, x: nat, b: Mailbox) { TmeSet(v, x) == b.tme }

  predicate ShowsRqcp(v: bv32, x: nat, b: Mailbox) { RqcpSet(v, x) == b.rqcp }

  predicate ShowsAbrq(v: bv32, x: nat, b: Mailbox) { AbrqSet(v, x) == b.abrq }

  /** The bits CAN_TransmitStatus looks at. */
  function StatusBits(b: Mailbox, x: nat): bv32 {
    (if b.rqcp then RqcpBit(x) else 0) | (if b.txok then TxokBit(x) else 0) | (if b.tme then TmeBit(x) else 0)
  }

  predicate ShowsStatus(v: bv32, x: nat, b: Mailbox) {
    StatusPart(v, x) == StatusBits(b, x)
  }

  function StatusPart(v: bv32, x: nat): bv32 { v & (RqcpBit(x) | TxokBit(x) | TmeBit(x)) }

  lemma TmeTest(b: Mailbox, x: nat, v: bv32)
    requires x < 3 && View(v, x, FlagBits(b, x))
    ensures ShowsTme(v, x, b)
  {
    hide FlagBits, View, OwnBits, TmeBit;
    TmeBits(b, x, v);
  }

  lemma TmeBits(b: Mailbox, x: nat, v: bv32)
    requires x < 3 && View(v, x, FlagBits(b, x))
    ensures (v & TmeBit(x) == TmeBit(x)) == b.tme
  {
    if x == 0 {} else if x == 1 {} else {}
  }

  lemma RqcpTest(b: Mailbox, x: nat, v: bv32)
    requires x < 3 && View(v, x, FlagBits(b, x))
    ensures ShowsRqcp(v, x, b)
  {
    hide FlagBits, View, OwnBits, RqcpBit;
    RqcpBits(b, x, v);
  }

  lemma RqcpBits(b: Mailbox, x: nat, v: bv32)
    requires x < 3 && View(v, x, FlagBits(b, x))
    ensures Touches(v, RqcpBit(x)) == b.rqcp
  {
    if x == 0 {} else if x == 1 {} else {}
  }

  lemma AbrqTest(b: Mailbox, x: nat, v: bv32)
    requires x < 3 && View(v, x, FlagBits(b, x))
    ensures ShowsAbrq(v, x, b)
  {
    hide FlagBits, View, OwnBits, AbrqBit;
    AbrqBits(b, x, v);
  }

  lemma AbrqBits(b: Mailbox, x: nat, v: bv32)
    requires x < 3 && View(v, x, FlagBits(b, x))
    ensures Touches(v, AbrqBit(x)) == b.abrq
  {
    if x == 0 {} else if x == 1 {} else {}
  }

  lemma StatusTest(b: Mailbox, x: nat, v: bv32)
    requires x < 3 && View(v, x, FlagBits(b, x))
    ensures ShowsStatus(v, x, b)
  {
    hide FlagBits, View, OwnBits, RqcpBit, TxokBit, TmeBit;
    StatusOf(b, x, v);
  }

  lemma StatusOf(b: Mailbox, x: nat, v: bv32)
    requires x < 3 && View(v, x, FlagBits(b, x))
    ensures v & (RqcpBit(x) | TxokBit(x) | TmeBit(x)) == StatusBits(b, x)
  {
    if x == 0 {} else if x == 1 {} else {}
  }

  /** Reading TSR shows the flags of every mailbox. */
  lemma TsrShows(s: Tx, x: nat)
    requires |s.box| == 3 && x < 3
    ensures ShowsTme(Tsr(s), x, s.box[x]) && ShowsRqcp(Tsr(s), x, s.box[x])
    ensures ShowsAbrq(Tsr(s), x, s.box[x]) && ShowsStatus(Tsr(s), x, s.box[x])
  {
    hide FlagBits, Tsr, View, ShowsTme, ShowsRqcp, ShowsAbrq, ShowsStatus;
    TsrOwn(s, x);
    TmeTest(s.box[x], x, Tsr(s));
    RqcpTest(s.box[x], x, Tsr(s));
    AbrqTest(s.box[x], x, Tsr(s));
    StatusTest(s.box[x], x, Tsr(s));
  }

  /** The hardware's reading of a value written to TSR. */
  function TsrAccess(v: bv32): Access {
    WriteTsr([RqcpSet(v, 0), RqcpSet(v, 1), RqcpSet(v, 2)], [AbrqSet(v, 0), AbrqSet(v, 1), AbrqSet(v, 2)])
  }

  // ---- Time ----

  /** The state after k more register accesses, none of which writes. */
  function Elapse(s: Tx, env: nat -> seq<Event>, clock: nat, k: nat): (r: Tx)
    ensures |r.box| == |s.box|
  {
    if k == 0 then s else RunHw(Elapse(s, env, clock, k - 1), env(clock + k - 1))
  }

  /** What the hardware does to a mailbox: nothing to an empty one; a pending frame stays as it is or is decided. */
  predicate BoxEvolves(b: Mailbox, b': Mailbox) {
    && (b.tme ==> b' == b)
    && (!b.tme ==> b'.ticket == b.ticket && b'.id == b.id && b'.dtr == b.dtr && b'.dlr == b.dlr && b'.dhr == b.dhr)
    && (!b.tme && b'.tme ==> b'.rqcp)
  }

  ghost predicate Evolves(s: Tx, s': Tx) {
    && Inv(s') && Grows(s, s') && s'.frame == s.frame
    && |s.box| == 3 && forall x :: 0 <= x < 3 ==> BoxEvolves(s.box[x], s'.box[x])
  }

  lemma {:induction false} HwEvolves(s: Tx, es: seq<Event>)
    requires Inv(s)
    ensures Evolves(s, RunHw(s, es))
  {
    hide Inv, Evolves, HwStep;
    if es == [] {
      EvolvesSelf(s);
    } else {
      HwEvolves(s, es[..|es| - 1]);
      EvolvesStep(s, RunHw(s, es[..|es| - 1]), es[|es| - 1]);
    }
  }

  lemma EvolvesSelf(s: Tx)
    requires Inv(s)
    ensures Evolves(s, s)
  {
  }

  lemma EvolvesStep(s: Tx, r: Tx, e: Event)
    requires Evolves(s, r)
    ensures Evolves(s, HwStep(r, e))
  {
    hide WithRequest, Bare, Strip;
    ApplyKeeps(r, Hw(e));
    hide Inv;
  }

  /** The mailbox being filled holds b, and everything else has evolved by itself since s0. */
  ghost predicate Filling(s0: Tx, s: Tx, m: nat, b: Mailbox) {
    && Inv(s) && Grows(s0, s) && s.frame == s0.frame && |s0.box| == 3
    && m < 3 && b.tme && s.box[m] == b
    && forall x :: 0 <= x < 3 && x != m ==> BoxEvolves(s0.box[x], s.box[x])
  }

  lemma FillingTick(s0: Tx, s: Tx, m: nat, b: Mailbox, es: seq<Event>)
    requires Filling(s0, s, m, b)
    ensures Filling(s0, RunHw(s, es), m, b)
  {
    HwEvolves(s, es);
  }

  /** Mailbox x is empty when TSR is read for it, the (x+1)-th access of CAN_Transmit. */
  predicate EmptyWhenRead(s: Tx, env: nat -> seq<Event>, clock: nat, x: nat)
    requires |s.box| == 3 && x < 3
  {
    Elapse(s, env, clock, x + 1).box[x].tme
  }

  class CanTx {
    /** The hardware events before each register access: any schedule. */
    const env: nat -> seq<Event>
    var clock: nat
    var s: Tx

    ghost predicate Valid()
      reads this
    {
      Inv(s)
    }

    constructor (env: nat -> seq<Event>)
      ensures Valid() && this.env == env
    {
      this.env := env;
      clock := 0;
      s := RESET;
    }

    method Tick()
      requires Valid()
      modifies this
      ensures Valid() && clock == old(clock) + 1
      ensures s == RunHw(old(s), env(old(clock))) == Elapse(old(s), env, old(clock), 1)
    {
      HwEvolves(s, env(clock));
      assert Elapse(s, env, clock, 0) == s;
      s := RunHw(s, env(clock));
      clock := clock + 1;
    }

    method ReadTSR() returns (v: bv32)
      requires Valid()
      modifies this
      ensures Valid() && clock == old(clock) + 1 && v == Tsr(s)
      ensures s == RunHw(old(s), env(old(clock))) == Elapse(old(s), env, old(clock), 1)
    {
      Tick();
      v := Tsr(s);
    }

    /** A register write of the driver. */
    method Write(a: Access)
      requires Valid()
      modifies this
      ensures Valid() && clock == old(clock) + 1
      ensures s == Apply(RunHw(old(s), env(old(clock))), a)
    {
      Tick();
      ApplyKeeps(s, a);
      s := Apply(s, a);
    }

    /** CAN_Transmit. Each mailbox is looked at in its own read of TSR; the registers are written one by one. */
    method Transmit(msg: TxMsg) returns (mailbox: nat)
      requires Valid() && ValidTx(msg)
      modifies this
      ensures Valid() && Grows(old(s), s)
      // the first mailbox that was empty when its flag was read
      ensures mailbox == 4 || mailbox < 3
      ensures mailbox == 4 <==> forall x :: 0 <= x < 3 ==> !EmptyWhenRead(old(s), env, old(clock), x)
      ensures mailbox < 3 ==> EmptyWhenRead(old(s), env, old(clock), mailbox)
      ensures mailbox < 3 ==> forall x :: 0 <= x < mailbox ==> !EmptyWhenRead(old(s), env, old(clock), x)
      // nothing else is written
      ensures mailbox == NO_MAILBOX ==> s == Elapse(old(s), env, old(clock), 3)
      ensures forall x :: 0 <= x < 3 && x != mailbox ==> BoxEvolves(old(s).box[x], s.box[x])
      // the frame is pending in the mailbox returned
      ensures mailbox < 3 ==>
                && s.frame == old(s).frame + [Pack(msg, old(s).box[mailbox].dtr)]
                && !s.box[mailbox].tme && s.box[mailbox].ticket == |old(s).frame|
                && s.box[mailbox].Registers() == Pack(msg, old(s).box[mailbox].dtr)
    {
      mailbox := Select();
      if mailbox != NO_MAILBOX {
        Fill(mailbox, msg);
      }
    }

    /** The choice of an empty mailbox. */
    method Select() returns (mailbox: nat)
      requires Valid()
      modifies this
      ensures Valid() && Evolves(old(s), s)
      ensures mailbox == NO_MAILBOX || mailbox < 3
      ensures mailbox == NO_MAILBOX <==> forall x :: 0 <= x < 3 ==> !EmptyWhenRead(old(s), env, old(clock), x)
      ensures mailbox < 3 ==> EmptyWhenRead(old(s), env, old(clock), mailbox) && s.box[mailbox].tme
      ensures mailbox < 3 ==> forall x :: 0 <= x < mailbox ==> !EmptyWhenRead(old(s), env, old(clock), x)
      ensures mailbox == NO_MAILBOX ==> s == Elapse(old(s), env, old(clock), 3)
    {
      hide Elapse, EmptyWhenRead, Evolves, Inv;
      ghost var s0, c0 := s, clock;
      StartEvolving(s0, env, c0);
      var empty := Look(0, s0, c0);
      if empty {
        return 0;
      }
      empty := Look(1, s0, c0);
      if empty {
        return 1;
      }
      empty := Look(2, s0, c0);
      if empty {
        return 2;
      }
      return NO_MAILBOX;
    }

    /**
     CAN_TransmitStatus: Ok exactly when TSR shows a success, and then the frame was really sent; Pending exactly
     while the frame is waiting. For a mailbox number that does not exist the code also answers Pending.
     */
    method TransmitStatus(mailbox: nat) returns (status: bv8)
      requires Valid()
      modifies this
      ensures Valid()
      ensures mailbox >= 3 ==> status == 2 && s == old(s)
      ensures mailbox < 3 ==> s == Elapse(old(s), env, old(clock), 1) && status == Report(s.box[mailbox])
      // failed is 0, sent 1, pending 2
      ensures mailbox < 3 && s.box[mailbox].rqcp ==>
                && s.box[mailbox].ticket < |s.fate|
                && (status == 1 <==> s.fate[s.box[mailbox].ticket] == Sent)
                && (status == 0 <==> s.fate[s.box[mailbox].ticket] == Dropped)
      ensures mailbox < 3 ==> (status == 2 <==> !s.box[mailbox].tme)
      ensures mailbox < 3 && status == 2 ==>
                s.box[mailbox].ticket < |s.fate| && s.fate[s.box[mailbox].ticket] == Waiting
      ensures mailbox < 3 && s.box[mailbox].tme && !s.box[mailbox].rqcp ==> status == 0
    {
      hide Tsr, ShowsTme, ShowsRqcp, ShowsAbrq, StatusBits, StatusPart, DecodeStatus, RunHw;
      var state: bv32;
      if mailbox < 3 {
        var tsr := ReadTSR();
        state := StatusPart(tsr, mailbox);
        TsrShows(s, mailbox);
        assert BoxOk(s.box[mailbox], s.fate, s.frame);
        DecodeReports(s.box[mailbox], mailbox);
      } else {
        state := TXSTATUS_FAILED as bv32;
        NoState();
      }
      status := DecodeStatus(state);
    }

    /** CAN_CancelTransmit: one read of TSR, then one write of that value with ABRQ set. */
    method CancelTransmit(mailbox: nat)
      requires Valid()
      modifies this
      ensures Valid() && Grows(old(s), s)
      ensures mailbox >= 3 ==> s == old(s)
      ensures mailbox < 3 ==>
                var s1, s2 := Elapse(old(s), env, old(clock), 1), Elapse(old(s), env, old(clock), 2);
                && Evolves(old(s), s1) && Evolves(s1, s2) && s.fate == s2.fate && s.frame == s2.frame
                && forall y :: 0 <= y < 3 ==>
                     s.box[y] == TsrWritten(s2.box[y], s1.box[y].rqcp, y == mailbox || s1.box[y].abrq)
    {
      if mailbox < 3 {
        Abort(mailbox);
      }
    }

    /** TSR |= ABRQx. */
    method Abort(mailbox: nat)
      requires Valid() && mailbox < 3
      modifies this
      ensures Valid() && Grows(old(s), s)
      ensures var s1, s2 := Elapse(old(s), env, old(clock), 1), Elapse(old(s), env, old(clock), 2);
              && Evolves(old(s), s1) && Evolves(s1, s2) && s.fate == s2.fate && s.frame == s2.frame
              && forall y :: 0 <= y < 3 ==>
                   s.box[y] == TsrWritten(s2.box[y], s1.box[y].rqcp, y == mailbox || s1.box[y].abrq)
    {
      hide Tsr, ShowsTme, ShowsStatus, WithAbort, RqcpSet, AbrqSet, RunHw, Inv, BoxEvolves, TsrWritten;
      ghost var s0, c0 := s, clock;
      HwEvolves(s, env(clock));
      var tsr := ReadTSR();
      ghost var s1 := s;
      HwEvolves(s, env(clock));
      forall y | 0 <= y < 3
        ensures RqcpSet(WithAbort(tsr, mailbox), y) == s1.box[y].rqcp
        ensures AbrqSet(WithAbort(tsr, mailbox), y) == (y == mailbox || s1.box[y].abrq)
      {
        TsrShows(s1, y);
        WithAbortKeeps(tsr, mailbox, y);
        WithAbortSets(tsr, mailbox, y);
      }
      Write(TsrAccess(WithAbort(tsr, mailbox)));
      assert RunHw(s1, env(c0 + 1)) == Elapse(s0, env, c0, 2);
    }

    /** One of the reads of TSR: is mailbox x empty? */
    method Look(x: nat, ghost s0: Tx, ghost c0: nat) returns (empty: bool)
      requires x < 3 && Inv(s0) && Evolves(s0, s) && s == Elapse(s0, env, c0, x) && clock == c0 + x
      modifies this
      ensures Evolves(s0, s) && Inv(s) && s == Elapse(s0, env, c0, x + 1) && clock == c0 + x + 1
      ensures empty == s.box[x].tme == EmptyWhenRead(s0, env, c0, x)
    {
      hide Tsr, TmeSet, RunHw, Elapse, Evolves, Inv;
      EvolvesKeeps(s0, s);
      EvolvesOn(s0, s, env(clock));
      EvolvesKeeps(s0, RunHw(s, env(clock)));
      ElapseNext(s0, env, c0, x);
      var tsr := ReadTSR();
      TmeRead(s, x);
      empty := TmeSet(tsr, x);
    }

    /** A read of a register of the mailbox being filled. */
    method Read(m: nat, ghost s0: Tx, ghost b: Mailbox) returns (r: Words)
      requires Filling(s0, s, m, b)
      modifies this
      ensures Filling(s0, s, m, b) && r == b.Registers()
    {
      FillingTick(s0, s, m, b, env(clock));
      Tick();
      r := s.box[m].Registers();
    }

    /** A write to a register of the mailbox being filled that requests nothing. */
    method Edit(m: nat, a: Access, ghost s0: Tx, ghost b: Mailbox)
      requires Filling(s0, s, m, b) && Edits(a, m)
      modifies this
      ensures Filling(s0, s, m, Edited(b, a))
    {
      FillingTick(s0, s, m, b, env(clock));
      ghost var t := RunHw(s, env(clock));
      ApplyKeeps(t, a);
      Write(a);
    }

    /** The register writes of CAN_Transmit, in order. */
    method Fill(m: nat, msg: TxMsg)
      requires Valid() && m < 3 && s.box[m].tme && ValidTx(msg)
      modifies this
      ensures Valid() && Grows(old(s), s)
      ensures forall x :: 0 <= x < 3 && x != m ==> BoxEvolves(old(s).box[x], s.box[x])
      ensures s.frame == old(s).frame + [Pack(msg, old(s).box[m].dtr)]
      ensures !s.box[m].tme && s.box[m].ticket == |old(s).frame|
      ensures s.box[m].Registers() == Pack(msg, old(s).box[m].dtr)
    {
      ghost var s0, b := s, s.box[m];
      StartFilling(s, m);
      FilledIs(b, msg);
      hide *;
      FillAll(m, msg, s0, b);
      Submit(m, s0, Filled(b, msg));
    }

    method FillAll(m: nat, msg: TxMsg, ghost s0: Tx, ghost b: Mailbox)
      requires Filling(s0, s, m, b) && ValidTx(msg) && Bare(b.id) && b.tme
      modifies this
      ensures Filling(s0, s, m, Filled(b, msg))
    {
      hide Filling, IdWord, WithLength, WithoutLength, LowData, HighData, Bare;
      FillId(m, msg, s0, b);
      FillLength(m, msg, s0, b.(id := IdWord(msg)));
      FillData(m, msg, s0, b.(id := IdWord(msg), dtr := WithLength(WithoutLength(b.dtr), msg.dlc)));
    }

    method FillData(m: nat, msg: TxMsg, ghost s0: Tx, ghost b: Mailbox)
      requires Filling(s0, s, m, b) && |msg.data| == 8
      modifies this
      ensures Filling(s0, s, m, b.(dlr := LowData(msg), dhr := HighData(msg)))
    {
      hide LowData, HighData, Filling;
      var a := WriteTdlr(m, LowData(msg));
      Edit(m, a, s0, b);
      ghost var b1 := Edited(b, a);
      a := WriteTdhr(m, HighData(msg));
      Edit(m, a, s0, b1);
    }

    /** TIR is cleared but for TXRQ, then the identifier word is or-ed in. */
    method FillId(m: nat, msg: TxMsg, ghost s0: Tx, ghost b: Mailbox)
      requires Filling(s0, s, m, b) && ValidTx(msg) && Bare(b.id) && b.tme
      modifies this
      ensures Filling(s0, s, m, b.(id := IdWord(msg)))
    {
      IdWordBare(msg);
      StripRequest(b.id);
      StripBare(IdWord(msg));
      hide KeepRequest, AddId, Bare, Strip, IdWord, Filling;
      var r := Read(m, s0, b);
      var a := WriteTir(m, KeepRequest(r.ir), false);
      Edit(m, a, s0, b);
      ghost var b1 := Edited(b, a);
      r := Read(m, s0, b1);
      a := WriteTir(m, AddId(r.ir, IdWord(msg)), false);
      Edit(m, a, s0, b1);
    }

    /** TDTR is cleared in its length code, then the length is or-ed in. */
    method FillLength(m: nat, msg: TxMsg, ghost s0: Tx, ghost b: Mailbox)
      requires Filling(s0, s, m, b)
      modifies this
      ensures Filling(s0, s, m, b.(dtr := WithLength(WithoutLength(b.dtr), msg.dlc)))
    {
      hide WithLength, WithoutLength, Filling;
      var r := Read(m, s0, b);
      var a := WriteTdtr(m, WithoutLength(r.dtr));
      Edit(m, a, s0, b);
      ghost var b1 := Edited(b, a);
      r := Read(m, s0, b1);
      a := WriteTdtr(m, WithLength(r.dtr, msg.dlc));
      Edit(m, a, s0, b1);
    }

    /** TIR |= TXRQ. */
    method Submit(m: nat, ghost s0: Tx, ghost b: Mailbox)
      requires Filling(s0, s, m, b)
      modifies this
      ensures Valid() && Grows(s0, s)
      ensures forall x :: 0 <= x < 3 && x != m ==> BoxEvolves(s0.box[x], s.box[x])
      ensures var w := Words(WithRequest(Strip(WithRequest(b.id))), b.dtr, b.dlr, b.dhr);
              && s.frame == s0.frame + [w] && s.box[m].Registers() == w
              && !s.box[m].tme && s.box[m].ticket == |s0.frame|
    {
      hide WithRequest, Strip, Bare;
      var r := Read(m, s0, b);
      FillingTick(s0, s, m, b, env(clock));
      Write(WriteTir(m, WithRequest(r.ir), true));
    }
  }

  /** The second switch of CAN_TransmitStatus, on the masked TSR value. */
  function DecodeStatus(state: bv32): bv8 {
    if state == 0 then TXSTATUS_PENDING
    else if state == RqcpBit(0) | TmeBit(0) || state == RqcpBit(1) | TmeBit(1) || state == RqcpBit(2) | TmeBit(2)
    then TXSTATUS_FAILED
    else if state == RqcpBit(0) | TxokBit(0) | TmeBit(0) || state == RqcpBit(1) | TxokBit(1) | TmeBit(1) ||
            state == RqcpBit(2) | TxokBit(2) | TmeBit(2)
    then TXSTATUS_OK
    else TXSTATUS_FAILED
  }

  /** What TSR says about a mailbox. */
  function Report(b: Mailbox): bv8 {
    if !b.tme then TXSTATUS_PENDING else if b.rqcp && b.txok then TXSTATUS_OK else TXSTATUS_FAILED
  }

  lemma DecodeReports(b: Mailbox, x: nat)
    requires x < 3 && (b.txok ==> b.rqcp) && (!b.tme ==> !b.rqcp)
    ensures DecodeStatus(StatusBits(b, x)) == Report(b)
  {
    if x == 0 {} else if x == 1 {} else {}
  }

  /**
   CAN_CancelTransmit writes back what it read, and a one written to RQCP erases the result of that mailbox.
   The report about a mailbox, b1 at the read and b2 before the write, survives iff it was not a success when read.
   */
  lemma CancelErases(b1: Mailbox, b2: Mailbox, abort: bool)
    requires BoxEvolves(b1, b2) && (b1.txok ==> b1.rqcp) && (b2.txok ==> b2.rqcp) && (!b1.tme ==> !b1.rqcp)
    ensures Report(TsrWritten(b2, b1.rqcp, abort)) == Report(b2) <==> Report(b1) != TXSTATUS_OK
  {
  }

  const EMPTY := Mailbox(0, 0, 0, 0, true, false, false, false, 0)
  const RESET := Tx([EMPTY, EMPTY, EMPTY], 0, [], [])

  /** A frame is requested in mailbox 0 and sent. */
  function FirstSent(): (s: Tx)
    ensures |s.box| == 3
  {
    Apply(Apply(RESET, WriteTir(0, 0, true)), Hw(Complete(0)))
  }

  lemma FirstSentShows()
    ensures FirstSent().fate == [Sent] && FirstSent().box[0].tme && FirstSent().box[0].rqcp && FirstSent().box[0].txok
  {
    hide WithRequest, Strip;
  }

  /** TSR |= ABRQx with nothing happening between the read and the write. */
  function Cancelled(s: Tx, x: nat): (r: Tx)
    requires |s.box| == 3
    ensures |r.box| == 3 && r.fate == s.fate
  {
    Apply(s, TsrAccess(WithAbort(Tsr(s), x)))
  }

  function WithAbort(v: bv32, x: nat): bv32 { Or(v, AbrqBit(x)) }

  lemma CancelledClears(s: Tx, x: nat, y: nat)
    requires |s.box| == 3 && x < 3 && y < 3 && s.box[y].rqcp
    ensures !Cancelled(s, x).box[y].rqcp && Cancelled(s, x).box[y].tme == s.box[y].tme
  {
    hide Tsr, TsrAccess, WithAbort, Apply, AbrqSet, RqcpSet, ShowsTme, ShowsAbrq, ShowsStatus;
    TsrShows(s, y);
    WithAbortKeeps(Tsr(s), x, y);
    WrittenClears(s, WithAbort(Tsr(s), x), y);
  }

  lemma WrittenClears(s: Tx, v: bv32, y: nat)
    requires |s.box| == 3 && y < 3 && RqcpSet(v, y)
    ensures var b := Apply(s, TsrAccess(v)).box[y]; !b.rqcp && b.tme == s.box[y].tme
  {
    hide AbrqSet, RqcpSet;
  }

  /**
   From reset: a frame is sent from mailbox 0 and its success stands in TSR; cancelling in mailbox 1, which is
   empty, makes the status of mailbox 0 a failure.
   */
  lemma SuccessLost()
    ensures FirstSent().fate == Cancelled(FirstSent(), 1).fate == [Sent]
    ensures Report(FirstSent().box[0]) == TXSTATUS_OK && Report(Cancelled(FirstSent(), 1).box[0]) == TXSTATUS_FAILED
  {
    hide FirstSent, Cancelled;
    FirstSentShows();
    CancelledClears(FirstSent(), 1, 0);
  }

  predicate RqcpSet(v: bv32, x: nat) { Touches(v, RqcpBit(x)) }

  predicate AbrqSet(v: bv32, x: nat) { Touches(v, AbrqBit(x)) }

  lemma NoState()
    ensures DecodeStatus(TXSTATUS_FAILED as bv32) == TXSTATUS_PENDING
  {
  }

  lemma AbortBits(x: nat, y: nat)
    requires x < 3 && y < 3
    ensures !Touches(AbrqBit(x), RqcpBit(y)) && (Touches(AbrqBit(x), AbrqBit(y)) <==> x == y)
  {
    if x == 0 {} else if x == 1 {} else {}
  }

  lemma WithAbortKeeps(v: bv32, x: nat, y: nat)
    requires x < 3 && y < 3
    ensures RqcpSet(WithAbort(v, x), y) == RqcpSet(v, y)
  {
    hide Touches, Or, AbrqBit, RqcpBit;
    AbortBits(x, y);
    OrTouches(v, AbrqBit(x), RqcpBit(y));
  }

  lemma WithAbortSets(v: bv32, x: nat, y: nat)
    requires x < 3 && y < 3
    ensures AbrqSet(WithAbort(v, x), y) == (x == y || AbrqSet(v, y))
  {
    hide Touches, Or, AbrqBit, RqcpBit;
    AbortBits(x, y);
    OrTouches(v, AbrqBit(x), AbrqBit(y));
  }

  /** A write to a register of mailbox m other than a transmission request. */
  predicate Edits(a: Access, m: nat) {
    match a
    case WriteTir(x, id, request) => x == m && !request
    case WriteTdtr(x, v) => x == m
    case WriteTdlr(x, v) => x == m
    case WriteTdhr(x, v) => x == m
    case _ => false
  }

  function Edited(b: Mailbox, a: Access): Mailbox {
    match a
    case WriteTir(x, id, request) => b.(id := Strip(id))
    case WriteTdtr(x, v) => b.(dtr := v)
    case WriteTdlr(x, v) => b.(dlr := v)
    case WriteTdhr(x, v) => b.(dhr := v)
    case _ => b
  }

  function LowData(msg: TxMsg): bv32
    requires |msg.data| == 8
  {
    FourBytes(msg.data[0], msg.data[1], msg.data[2], msg.data[3])
  }

  function HighData(msg: TxMsg): bv32
    requires |msg.data| == 8
  {
    FourBytes(msg.data[4], msg.data[5], msg.data[6], msg.data[7])
  }

  /** The mailbox after the register writes, before the request. */
  function Filled(b: Mailbox, msg: TxMsg): Mailbox
    requires |msg.data| == 8
  {
    b.(id := IdWord(msg), dtr := WithLength(WithoutLength(b.dtr), msg.dlc), dlr := LowData(msg), dhr := HighData(msg))
  }

  lemma FilledIs(b: Mailbox, msg: TxMsg)
    requires ValidTx(msg)
    ensures var f := Filled(b, msg);
            Words(WithRequest(Strip(WithRequest(f.id))), f.dtr, f.dlr, f.dhr) == Pack(msg, b.dtr)
  {
    hide WithRequest, Strip, IdWord, WithLength, WithoutLength, FourBytes, Bare;
    IdWordBare(msg);
    StripRequested(IdWord(msg));
  }

  lemma IdWordBare(msg: TxMsg)
    requires ValidTx(msg)
    ensures Bare(IdWord(msg))
  {
  }

  lemma StripRequest(id: bv32)
    requires Bare(id)
    ensures Strip(KeepRequest(id)) == 0
  {
  }

  lemma StripBare(w: bv32)
    requires Bare(w)
    ensures Strip(AddId(0, w)) == w
  {
  }

  lemma StripRequested(w: bv32)
    requires Bare(w)
    ensures WithRequest(Strip(WithRequest(w))) == WithRequest(w)
  {
  }

  lemma StartFilling(s: Tx, m: nat)
    requires Inv(s) && m < 3 && s.box[m].tme
    ensures Filling(s, s, m, s.box[m]) && Bare(s.box[m].id) && |s.frame| == |s.fate|
  {
  }

  lemma StartEvolving(s: Tx, env: nat -> seq<Event>, clock: nat)
    requires Inv(s)
    ensures Evolves(s, s) && s == Elapse(s, env, clock, 0)
  {
  }

  lemma EvolvesKeeps(s: Tx, s': Tx)
    requires Evolves(s, s')
    ensures Inv(s') && |s'.box| == 3
  {
  }

  lemma ElapseNext(s: Tx, env: nat -> seq<Event>, clock: nat, k: nat)
    ensures Elapse(s, env, clock, k + 1) == RunHw(Elapse(s, env, clock, k), env(clock + k))
  {
  }

  lemma TmeRead(s: Tx, x: nat)
    requires |s.box| == 3 && x < 3
    ensures TmeSet(Tsr(s), x) == s.box[x].tme
  {
    hide Tsr, TmeSet, ShowsRqcp, ShowsAbrq, ShowsStatus;
    TsrShows(s, x);
  }

  lemma EvolvesOn(s0: Tx, s: Tx, es: seq<Event>)
    requires Inv(s0) && Evolves(s0, s)
    ensures Evolves(s0, RunHw(s, es))
  {
    HwEvolves(s, es);
  }
}
