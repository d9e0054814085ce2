/**
 The layout of a CAN frame in the mailbox registers: CAN_Transmit packs a message into
 TIR, TDTR, TDLR and TDHR; CAN_Receive unpacks RIR, RDTR, RDLR and RDHR.
 */
module CanFrame {
  import opened Fields

  const ID_STANDARD: bv8 := 0
  const ID_EXTENDED: bv8 := 4
  const RTR_DATA: bv8 := 0
  const RTR_REMOTE: bv8 := 2
  const TXRQ: bv32 := 1

  datatype TxMsg = TxMsg(stdId: bv32, extId: bv32, ide: bv8, rtr: bv8, dlc: bv8, data: seq<bv8>)

  datatype RxMsg = RxMsg(stdId: bv32, extId: bv32, ide: bv8, rtr: bv8, dlc: bv8, data: seq<bv8>, fmi: bv8)

  /** The four registers of a mailbox: identifier, length and time, low and high data. */
  datatype Words = Words(ir: bv32, dtr: bv32, dlr: bv32, dhr: bv32)

  /** The parameter checks of CAN_Transmit. */
  predicate ValidTx(m: TxMsg) {
    && (m.ide == ID_STANDARD || m.ide == ID_EXTENDED) && (m.rtr == RTR_DATA || m.rtr == RTR_REMOTE)
    && m.dlc <= 8 && |m.data| == 8
    && (m.ide == ID_STANDARD ==> m.stdId <= 0x7FF) && (m.ide == ID_EXTENDED ==> m.extId <= 0x1FFF_FFFF)
  }

  function FourBytes(b0: bv8, b1: bv8, b2: bv8, b3: bv8): bv32 {
    (b3 as bv32 << 24) | (b2 as bv32 << 16) | (b1 as bv32 << 8) | b0 as bv32
  }

  function IdWord(m: TxMsg): bv32 {
    if m.ide == ID_STANDARD then (m.stdId << 21) | m.rtr as bv32
    else (m.extId << 3) | m.ide as bv32 | m.rtr as bv32
  }

  function WithRequest(ir: bv32): bv32 { ir | TXRQ }

  function WithoutLength(dtr: bv32): bv32 { dtr & 0xFFFF_FFF0 }

  function WithLength(dtr: bv32, dlc: bv8): bv32 { dtr | (dlc & 0x0F) as bv32 }

  /** The mailbox content CAN_Transmit leaves, with the transmission requested. */
  function Pack(m: TxMsg, dtr: bv32): Words
    requires |m.data| == 8
  {
    Words(WithRequest(IdWord(m)), WithLength(WithoutLength(dtr), m.dlc),
          FourBytes(m.data[0], m.data[1], m.data[2], m.data[3]),
          FourBytes(m.data[4], m.data[5], m.data[6], m.data[7]))
  }

  function LowByte(w: bv32): bv8 {
    (w & 0xFF) as bv8
  }

  function Byte1(w: bv32): bv8 { LowByte(w >> 8) }

  function Byte2(w: bv32): bv8 { LowByte(w >> 16) }

  function Byte3(w: bv32): bv8 { LowByte(w >> 24) }

  function IdeOf(ir: bv32): bv8 { (0x04 & ir) as bv8 }

  function RtrOf(ir: bv32): bv8 { (0x02 & ir) as bv8 }

  function StdIdOf(ir: bv32): bv32 { 0x7FF & (ir >> 21) }

  function ExtIdOf(ir: bv32): bv32 { 0x1FFF_FFFF & (ir >> 3) }

  function DlcOf(dtr: bv32): bv8 { (0x0F & dtr) as bv8 }

  /** CAN_Receive: the identifier field of the other kind keeps its old content. */
  function Unpack(w: Words, before: RxMsg): (r: RxMsg) {
    RxMsg(if IdeOf(w.ir) == ID_STANDARD then StdIdOf(w.ir) else before.stdId,
          if IdeOf(w.ir) == ID_STANDARD then before.extId else ExtIdOf(w.ir),
          IdeOf(w.ir), RtrOf(w.ir), DlcOf(w.dtr),
          [LowByte(w.dlr), Byte1(w.dlr), Byte2(w.dlr), Byte3(w.dlr),
           LowByte(w.dhr), Byte1(w.dhr), Byte2(w.dhr), Byte3(w.dhr)],
          Byte1(w.dtr))
  }

  // ---- Where the registers keep a frame ----

  /** The identifier register: TXRQ in bit 0, RTR in bit 1, IDE in bit 2, the identifier in bits 31:21 or 31:3. */
  predicate Identity(ir: bv32, ide: bv8, rtr: bv8, stdId: bv32, extId: bv32) {
    && (if Get(ir, 2, 1) == 0 then ide == 0 && stdId == Get(ir, 21, 11) else ide == 4 && extId == Get(ir, 3, 29))
    && rtr == if Get(ir, 1, 1) == 0 then 0 else 2
  }

  /** The four bytes of a data register, lowest first. */
  predicate FourOf(w: bv32, b0: bv8, b1: bv8, b2: bv8, b3: bv8) {
    && b0 as bv32 == Get(w, 0, 8) && b1 as bv32 == Get(w, 8, 8) && b2 as bv32 == Get(w, 16, 8) && b3 as bv32 == Get(w, 24, 8)
  }

  /**
   What CAN_Transmit leaves in the mailbox: identity and request in TIR, the length in bits 3:0 of TDTR with the rest of it kept,
   data bytes 0 to 3 in TDLR and 4 to 7 in TDHR.
   */
  lemma PackPlaces(m: TxMsg, dtr: bv32)
    requires ValidTx(m)
    ensures var w := Pack(m, dtr);
            && Get(w.ir, 0, 1) == 1 && Identity(w.ir, m.ide, m.rtr, m.stdId, m.extId)
            && Get(w.dtr, 0, 4) == m.dlc as bv32 && Get(w.dtr, 4, 28) == Get(dtr, 4, 28)
            && FourOf(w.dlr, m.data[0], m.data[1], m.data[2], m.data[3])
            && FourOf(w.dhr, m.data[4], m.data[5], m.data[6], m.data[7])
  {
    hide Get, IdWord, WithRequest, WithLength, WithoutLength, FourBytes, FourOf, Identity;
    RequestPlace(IdWord(m));
    IdentityPlace(m);
    LengthPlace(dtr, m.dlc);
    TimePlace(dtr, m.dlc);
    BytePlaces(m.data[0], m.data[1], m.data[2], m.data[3]);
    BytePlaces(m.data[4], m.data[5], m.data[6], m.data[7]);
  }

  lemma RequestPlace(ir: bv32)
    ensures Get(WithRequest(ir), 0, 1) == 1
  {
  }

  lemma IdentityPlace(m: TxMsg)
    requires ValidTx(m)
    ensures Identity(WithRequest(IdWord(m)), m.ide, m.rtr, m.stdId, m.extId)
  {
    hide Get, IdWord, WithRequest;
    KindPlace(m);
    RtrPlace(m);
    if m.ide == 0 {
      StdIdPlace(m);
    } else {
      ExtIdPlace(m);
    }
  }

  lemma KindPlace(m: TxMsg)
    requires ValidTx(m)
    ensures Get(WithRequest(IdWord(m)), 2, 1) == if m.ide == 0 then 0 else 1
  {
  }

  lemma RtrPlace(m: TxMsg)
    requires ValidTx(m)
    ensures Get(WithRequest(IdWord(m)), 1, 1) == if m.rtr == 0 then 0 else 1
  {
  }

  lemma StdIdPlace(m: TxMsg)
    requires ValidTx(m) && m.ide == 0
    ensures Get(WithRequest(IdWord(m)), 21, 11) == m.stdId
  {
  }

  lemma ExtIdPlace(m: TxMsg)
    requires ValidTx(m) && m.ide != 0
    ensures Get(WithRequest(IdWord(m)), 3, 29) == m.extId
  {
  }

  lemma LengthPlace(dtr: bv32, dlc: bv8)
    requires dlc <= 8
    ensures Get(WithLength(WithoutLength(dtr), dlc), 0, 4) == dlc as bv32
  {
  }

  lemma TimePlace(dtr: bv32, dlc: bv8)
    requires dlc <= 8
    ensures Get(WithLength(WithoutLength(dtr), dlc), 4, 28) == Get(dtr, 4, 28)
  {
  }

  lemma BytePlaces(b0: bv8, b1: bv8, b2: bv8, b3: bv8)
    ensures FourOf(FourBytes(b0, b1, b2, b3), b0, b1, b2, b3)
  {
    hide Get, FourBytes, LowByte, Byte1, Byte2, Byte3;
    FourBytesBack(b0, b1, b2, b3);
    BytesRead(FourBytes(b0, b1, b2, b3));
  }

  /**
   What CAN_Receive makes of the output mailbox: the identity from RIR, the length from bits 3:0 of RDTR and the filter index
   from its bits 15:8, data bytes 0 to 3 from RDLR and 4 to 7 from RDHR.
   */
  lemma UnpackPlaces(w: Words, before: RxMsg)
    ensures var r := Unpack(w, before);
            && Identity(w.ir, r.ide, r.rtr, r.stdId, r.extId)
            && r.dlc as bv32 == Get(w.dtr, 0, 4) && r.fmi as bv32 == Get(w.dtr, 8, 8)
            && FourOf(w.dlr, r.data[0], r.data[1], r.data[2], r.data[3])
            && FourOf(w.dhr, r.data[4], r.data[5], r.data[6], r.data[7])
  {
    hide Get, FourOf, LowByte, Byte1, Byte2, Byte3, IdeOf, RtrOf, StdIdOf, ExtIdOf, DlcOf;
    IdentityRead(w.ir);
    LengthRead(w.dtr);
    IndexRead(w.dtr);
    BytesRead(w.dlr);
    BytesRead(w.dhr);
  }

  lemma IdentityRead(ir: bv32)
    ensures IdeOf(ir) == (if Get(ir, 2, 1) == 0 then 0 else 4) && RtrOf(ir) == (if Get(ir, 1, 1) == 0 then 0 else 2)
    ensures StdIdOf(ir) == Get(ir, 21, 11) && ExtIdOf(ir) == Get(ir, 3, 29)
  {
    hide Get, IdeOf, RtrOf, StdIdOf, ExtIdOf;
    IdeRead(ir);
    RtrRead(ir);
    StdIdRead(ir);
    ExtIdRead(ir);
  }

  lemma IdeRead(ir: bv32)
    ensures IdeOf(ir) == if Get(ir, 2, 1) == 0 then 0 else 4
  {
  }

  lemma RtrRead(ir: bv32)
    ensures RtrOf(ir) == if Get(ir, 1, 1) == 0 then 0 else 2
  {
  }

  lemma StdIdRead(ir: bv32)
    ensures StdIdOf(ir) == Get(ir, 21, 11)
  {
  }

  lemma ExtIdRead(ir: bv32)
    ensures ExtIdOf(ir) == Get(ir, 3, 29)
  {
  }

  lemma LengthRead(dtr: bv32)
    ensures DlcOf(dtr) as bv32 == Get(dtr, 0, 4)
  {
  }

  lemma IndexRead(dtr: bv32)
    ensures Byte1(dtr) as bv32 == Get(dtr, 8, 8)
  {
  }

  lemma BytesRead(w: bv32)
    ensures FourOf(w, LowByte(w), Byte1(w), Byte2(w), Byte3(w))
  {
    hide Get, LowByte, Byte1, Byte2, Byte3;
    LowRead(w);
    IndexRead(w);
    ThirdRead(w);
    FourthRead(w);
  }

  lemma LowRead(w: bv32)
    ensures LowByte(w) as bv32 == Get(w, 0, 8)
  {
  }

  lemma ThirdRead(w: bv32)
    ensures Byte2(w) as bv32 == Get(w, 16, 8)
  {
  }

  lemma FourthRead(w: bv32)
    ensures Byte3(w) as bv32 == Get(w, 24, 8)
  {
  }

  /** The bus delivers the identifier word (bit 0 aside), the length code and the data; time stamp and filter index differ. */
  predicate Delivered(tx: Words, rx: Words) {
    rx.ir & !TXRQ == tx.ir & !TXRQ && rx.dtr & 0x0F == tx.dtr & 0x0F && rx.dlr == tx.dlr && rx.dhr == tx.dhr
  }

  lemma FourBytesBack(b0: bv8, b1: bv8, b2: bv8, b3: bv8)
    ensures var w := FourBytes(b0, b1, b2, b3);
            LowByte(w) == b0 && Byte1(w) == b1 && Byte2(w) == b2 && Byte3(w) == b3
  {
  }

  /** ir is the identifier word of m, bit 0 aside. */
  predicate Identifies(ir: bv32, m: TxMsg) {
    ir & !TXRQ == (IdWord(m) | TXRQ) & !TXRQ
  }

  lemma IdeBack(m: TxMsg, ir: bv32)
    requires ValidTx(m) && Identifies(ir, m)
    ensures IdeOf(ir) == m.ide
  {
  }

  lemma RtrBack(m: TxMsg, ir: bv32)
    requires ValidTx(m) && Identifies(ir, m)
    ensures RtrOf(ir) == m.rtr
  {
  }

  lemma StdIdBack(m: TxMsg, ir: bv32)
    requires ValidTx(m) && Identifies(ir, m) && m.ide == ID_STANDARD
    ensures StdIdOf(ir) == m.stdId
  {
  }

  lemma ExtIdBack(m: TxMsg, ir: bv32)
    requires ValidTx(m) && Identifies(ir, m) && m.ide == ID_EXTENDED
    ensures ExtIdOf(ir) == m.extId
  {
  }

  lemma IdWordBack(m: TxMsg, ir: bv32)
    requires ValidTx(m) && ir & !TXRQ == (IdWord(m) | TXRQ) & !TXRQ
    ensures IdeOf(ir) == m.ide && RtrOf(ir) == m.rtr
    ensures if m.ide == ID_STANDARD then StdIdOf(ir) == m.stdId else ExtIdOf(ir) == m.extId
  {
    hide IdWord, IdeOf, RtrOf, StdIdOf, ExtIdOf;
    IdeBack(m, ir);
    RtrBack(m, ir);
    if m.ide == ID_STANDARD {
      StdIdBack(m, ir);
    } else {
      ExtIdBack(m, ir);
    }
  }

  lemma LengthBack(dtr: bv32, dlc: bv8, rdtr: bv32)
    requires dlc <= 8 && rdtr & 0x0F == ((dtr & 0xFFFF_FFF0) | (dlc & 0x0F) as bv32) & 0x0F
    ensures DlcOf(rdtr) == dlc
  {
  }

  /** Unpacking what was packed returns the frame: kind, identifier, length and all eight bytes. */
  lemma FrameRoundTrip(m: TxMsg, dtr: bv32, rx: Words, before: RxMsg)
    requires ValidTx(m) && Delivered(Pack(m, dtr), rx)
    ensures var r := Unpack(rx, before);
            && r.ide == m.ide && r.rtr == m.rtr && r.dlc == m.dlc && r.data == m.data
            && (m.ide == ID_STANDARD ==> r.stdId == m.stdId && r.extId == before.extId)
            && (m.ide == ID_EXTENDED ==> r.extId == m.extId && r.stdId == before.stdId)
  {
    IdentifierBack(m, dtr, rx, before);
    DataBack(m, dtr, rx, before);
    hide Unpack, Pack;
  }

  lemma IdentifierBack(m: TxMsg, dtr: bv32, rx: Words, before: RxMsg)
    requires ValidTx(m) && Delivered(Pack(m, dtr), rx)
    ensures var r := Unpack(rx, before);
            && r.ide == m.ide && r.rtr == m.rtr && r.dlc == m.dlc
            && (m.ide == ID_STANDARD ==> r.stdId == m.stdId && r.extId == before.extId)
            && (m.ide == ID_EXTENDED ==> r.extId == m.extId && r.stdId == before.stdId)
  {
    hide FourBytes, LowByte, Byte1, Byte2, Byte3, IdWord, IdeOf, RtrOf, StdIdOf, ExtIdOf, DlcOf;
    IdWordBack(m, rx.ir);
    LengthBack(dtr, m.dlc, rx.dtr);
  }

  lemma DataBack(m: TxMsg, dtr: bv32, rx: Words, before: RxMsg)
    requires |m.data| == 8 && rx.dlr == Pack(m, dtr).dlr && rx.dhr == Pack(m, dtr).dhr
    ensures Unpack(rx, before).data == m.data
  {
    hide IdWord, FourBytes, LowByte, Byte1, Byte2, Byte3;
    FourBytesBack(m.data[0], m.data[1], m.data[2], m.data[3]);
    FourBytesBack(m.data[4], m.data[5], m.data[6], m.data[7]);
  }

  /** Two messages packed into the same words are the same frame. */
  lemma PackInjective(m: TxMsg, m': TxMsg, dtr: bv32, dtr': bv32)
    requires ValidTx(m) && ValidTx(m') && Pack(m, dtr) == Pack(m', dtr')
    ensures m.ide == m'.ide && m.rtr == m'.rtr && m.dlc == m'.dlc && m.data == m'.data
    ensures if m.ide == ID_STANDARD then m.stdId == m'.stdId else m.extId == m'.extId
  {
    var w := Pack(m, dtr);
    var r := RxMsg(0, 0, 0, 0, 0, [], 0);
    FrameRoundTrip(m, dtr, w, r);
    FrameRoundTrip(m', dtr', w, r);
  }

  /** Only the length code of TDTR is replaced. */
  lemma PackKeepsTime(m: TxMsg, dtr: bv32)
    requires ValidTx(m)
    ensures Pack(m, dtr).dtr & 0xFFFF_FFF0 == dtr & 0xFFFF_FFF0
  {
  }
}
