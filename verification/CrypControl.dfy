/**
 The control and status registers of the CRYP processor: CR as a record and as a word, the updates of the
 driver on the word, and the status bits that CRYP_SaveContext looks at.
 */
module CrypControl {
  import opened Bytes
  import opened Modes
  import opened Fields

  // Bits of the control register (stm32f4xx.h:2873-2895) and of the status register (2897-2901).
  const CR_ALGODIR: bv32 := 0x0000_0004
  const CR_ALGOMODE: bv32 := 0x0000_0038
  const CR_DATATYPE: bv32 := 0x0000_00C0
  const CR_KEYSIZE: bv32 := 0x0000_0300
  const CR_CRYPEN: bv32 := 0x0000_8000
  const SR_IFEM: bv32 := 0x01
  const SR_IFNF: bv32 := 0x02
  const SR_OFNE: bv32 := 0x04
  const SR_OFFU: bv32 := 0x08
  const SR_BUSY: bv32 := 0x10

  /** The values of the ALGOMODE field. */
  datatype Algo = TDES_ECB | TDES_CBC | DES_ECB | DES_CBC | AES_ECB | AES_CBC | AES_CTR | AES_KEY
  {
    function Bits(): bv32 {
      match this
      case TDES_ECB => 0x0000
      case TDES_CBC => 0x0008
      case DES_ECB => 0x0010
      case DES_CBC => 0x0018
      case AES_ECB => 0x0020
      case AES_CBC => 0x0028
      case AES_CTR => 0x0030
      case AES_KEY => 0x0038
    }

    predicate UsesKeySize() {
      AES_ECB? || AES_CBC? || AES_CTR? || AES_KEY?
    }
  }

  datatype DataType = Type32b | Type16b | Type8b | Type1b
  {
    function Bits(): bv32 {
      match this case Type32b => 0x0000 case Type16b => 0x0040 case Type8b => 0x0080 case Type1b => 0x00C0
    }
  }

  datatype KeySize = Key128b | Key192b | Key256b
  {
    function Bits(): bv32 {
      match this case Key128b => 0x0000 case Key192b => 0x0100 case Key256b => 0x0200
    }
  }

  function AesId(k: KeySize): CipherId {
    match k case Key128b => AES128 case Key192b => AES192 case Key256b => AES256
  }

  function DirectionBits(d: Direction): bv32 {
    match d case Encrypt => 0x0000 case Decrypt => 0x0004
  }

  function EnableBits(e: bool): bv32 {
    if e then CR_CRYPEN else 0
  }

  function Pack(a: bv32, t: bv32, k: bv32, d: bv32, e: bv32): bv32 {
    Or(a | t | k | d, e)
  }

  /** The control register CR, field by field. FFLUSH clears itself and is never stored. */
  datatype Control = Control(algo: Algo, dataType: DataType, keySize: KeySize, dir: Direction, enabled: bool)
  {
    /** The register word. */
    function Bits(): bv32 {
      Pack(algo.Bits(), dataType.Bits(), keySize.Bits(), DirectionBits(dir), EnableBits(enabled))
    }

    /** The register after CRYP_Init: the key size is only touched in the AES modes. */
    function Configured(a: Algo, t: DataType, k: KeySize, d: Direction): Control {
      Control(a, t, if a.UsesKeySize() then k else keySize, d, enabled)
    }

    function Id(): CipherId {
      match algo
      case TDES_ECB => TDES
      case TDES_CBC => TDES
      case DES_ECB => DES
      case DES_CBC => DES
      case _ => AesId(keySize)
    }

    function Chain(): Chain {
      match algo
      case TDES_ECB => ECB
      case DES_ECB => ECB
      case AES_ECB => ECB
      case AES_CTR => CTR
      case _ => CBC
    }
  }

  /** CRYP_Init sets the key size for the AES modes, key preparation included, and keeps it for DES and TDES; CRYPEN stays. */
  lemma ConfiguredMeans(c: Control, a: Algo, t: DataType, k: KeySize, d: Direction)
    ensures var r := c.Configured(a, t, k, d);
            && r.algo == a && r.dataType == t && r.dir == d && r.enabled == c.enabled
            && r.keySize == if a.TDES_ECB? || a.TDES_CBC? || a.DES_ECB? || a.DES_CBC? then c.keySize else k
  {
  }

  // ---- What the codes say ----

  /** The mode codes: bit 5 is set for AES, bit 4 for DES, counter mode and key preparation, bit 3 for chaining and key preparation. */
  lemma AlgoCodes(a: Algo)
    ensures a.Bits() & 0x20 != 0 <==> a.AES_ECB? || a.AES_CBC? || a.AES_CTR? || a.AES_KEY?
    ensures a.Bits() & 0x10 != 0 <==> a.DES_ECB? || a.DES_CBC? || a.AES_CTR? || a.AES_KEY?
    ensures a.Bits() & 0x08 != 0 <==> a.TDES_CBC? || a.DES_CBC? || a.AES_CBC? || a.AES_KEY?
    ensures a.Bits() & !0x38 == 0
  {
  }

  /** The other fields: data width 32, 16, 8 or 1 bit in bits 7:6, key size in 9:8, decryption in bit 2, enable in bit 15. */
  lemma FieldCodes(t: DataType, k: KeySize, d: Direction, e: bool)
    ensures t.Bits() >> 6 == if t.Type32b? then 0 else if t.Type16b? then 1 else if t.Type8b? then 2 else 3
    ensures k.Bits() >> 8 == if k.Key128b? then 0 else if k.Key192b? then 1 else 2
    ensures DirectionBits(d) == (if d.Decrypt? then 1 << 2 else 0) && EnableBits(e) == if e then 1 << 15 else 0
    ensures t.Bits() & 0x3F == 0 && k.Bits() & 0xFF == 0
  {
  }

  // ---- The fields do not overlap ----

  lemma AlgoInPlace(a: Algo, m: bv32)
    ensures Within(a.Bits(), CR_ALGOMODE)
    ensures m == CR_DATATYPE || m == CR_KEYSIZE || m == CR_ALGODIR || m == CR_CRYPEN ==> !Touches(a.Bits(), m)
  {
  }

  lemma DataTypeInPlace(t: DataType, m: bv32)
    ensures Within(t.Bits(), CR_DATATYPE)
    ensures m == CR_ALGOMODE || m == CR_KEYSIZE || m == CR_ALGODIR || m == CR_CRYPEN ==> !Touches(t.Bits(), m)
  {
  }

  lemma KeySizeInPlace(k: KeySize, m: bv32)
    ensures Within(k.Bits(), CR_KEYSIZE)
    ensures m == CR_ALGOMODE || m == CR_DATATYPE || m == CR_ALGODIR || m == CR_CRYPEN ==> !Touches(k.Bits(), m)
  {
  }

  lemma DirectionInPlace(d: Direction, m: bv32)
    ensures Within(DirectionBits(d), CR_ALGODIR)
    ensures m == CR_ALGOMODE || m == CR_DATATYPE || m == CR_KEYSIZE || m == CR_CRYPEN ==> !Touches(DirectionBits(d), m)
  {
  }

  lemma EnableInPlace(e: bool, m: bv32)
    ensures Within(EnableBits(e), CR_CRYPEN)
    ensures m == CR_ALGOMODE || m == CR_DATATYPE || m == CR_KEYSIZE || m == CR_ALGODIR ==> !Touches(EnableBits(e), m)
  {
  }

  lemma InPlace(c: Control, m: bv32)
    ensures Within(c.algo.Bits(), CR_ALGOMODE) && Within(c.dataType.Bits(), CR_DATATYPE)
    ensures Within(c.keySize.Bits(), CR_KEYSIZE) && Within(DirectionBits(c.dir), CR_ALGODIR)
    ensures Within(EnableBits(c.enabled), CR_CRYPEN)
    ensures m == CR_DATATYPE || m == CR_KEYSIZE || m == CR_ALGODIR || m == CR_CRYPEN ==> !Touches(c.algo.Bits(), m)
    ensures m == CR_ALGOMODE || m == CR_KEYSIZE || m == CR_ALGODIR || m == CR_CRYPEN ==> !Touches(c.dataType.Bits(), m)
    ensures m == CR_ALGOMODE || m == CR_DATATYPE || m == CR_ALGODIR || m == CR_CRYPEN ==> !Touches(c.keySize.Bits(), m)
    ensures m == CR_ALGOMODE || m == CR_DATATYPE || m == CR_KEYSIZE || m == CR_CRYPEN ==> !Touches(DirectionBits(c.dir), m)
    ensures m == CR_ALGOMODE || m == CR_DATATYPE || m == CR_KEYSIZE || m == CR_ALGODIR ==> !Touches(EnableBits(c.enabled), m)
  {
    hide *;
    AlgoInPlace(c.algo, m);
    DataTypeInPlace(c.dataType, m);
    KeySizeInPlace(c.keySize, m);
    DirectionInPlace(c.dir, m);
    EnableInPlace(c.enabled, m);
  }

  /** A field, written last, beside others that lie outside its mask: it is read, cleared and set alone. */
  lemma LastField(a: bv32, t: bv32, k: bv32, d: bv32, f: bv32, m: bv32, v: bv32)
    requires !Touches(a, m) && !Touches(t, m) && !Touches(k, m) && !Touches(d, m) && Within(f, m)
    ensures And(Pack(a, t, k, d, f), m) == f
    ensures AndNot(Pack(a, t, k, d, f), m) == Pack(a, t, k, d, 0)
    ensures Or(Pack(a, t, k, d, 0), v) == Pack(a, t, k, d, v)
  {
    hide *;
    ReadLast(a, t, k, d, f, m);
    ClearLast(a, t, k, d, f, m);
    SetLast(a, t, k, d, v);
  }

  lemma ReadLast(a: bv32, t: bv32, k: bv32, d: bv32, f: bv32, m: bv32)
    requires !Touches(a, m) && !Touches(t, m) && !Touches(k, m) && !Touches(d, m) && Within(f, m)
    ensures And(Pack(a, t, k, d, f), m) == f
  {
  }

  lemma ClearLast(a: bv32, t: bv32, k: bv32, d: bv32, f: bv32, m: bv32)
    requires !Touches(a, m) && !Touches(t, m) && !Touches(k, m) && !Touches(d, m) && Within(f, m)
    ensures AndNot(Pack(a, t, k, d, f), m) == Pack(a, t, k, d, 0)
  {
  }

  lemma SetLast(a: bv32, t: bv32, k: bv32, d: bv32, v: bv32)
    ensures Or(Pack(a, t, k, d, 0), v) == Pack(a, t, k, d, v)
  {
    hide Or;
    OrNothing(a | t | k | d);
  }

  lemma OrNothing(x: bv32)
    ensures Or(x, 0) == x
  {
  }

  // The order of the fields does not matter.

  lemma FirstLast(a: bv32, t: bv32, k: bv32, d: bv32, e: bv32)
    ensures Pack(a, t, k, d, e) == Pack(e, t, k, d, a)
  {
  }

  lemma SecondLast(a: bv32, t: bv32, k: bv32, d: bv32, e: bv32)
    ensures Pack(a, t, k, d, e) == Pack(a, e, k, d, t)
  {
  }

  lemma ThirdLast(a: bv32, t: bv32, k: bv32, d: bv32, e: bv32)
    ensures Pack(a, t, k, d, e) == Pack(a, t, e, d, k)
  {
  }

  lemma FourthLast(a: bv32, t: bv32, k: bv32, d: bv32, e: bv32)
    ensures Pack(a, t, k, d, e) == Pack(a, t, k, e, d)
  {
  }

  // ---- Reading the word ----

  function AlgoOf(a: bv32): Algo {
    if a == 0x0000 then TDES_ECB else if a == 0x0008 then TDES_CBC else if a == 0x0010 then DES_ECB
    else if a == 0x0018 then DES_CBC else if a == 0x0020 then AES_ECB else if a == 0x0028 then AES_CBC
    else if a == 0x0030 then AES_CTR else AES_KEY
  }

  function DataTypeOf(t: bv32): DataType {
    if t == 0x0000 then Type32b else if t == 0x0040 then Type16b else if t == 0x0080 then Type8b else Type1b
  }

  function KeySizeOf(k: bv32): KeySize {
    if k == 0x0000 then Key128b else if k == 0x0100 then Key192b else Key256b
  }

  /** How the processor reads a word written to CR. */
  function Decode(w: bv32): Control {
    Control(AlgoOf(And(w, CR_ALGOMODE)), DataTypeOf(And(w, CR_DATATYPE)), KeySizeOf(And(w, CR_KEYSIZE)),
            if And(w, CR_ALGODIR) == 0 then Encrypt else Decrypt, And(w, CR_CRYPEN) != 0)
  }

  /** The word decodes back to the record. */
  lemma DecodeBits(c: Control)
    ensures Decode(c.Bits()) == c
  {
    BitsRead(c);
    DecodeFields(c);
    hide And, Control.Bits;
  }

  lemma DecodeFields(c: Control)
    ensures AlgoOf(c.algo.Bits()) == c.algo && DataTypeOf(c.dataType.Bits()) == c.dataType
    ensures KeySizeOf(c.keySize.Bits()) == c.keySize
    ensures DirectionBits(c.dir) == 0 <==> c.dir == Encrypt
    ensures EnableBits(c.enabled) != 0 <==> c.enabled
  {
  }

  lemma BitsRead(c: Control)
    ensures And(c.Bits(), CR_ALGOMODE) == c.algo.Bits() && And(c.Bits(), CR_DATATYPE) == c.dataType.Bits()
    ensures And(c.Bits(), CR_KEYSIZE) == c.keySize.Bits() && And(c.Bits(), CR_ALGODIR) == DirectionBits(c.dir)
    ensures And(c.Bits(), CR_CRYPEN) == EnableBits(c.enabled)
  {
    hide Algo.Bits, DataType.Bits, KeySize.Bits, DirectionBits, EnableBits, Pack, And, Or, AndNot, Touches, Within;
    var a, t, k, d, e := c.algo.Bits(), c.dataType.Bits(), c.keySize.Bits(), DirectionBits(c.dir), EnableBits(c.enabled);
    InPlace(c, CR_ALGOMODE);
    InPlace(c, CR_DATATYPE);
    InPlace(c, CR_KEYSIZE);
    InPlace(c, CR_ALGODIR);
    InPlace(c, CR_CRYPEN);
    FirstLast(a, t, k, d, e);
    LastField(e, t, k, d, a, CR_ALGOMODE, 0);
    SecondLast(a, t, k, d, e);
    LastField(a, e, k, d, t, CR_DATATYPE, 0);
    ThirdLast(a, t, k, d, e);
    LastField(a, t, e, d, k, CR_KEYSIZE, 0);
    FourthLast(a, t, k, d, e);
    LastField(a, t, k, e, d, CR_ALGODIR, 0);
    LastField(a, t, k, d, e, CR_CRYPEN, 0);
  }

  /** The fields do not overlap: the register word determines the record. */
  lemma ControlBitsInjective(c: Control, c': Control)
    requires c.Bits() == c'.Bits()
    ensures c == c'
  {
    DecodeBits(c);
    DecodeBits(c');
    hide Decode, Control.Bits;
  }

  // ---- Writing the word: each field is cleared and then set ----

  /** CRYP_Init, mode: with the field cleared the processor is set to TDES in ECB mode; no other field changes. */
  lemma AlgoOnBits(c: Control, v: Algo)
    ensures AndNot(c.Bits(), CR_ALGOMODE) == c.(algo := TDES_ECB).Bits()
    ensures Or(c.(algo := TDES_ECB).Bits(), v.Bits()) == c.(algo := v).Bits()
  {
    hide Algo.Bits, DataType.Bits, KeySize.Bits, DirectionBits, EnableBits, Pack, And, Or, AndNot, Touches, Within;
    var a, t, k, d, e := c.algo.Bits(), c.dataType.Bits(), c.keySize.Bits(), DirectionBits(c.dir), EnableBits(c.enabled);
    InPlace(c, CR_ALGOMODE);
    ZeroBits();
    FirstLast(a, t, k, d, e);
    FirstLast(0, t, k, d, e);
    FirstLast(v.Bits(), t, k, d, e);
    LastField(e, t, k, d, a, CR_ALGOMODE, v.Bits());
  }

  /** CRYP_Init, data type. */
  lemma DataTypeOnBits(c: Control, v: DataType)
    ensures AndNot(c.Bits(), CR_DATATYPE) == c.(dataType := Type32b).Bits()
    ensures Or(c.(dataType := Type32b).Bits(), v.Bits()) == c.(dataType := v).Bits()
  {
    hide Algo.Bits, DataType.Bits, KeySize.Bits, DirectionBits, EnableBits, Pack, And, Or, AndNot, Touches, Within;
    var a, t, k, d, e := c.algo.Bits(), c.dataType.Bits(), c.keySize.Bits(), DirectionBits(c.dir), EnableBits(c.enabled);
    InPlace(c, CR_DATATYPE);
    ZeroBits();
    SecondLast(a, t, k, d, e);
    SecondLast(a, 0, k, d, e);
    SecondLast(a, v.Bits(), k, d, e);
    LastField(a, e, k, d, t, CR_DATATYPE, v.Bits());
  }

  /** CRYP_Init, key size. */
  lemma KeySizeOnBits(c: Control, v: KeySize)
    ensures AndNot(c.Bits(), CR_KEYSIZE) == c.(keySize := Key128b).Bits()
    ensures Or(c.(keySize := Key128b).Bits(), v.Bits()) == c.(keySize := v).Bits()
  {
    hide Algo.Bits, DataType.Bits, KeySize.Bits, DirectionBits, EnableBits, Pack, And, Or, AndNot, Touches, Within;
    var a, t, k, d, e := c.algo.Bits(), c.dataType.Bits(), c.keySize.Bits(), DirectionBits(c.dir), EnableBits(c.enabled);
    InPlace(c, CR_KEYSIZE);
    ZeroBits();
    ThirdLast(a, t, k, d, e);
    ThirdLast(a, t, 0, d, e);
    ThirdLast(a, t, v.Bits(), d, e);
    LastField(a, t, e, d, k, CR_KEYSIZE, v.Bits());
  }

  /** CRYP_Init, direction. */
  lemma DirectionOnBits(c: Control, v: Direction)
    ensures AndNot(c.Bits(), CR_ALGODIR) == c.(dir := Encrypt).Bits()
    ensures Or(c.(dir := Encrypt).Bits(), DirectionBits(v)) == c.(dir := v).Bits()
  {
    hide Algo.Bits, DataType.Bits, KeySize.Bits, DirectionBits, EnableBits, Pack, And, Or, AndNot, Touches, Within;
    var a, t, k, d, e := c.algo.Bits(), c.dataType.Bits(), c.keySize.Bits(), DirectionBits(c.dir), EnableBits(c.enabled);
    InPlace(c, CR_ALGODIR);
    ZeroBits();
    FourthLast(a, t, k, d, e);
    FourthLast(a, t, k, 0, e);
    FourthLast(a, t, k, DirectionBits(v), e);
    LastField(a, t, k, e, d, CR_ALGODIR, DirectionBits(v));
  }

  /** CRYP_Cmd on the register word. */
  lemma EnableOnBits(c: Control)
    ensures Or(c.Bits(), CR_CRYPEN) == c.(enabled := true).Bits()
    ensures AndNot(c.Bits(), CR_CRYPEN) == c.(enabled := false).Bits()
  {
    hide Algo.Bits, DataType.Bits, KeySize.Bits, DirectionBits, EnableBits, Pack, And, Or, AndNot, Touches, Within;
    var a, t, k, d, e := c.algo.Bits(), c.dataType.Bits(), c.keySize.Bits(), DirectionBits(c.dir), EnableBits(c.enabled);
    InPlace(c, CR_CRYPEN);
    ZeroBits();
    LastField(a, t, k, d, e, CR_CRYPEN, CR_CRYPEN);
    SetTwice(a, t, k, d, c.enabled);
  }

  lemma SetTwice(a: bv32, t: bv32, k: bv32, d: bv32, e: bool)
    ensures Or(Pack(a, t, k, d, EnableBits(e)), CR_CRYPEN) == Pack(a, t, k, d, CR_CRYPEN)
  {
  }

  /** The values that clearing leaves. */
  lemma ZeroBits()
    ensures TDES_ECB.Bits() == 0 && Type32b.Bits() == 0 && Key128b.Bits() == 0 && DirectionBits(Encrypt) == 0
    ensures EnableBits(false) == 0 && EnableBits(true) == CR_CRYPEN
  {
  }

  /** The bits [9:2] that CRYP_SaveContext keeps are the whole configuration without the enable bit. */
  lemma SavedOnBits(c: Control)
    ensures And(c.Bits(), CR_KEYSIZE | CR_DATATYPE | CR_ALGOMODE | CR_ALGODIR) == c.(enabled := false).Bits()
  {
    hide Algo.Bits, DataType.Bits, KeySize.Bits, DirectionBits, EnableBits, Pack, And, Or, AndNot, Touches, Within;
    InPlace(c, CR_CRYPEN);
    ZeroBits();
    ReadOthers(c.algo.Bits(), c.dataType.Bits(), c.keySize.Bits(), DirectionBits(c.dir), EnableBits(c.enabled));
  }

  lemma ReadOthers(a: bv32, t: bv32, k: bv32, d: bv32, e: bv32)
    requires Within(a, CR_ALGOMODE) && Within(t, CR_DATATYPE) && Within(k, CR_KEYSIZE) && Within(d, CR_ALGODIR) && Within(e, CR_CRYPEN)
    ensures And(Pack(a, t, k, d, e), CR_KEYSIZE | CR_DATATYPE | CR_ALGOMODE | CR_ALGODIR) == Pack(a, t, k, d, 0)
  {
  }

  /** The status register, flag by flag. */
  datatype StatusReg = StatusReg(ifem: bool, ifnf: bool, ofne: bool, offu: bool, busy: bool)
  {
    function Bits(): bv32 {
      (if ifem then SR_IFEM else 0) | (if ifnf then SR_IFNF else 0) | (if ofne then SR_OFNE else 0) |
      (if offu then SR_OFFU else 0) | (if busy then SR_BUSY else 0)
    }
  }

  /** The flags of SR, from bit 0 up. */
  lemma StatusPlaces(sr: StatusReg)
    ensures (sr.Bits() & 1 != 0 <==> sr.ifem) && (sr.Bits() & 2 != 0 <==> sr.ifnf) && (sr.Bits() & 4 != 0 <==> sr.ofne)
    ensures (sr.Bits() & 8 != 0 <==> sr.offu) && (sr.Bits() & 16 != 0 <==> sr.busy)
  {
  }

  /** Whether CRYP_SaveContext waits for the OUT FIFO to be read. */
  predicate SaveChecksOutput(cr: Control) {
    !(cr.algo.TDES_CBC? || cr.algo.DES_CBC? || cr.algo.AES_CBC? || cr.algo.AES_KEY?)
  }

  /**
   CRYP_SaveContext tests CR against the two TDES mode codes, 0x0000 and 0x0008, to leave the OUT FIFO out
   of its check for TDES only. The test does not single out TDES: it is of one bit, which the CBC mode of every cipher has,
   and the key preparation mode, and no other.
   */
  lemma SaveTestsTheChain(cr: Control)
    ensures And(cr.Bits(), SAVE_TEST) == 0 <==> SaveChecksOutput(cr)
  {
    hide And, Pack, Algo.Bits, DataType.Bits, KeySize.Bits, DirectionBits, EnableBits, Within;
    InPlace(cr, 0);
    AlgoBit(cr.algo.Bits(), cr.dataType.Bits(), cr.keySize.Bits(), DirectionBits(cr.dir), EnableBits(cr.enabled));
    AlgoBitMeans(cr.algo);
  }

  /** CRYP_CR_ALGOMODE_TDES_ECB | CRYP_CR_ALGOMODE_TDES_CBC. */
  const SAVE_TEST: bv32 := 0x0000 | 0x0008

  /** The tested word is the two TDES mode codes together. */
  lemma SaveTestIs()
    ensures SAVE_TEST == TDES_ECB.Bits() | TDES_CBC.Bits()
  {
  }

  lemma AlgoBit(a: bv32, t: bv32, k: bv32, d: bv32, e: bv32)
    requires Within(a, CR_ALGOMODE) && Within(t, CR_DATATYPE) && Within(k, CR_KEYSIZE) && Within(d, CR_ALGODIR) && Within(e, CR_CRYPEN)
    ensures And(Pack(a, t, k, d, e), SAVE_TEST) == And(a, SAVE_TEST)
  {
  }

  lemma AlgoBitMeans(a: Algo)
    ensures And(a.Bits(), SAVE_TEST) != 0 <==> a.TDES_CBC? || a.DES_CBC? || a.AES_CBC? || a.AES_KEY?
  {
  }

  /** The status bits CRYP_SaveContext compares. */
  function CheckMask(cr: Control): bv32 {
    if And(cr.Bits(), SAVE_TEST) != 0 then SR_IFEM | SR_BUSY else SR_IFEM | SR_BUSY | SR_OFNE
  }

  lemma CheckMaskMeans(cr: Control, sr: StatusReg)
    ensures And(sr.Bits(), CheckMask(cr)) == SR_IFEM <==> sr.ifem && !sr.busy && (SaveChecksOutput(cr) ==> !sr.ofne)
  {
    hide And, StatusReg.Bits, Control.Bits;
    FlagBits(sr);
    SaveTestsTheChain(cr);
  }

  lemma FlagBits(sr: StatusReg)
    ensures And(sr.Bits(), SR_BUSY) != 0 <==> sr.busy
    ensures And(sr.Bits(), SR_IFEM | SR_BUSY) == SR_IFEM <==> sr.ifem && !sr.busy
    ensures And(sr.Bits(), SR_IFEM | SR_BUSY | SR_OFNE) == SR_IFEM <==> sr.ifem && !sr.busy && !sr.ofne
  {
  }
}
