/**
 The CRYP peripheral: its registers, FIFOs and core, and the register-level functions of
 stm32f4xx_cryp.c on it. What the hardware does in reaction to a register access is the
 first group of methods; the driver's functions are the second.
 */
module CrypDevice {
  import opened Bytes
  import opened Modes
  import opened Fields
  import opened CrypControl
  import opened CrypCore

  /** MAX_TIMEOUT, and the read after the loop. */
  const SAVE_READS := 0x1_0000

  function Max(a: nat, b: nat): nat {
    if a < b then b else a
  }

  /** The memory image of a suspended job, CRYP_Context: bits [9:2] of CR, the vectors and the key. */
  datatype Context = Context(config: bv32, iv: IvRegs, key: KeyRegs)

  /** What CRYP_SaveContext has written there: a configuration, not enabled. */
  predicate Saved(context: Context) {
    Decode(context.config).Bits() == context.config && !Decode(context.config).enabled
  }

  class Cryp {
    const core: Core
    var cr: Control
    var dmaIn: bool
    var dmaOut: bool
    var key: KeyRegs
    var iv: IvRegs
    var inFifo: seq<Word>
    var outFifo: seq<Word>
    var schedule: Schedule
    var activity: Activity
    /** Status reads that will still see the current operation busy. */
    var left: nat
    /** Core operations started so far. */
    var ops: nat
    ghost var polls: nat
    /** The most words either FIFO has held. */
    ghost var peakIn: nat
    ghost var peakOut: nat

    ghost predicate Valid()
      reads this
    {
      Sound(Now())
    }

    function Set(): Setting
      reads this
    {
      Setting(core, cr, key)
    }

    function Now(): State
      reads this
    {
      State(inFifo, outFifo, iv, schedule, activity, left, ops)
    }

    function StatusNow(): StatusReg
      reads this
    {
      StatusReg(|inFifo| == 0, |inFifo| < FIFO_DEPTH, |outFifo| != 0, |outFifo| == FIFO_DEPTH, !activity.Idle?)
    }

    /** The peripheral after reset. */
    constructor (core: Core)
      ensures Valid() && this.core == core && !cr.enabled && !dmaIn && !dmaOut && key == ZERO_KEY
      ensures Now() == State([], [], IvRegs(ZERO_WORD, ZERO_WORD, ZERO_WORD, ZERO_WORD), Unprepared, Idle, 0, 0)
    {
      this.core := core;
      cr, dmaIn, dmaOut := Control(TDES_ECB, Type32b, Key128b, Encrypt, false), false, false;
      key := ZERO_KEY;
      iv := IvRegs(ZERO_WORD, ZERO_WORD, ZERO_WORD, ZERO_WORD);
      inFifo, outFifo, schedule, activity, left, ops := [], [], Unprepared, Idle, 0, 0;
      polls, peakIn, peakOut := 0, 0, 0;
    }

    // ---- The hardware ----

    /** The core takes the next block if it can. */
    method Advance()
      requires Valid()
      modifies `inFifo, `activity, `left, `ops
      ensures Valid() && Now() == Take(Set(), old(Now()))
    {
      hide Begin;
      TakeCounts(Set(), Now());
      if activity.Idle? && Set().Takes() && Set().Width() <= |inFifo| {
        var n := Set().Width();
        activity := Begin(core, cr, key, schedule, iv, inFifo[..n]);
        inFifo := inFifo[n..];
        left := core.latency(ops);
        ops := ops + 1;
      }
    }

    /** A finished operation delivers its result. */
    method Deliver()
      requires Valid()
      modifies `outFifo, `iv, `schedule, `activity
      ensures Valid() && Now() == Give(old(Now()))
    {
      if activity.Preparing? {
        schedule := Prepared(activity.id, activity.key);
        activity := Idle;
      } else if activity.Crunching? && |outFifo| + |activity.words| <= FIFO_DEPTH {
        outFifo := outFifo + activity.words;
        iv := activity.next.Over(iv);
        activity := Idle;
      }
    }

    /** Key preparation starts when CR enables the key mode on an idle core. */
    predicate Starts(v: Control)
      reads this
    {
      !cr.enabled && v.enabled && v.algo.AES_KEY? && activity.Idle?
    }

    /** A write of a word to CR with FFLUSH clear; v is how the processor reads it. */
    method WriteCR(w: bv32, ghost v: Control)
      requires Valid() && w == v.Bits()
      modifies `cr, `activity, `left, `ops
      ensures Valid() && cr == v
      ensures Now() == if old(Starts(v))
                       then old(Now()).(activity := Preparing(v.Id(), key), left := core.latency(old(ops)), ops := old(ops) + 1)
                       else old(Now())
    {
      DecodeBits(v);
      hide Control.Bits, Decode;
      if Starts(Decode(w)) {
        activity := Preparing(Decode(w).Id(), key);
        left := core.latency(ops);
        ops := ops + 1;
      }
      cr := Decode(w);
    }

    /** A write to DR pushes a word into the IN FIFO. */
    method WriteDR(w: Word)
      requires Valid() && |inFifo| < FIFO_DEPTH
      modifies `inFifo, `activity, `left, `ops, `peakIn
      ensures Valid() && Now() == Take(Set(), old(Now()).(inFifo := old(inFifo) + [w]))
      ensures peakIn == Max(old(peakIn), |old(inFifo)| + 1)
    {
      inFifo := inFifo + [w];
      peakIn := Max(peakIn, |inFifo|);
      Advance();
    }

    /** A read of DOUT pops the OUT FIFO. */
    method ReadDOUT() returns (w: Word)
      requires Valid() && outFifo != []
      modifies `outFifo
      ensures Valid()
      ensures [w] + outFifo == old(outFifo)
    {
      w := outFifo[0];
      outFifo := outFifo[1..];
    }

    /** A read of SR. */
    method ReadSR() returns (sr: StatusReg)
      requires Valid()
      modifies `inFifo, `outFifo, `iv, `schedule, `activity, `left, `ops, `polls, `peakOut
      ensures Valid() && Now() == Poll(Set(), old(Now()))
      ensures sr == StatusNow() && polls == old(polls) + 1
      ensures peakOut == Max(old(peakOut), |outFifo|)
    {
      hide Take, Give, Sound;
      PollCounts(Set(), Now());
      polls := polls + 1;
      if !activity.Idle? && left != 0 {
        left := left - 1;
      } else {
        Deliver();
        Advance();
      }
      peakOut := Max(peakOut, |outFifo|);
      sr := StatusNow();
    }

    // ---- The functions of stm32f4xx_cryp.c ----

    /** CRYP_Init: each field of CR is cleared by one write and set by another. No other register changes and nothing starts. */
    method Init(algo: Algo, dataType: DataType, keySize: KeySize, dir: Direction)
      requires Valid()
      modifies `cr, `activity, `left, `ops
      ensures Valid() && cr == old(cr).Configured(algo, dataType, keySize, dir) && Now() == old(Now())
    {
      hide Control.Bits, Algo.Bits, DataType.Bits, KeySize.Bits, DirectionBits, Or, AndNot, Sound;
      AlgoOnBits(cr, algo);
      WriteCR(AndNot(cr.Bits(), CR_ALGOMODE), cr.(algo := TDES_ECB));
      WriteCR(Or(cr.Bits(), algo.Bits()), cr.(algo := algo));
      DataTypeOnBits(cr, dataType);
      WriteCR(AndNot(cr.Bits(), CR_DATATYPE), cr.(dataType := Type32b));
      WriteCR(Or(cr.Bits(), dataType.Bits()), cr.(dataType := dataType));
      if algo.AES_ECB? || algo.AES_CBC? || algo.AES_CTR? || algo.AES_KEY? {
        KeySizeOnBits(cr, keySize);
        WriteCR(AndNot(cr.Bits(), CR_KEYSIZE), cr.(keySize := Key128b));
        WriteCR(Or(cr.Bits(), keySize.Bits()), cr.(keySize := keySize));
      }
      DirectionOnBits(cr, dir);
      WriteCR(AndNot(cr.Bits(), CR_ALGODIR), cr.(dir := Encrypt));
      WriteCR(Or(cr.Bits(), DirectionBits(dir)), cr.(dir := dir));
    }

    /** CRYP_KeyInit. Writing the key registers loses a prepared key. */
    method KeyInit(k: KeyRegs)
      requires Valid()
      modifies `key, `schedule
      ensures Valid() && key == k && schedule == Unprepared
    {
      key := k;
      schedule := Unprepared;
    }

    /** CRYP_IVInit. */
    method IVInit(v: IvRegs)
      requires Valid()
      modifies `iv
      ensures Valid() && iv == v
    {
      iv := v;
    }

    /** CRYP_FIFOFlush: the write of FFLUSH resets the pointers of both FIFOs. A block in the core is not affected. */
    method FIFOFlush()
      requires Valid()
      modifies `inFifo, `outFifo
      ensures Valid() && inFifo == [] && outFifo == []
    {
      inFifo, outFifo := [], [];
    }

    /** CRYP_Cmd. */
    method Cmd(enable: bool)
      requires Valid()
      modifies `cr, `activity, `left, `ops
      ensures Valid() && cr == old(cr).(enabled := enable)
      ensures Now() == if old(Starts(cr.(enabled := enable)))
                       then old(Now()).(activity := Preparing(cr.Id(), key), left := core.latency(old(ops)), ops := old(ops) + 1)
                       else old(Now())
    {
      hide Control.Bits, Or, AndNot, Sound;
      EnableOnBits(cr);
      if enable {
        WriteCR(Or(cr.Bits(), CR_CRYPEN), cr.(enabled := true));
      } else {
        WriteCR(AndNot(cr.Bits(), CR_CRYPEN), cr.(enabled := false));
      }
    }

    /** CRYP_GetFlagStatus(CRYP_FLAG_BUSY): a read of SR. */
    method GetBusy() returns (busy: bool)
      requires Valid()
      modifies `inFifo, `outFifo, `iv, `schedule, `activity, `left, `ops, `polls, `peakOut
      ensures Valid() && Now() == Poll(Set(), old(Now()))
      ensures busy == !activity.Idle? && polls == old(polls) + 1
      ensures peakOut == Max(old(peakOut), |outFifo|)
    {
      hide Poll, Sound, StatusReg.Bits, And;
      var sr := ReadSR();
      FlagBits(sr);
      busy := And(sr.Bits(), SR_BUSY) != 0;
    }

    /** One read of SR, masked and compared as CRYP_SaveContext does. */
    method LooksSettled(checkMask: bv32) returns (settled: bool)
      requires Valid() && checkMask == CheckMask(cr)
      modifies `inFifo, `outFifo, `iv, `schedule, `activity, `left, `ops, `polls, `peakOut
      ensures Valid() && Now() == Poll(Set(), old(Now())) && polls == old(polls) + 1
      ensures settled == Settled(Set(), Now())
    {
      hide Poll, Sound, CheckMask, SaveChecksOutput, StatusReg.Bits, And;
      var sr := ReadSR();
      CheckMaskMeans(cr, sr);
      settled := And(sr.Bits(), checkMask) == SR_IFEM;
    }

    /**
     The polling loop of CRYP_SaveContext and the check after it, from any state of the device. It answers yes iff all
     words waiting make whole blocks that will be taken, there is room for the results and the save does not look for
     them, and all is done within 65536 reads of SR.
     */
    method AwaitQuiet() returns (quiet: bool)
      requires Valid()
      modifies `inFifo, `outFifo, `iv, `schedule, `activity, `left, `ops, `polls, `peakOut
      ensures Valid() && polls <= old(polls) + SAVE_READS
      ensures quiet <==> Clears(Set(), old(Now())) && Time(Set(), old(Now())) <= 0x1_0000
      ensures quiet == Settled(Set(), Now()) && Now() == Polls(Set(), old(Now()), SAVE_READS)
      ensures quiet ==> AtRest(Set(), Now())
    {
      hide Poll, Sound, CheckMask, Settled, AtRest, Clears, Time;
      ghost var u, s := Set(), Now();
      var checkMask := CheckMask(cr);
      var settled := LooksSettled(checkMask);
      var timeout := 1;
      OnePoll(u, s);
      while timeout != 0xFFFF && !settled
        invariant Valid() && 1 <= timeout <= 0xFFFF && polls == old(polls) + timeout
        invariant Now() == Polls(u, s, timeout) && settled == Settled(u, Now())
      {
        settled := LooksSettled(checkMask);
        timeout := timeout + 1;
      }
      quiet := LooksSettled(checkMask);
      SettledStays(u, s, timeout);
      SettledIff(u, s, SAVE_READS);
    }

    /** CRYP_SaveContext, from any state of the device. On ERROR the repository keeps its content. */
    method SaveContext(repository: Context, keyStruct: KeyRegs) returns (ok: bool, context: Context)
      requires Valid()
      modifies this
      ensures Valid() && key == old(key) && polls <= old(polls) + SAVE_READS
      ensures ok <==> Clears(old(Set()), old(Now())) && Time(old(Set()), old(Now())) <= 0x1_0000
      ensures Now() == Polls(old(Set()), old(Now()), SAVE_READS)
      ensures ok ==> AtRest(old(Set()), Now()) && Settled(old(Set()), Now())
      ensures ok ==>
                && context == Context(old(cr).(enabled := false).Bits(), iv, keyStruct) && Saved(context)
                && cr == old(cr).(enabled := false) && !dmaIn && !dmaOut
      ensures !ok ==> context == repository && cr == old(cr) && !dmaIn && dmaOut == old(dmaOut)
    {
      hide Poll, Polls, Sound, Settled, AtRest, Clears, Time, Control.Bits, AndNot, And, Decode;
      context := repository;
      dmaIn := false;
      ok := AwaitQuiet();
      if ok {
        dmaOut := false;
        EnableOnBits(cr);
        WriteCR(AndNot(cr.Bits(), CR_CRYPEN), cr.(enabled := false));
        SavedOnBits(cr);
        DecodeBits(cr);
        context := Context(And(cr.Bits(), CR_KEYSIZE | CR_DATATYPE | CR_ALGOMODE | CR_ALGODIR), iv, keyStruct);
      }
    }

    /** CRYP_RestoreContext. The key is written back, not prepared; a key preparation that was saved starts anew. */
    method RestoreContext(context: Context)
      requires Valid() && Saved(context)
      modifies this
      ensures Valid() && cr == Decode(context.config).(enabled := true) && key == context.key
      ensures var s := old(Now()).(iv := context.iv, schedule := Unprepared);
              Now() == if cr.algo.AES_KEY? && s.activity.Idle?
                       then s.(activity := Preparing(cr.Id(), key), left := core.latency(s.ops), ops := s.ops + 1) else s
      ensures dmaIn == old(dmaIn) && dmaOut == old(dmaOut) && polls == old(polls)
    {
      hide Sound, Control.Bits, Or, Decode;
      WriteCR(context.config, Decode(context.config));
      KeyInit(context.key);
      IVInit(context.iv);
      EnableOnBits(cr);
      WriteCR(Or(cr.Bits(), CR_CRYPEN), cr.(enabled := true));
    }
  }

  lemma OnePoll(u: Setting, s: State)
    ensures Poll(u, s) == Polls(u, s, 1)
  {
    assert Polls(u, s, 0) == s;
  }

  /** If the loop ended early, more reads would have changed nothing. */
  lemma SettledStays(u: Setting, s: State, n: nat)
    requires Sound(s) && n < SAVE_READS && (Settled(u, Polls(u, s, n)) || n == SAVE_READS - 1)
    ensures Polls(u, s, n + 1) == Polls(u, s, SAVE_READS)
  {
    hide Poll, Polls, Sound, Settled;
    if n < SAVE_READS - 1 {
      SettledIff(u, s, n);
      RestStays(u, s, n, n + 1);
      RestStays(u, s, n, SAVE_READS);
    }
  }
}
