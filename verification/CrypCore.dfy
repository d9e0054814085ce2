/**
 The CRYP core and its FIFOs as seen through the status register: what one read of SR does to them, where any
 number of reads leads, and how many it takes to get there.
 */
module CrypCore {
  import opened Bytes
  import opened Modes
  import opened CrypControl

  /** Words in each FIFO. */
  const FIFO_DEPTH := 8

  /** The initialization vector registers IV0LR to IV1RR. */
  datatype IvRegs = IvRegs(iv0l: Word, iv0r: Word, iv1l: Word, iv1r: Word)

  /** The key schedule held by the core: installed by key preparation, lost when the key registers are written. */
  datatype Schedule = Unprepared | Prepared(id: CipherId, key: KeyRegs)

  /** What delivering a block does to the vector registers: nothing in ECB mode. */
  datatype Vectors = Untouched | Chained(iv: IvRegs)
  {
    function Over(v: IvRegs): IvRegs {
      if Untouched? then v else iv
    }
  }

  /** What the core is doing: a block is in it, or a decryption key is being prepared. */
  datatype Activity = Idle | Crunching(words: seq<Word>, next: Vectors) | Preparing(id: CipherId, key: KeyRegs)

  /** AES decryption in ECB and CBC mode is the only job that uses a prepared key. */
  predicate NeedsPreparation(id: CipherId, chain: Chain, dir: Direction) {
    IsAes(id) && !chain.CTR? && dir.Decrypt?
  }

  /** The job the registers describe. */
  function JobOf(cr: Control, key: KeyRegs, schedule: Schedule): (j: Job)
    ensures j.id == cr.Id() && j.chain == cr.Chain() && j.dir == cr.dir && j.key == key
  {
    var id, chain := cr.Id(), cr.Chain();
    Job(id, chain, cr.dir, key, NeedsPreparation(id, chain, cr.dir) ==> schedule == Prepared(id, key))
  }

  function WordsPerBlock(id: CipherId): nat {
    if IsAes(id) then 4 else 2
  }

  /** Data swapping between the FIFOs and the core; the 8-bit type reverses the bytes of each word. */
  function Swap(s: Core, t: DataType, w: Word): Word {
    match t
    case Type32b => w
    case Type8b => w.Rev()
    case _ => s.swap(t.Bits(), w)
  }

  /** The block that the core makes of words taken from the IN FIFO. */
  function BlockIn(s: Core, cr: Control, ws: seq<Word>): (x: Block)
    requires |ws| == WordsPerBlock(cr.Id())
    ensures |x| == BlockSize(cr.Id())
  {
    var half := Swap(s, cr.dataType, ws[0]).MsbFirst() + Swap(s, cr.dataType, ws[1]).MsbFirst();
    if |ws| == 2 then half else half + Swap(s, cr.dataType, ws[2]).MsbFirst() + Swap(s, cr.dataType, ws[3]).MsbFirst()
  }

  /** The words that the core puts into the OUT FIFO for a block. */
  function WordsOut(s: Core, cr: Control, y: Block): (ws: seq<Word>)
    requires |y| == BlockSize(cr.Id())
    ensures |ws| == WordsPerBlock(cr.Id())
  {
    var half := [Swap(s, cr.dataType, FromMsb(y[0..4])), Swap(s, cr.dataType, FromMsb(y[4..8]))];
    if |y| == 8 then half else half + [Swap(s, cr.dataType, FromMsb(y[8..12])), Swap(s, cr.dataType, FromMsb(y[12..16]))]
  }

  /** The chaining value in the IV registers: 64-bit ciphers use IV0 only. */
  function ChainOfIv(id: CipherId, iv: IvRegs): (v: Block)
    ensures |v| == BlockSize(id)
  {
    var half := iv.iv0l.MsbFirst() + iv.iv0r.MsbFirst();
    if IsAes(id) then half + iv.iv1l.MsbFirst() + iv.iv1r.MsbFirst() else half
  }

  function WithChain(id: CipherId, iv: IvRegs, v: Block): IvRegs
    requires |v| == BlockSize(id)
  {
    if IsAes(id) then IvRegs(FromMsb(v[0..4]), FromMsb(v[4..8]), FromMsb(v[8..12]), FromMsb(v[12..16]))
    else iv.(iv0l := FromMsb(v[0..4]), iv0r := FromMsb(v[4..8]))
  }

  lemma ChainRoundTrip(id: CipherId, iv: IvRegs, v: Block)
    requires |v| == BlockSize(id)
    ensures ChainOfIv(id, WithChain(id, iv, v)) == v
  {
  }

  /** The core takes a block in: the result it will deliver and the chaining value it will leave. */
  function Begin(s: Core, cr: Control, key: KeyRegs, schedule: Schedule, iv: IvRegs, ws: seq<Word>): (r: Activity)
    requires |ws| == WordsPerBlock(cr.Id())
    ensures r.Crunching? && |r.words| == WordsPerBlock(cr.Id())
  {
    var id := cr.Id();
    var (y, v) := Step(s, JobOf(cr, key, schedule), ChainOfIv(id, iv), BlockIn(s, cr, ws));
    Crunching(WordsOut(s, cr, y), if cr.Chain().ECB? then Untouched else Chained(WithChain(id, iv, v)))
  }

  // ---- The device between two accesses ----

  /** What stays while the processor works: the silicon, CR and the key registers. */
  datatype Setting = Setting(core: Core, cr: Control, key: KeyRegs)
  {
    /** The core takes blocks from the IN FIFO. */
    predicate Takes() {
      cr.enabled && !cr.algo.AES_KEY?
    }

    function Width(): nat {
      WordsPerBlock(cr.Id())
    }
  }

  /** What changes. left counts the status reads that will still see the current operation busy, ops the operations begun so far. */
  datatype State = State(inFifo: seq<Word>, outFifo: seq<Word>, iv: IvRegs, schedule: Schedule, activity: Activity,
                         left: nat, ops: nat)

  predicate Sound(s: State) {
    && |s.inFifo| <= FIFO_DEPTH && |s.outFifo| <= FIFO_DEPTH
    && (s.activity.Crunching? ==> 0 < |s.activity.words| <= 4)
  }

  /** An idle core takes the next whole block. */
  function Take(u: Setting, s: State): State {
    if s.activity.Idle? && u.Takes() && u.Width() <= |s.inFifo| then
      s.(activity := Begin(u.core, u.cr, u.key, s.schedule, s.iv, s.inFifo[..u.Width()]), inFifo := s.inFifo[u.Width()..],
         left := u.core.latency(s.ops), ops := s.ops + 1)
    else s
  }

  /** A finished operation delivers its result: a key schedule, or a block if the OUT FIFO has room for it. */
  function Give(s: State): State {
    match s.activity
    case Idle => s
    case Preparing(id, key) => s.(schedule := Prepared(id, key), activity := Idle)
    case Crunching(words, next) =>
      if |s.outFifo| + |words| <= FIFO_DEPTH then s.(outFifo := s.outFifo + words, iv := next.Over(s.iv), activity := Idle) else s
  }

  /** A read of SR. Time passes: the latency runs down, and once it is over the operation delivers and the next block is taken. */
  function Poll(u: Setting, s: State): State {
    if !s.activity.Idle? && s.left != 0 then s.(left := s.left - 1) else Take(u, Give(s))
  }

  function Polls(u: Setting, s: State, n: nat): State {
    if n == 0 then s else Poll(u, Polls(u, s, n - 1))
  }

  // ---- Where it leads ----

  /** The whole blocks among n waiting words that the core will take. */
  function WholeBlocks(u: Setting, n: nat): (b: nat)
    ensures u.Width() * b <= n && (u.Takes() ==> n < u.Width() * (b + 1)) && (!u.Takes() ==> b == 0)
  {
    if !u.Takes() then 0 else if u.Width() == 4 then n / 4 else n / 2
  }

  function InCore(a: Activity): nat {
    if a.Crunching? then |a.words| else 0
  }

  /** The words in the OUT FIFO once everything that can be processed has been. */
  function Due(u: Setting, s: State): nat {
    |s.outFifo| + InCore(s.activity) + u.Width() * WholeBlocks(u, |s.inFifo|)
  }

  /** The words in the IN FIFO that make no block. */
  function Remainder(u: Setting, s: State): nat {
    |s.inFifo| - u.Width() * WholeBlocks(u, |s.inFifo|)
  }

  /** The status reads that b operations take, beginning with number op. */
  function Work(latency: nat -> nat, op: nat, b: nat): nat
    decreases b
  {
    if b == 0 then 0 else latency(op) + 1 + Work(latency, op + 1, b - 1)
  }

  /** The status reads until nothing is left to do. */
  function Time(u: Setting, s: State): nat {
    var b := WholeBlocks(u, |s.inFifo|);
    (if !s.activity.Idle? then s.left + 1 else if b != 0 then 1 else 0) + Work(u.core.latency, s.ops, b)
  }

  /** Nothing is left to do. */
  predicate AtRest(u: Setting, s: State) {
    s.activity.Idle? && WholeBlocks(u, |s.inFifo|) == 0
  }

  /** The state of rest. */
  function Rested(u: Setting, s: State): State
    requires Sound(s) && Due(u, s) <= FIFO_DEPTH
    decreases WholeBlocks(u, |s.inFifo|), if s.activity.Idle? then 0 else 1
  {
    if AtRest(u, s) then s
    else
      PollCounts(u, s.(left := 0));
      Rested(u, Poll(u, s.(left := 0)))
  }

  /** One read: no word is lost or added, and the time left is one read less. */
  lemma PollCounts(u: Setting, s: State)
    requires Sound(s)
    ensures Sound(Poll(u, s)) && Due(u, Poll(u, s)) == Due(u, s) && Remainder(u, Poll(u, s)) == Remainder(u, s)
    ensures Due(u, s) <= FIFO_DEPTH ==> Time(u, Poll(u, s)) == if Time(u, s) == 0 then 0 else Time(u, s) - 1
    ensures s.left == 0 && !AtRest(u, s) && Due(u, s) <= FIFO_DEPTH ==>
              var p := Poll(u, s);
              WholeBlocks(u, |p.inFifo|) < WholeBlocks(u, |s.inFifo|) ||
              (WholeBlocks(u, |p.inFifo|) == WholeBlocks(u, |s.inFifo|) && p.activity.Idle? && !s.activity.Idle?)
  {
    hide Begin, Take, Give;
    GiveCounts(u, s);
    TakeCounts(u, Give(s));
  }

  lemma GiveCounts(u: Setting, s: State)
    requires Sound(s)
    ensures var g := Give(s);
            && Sound(g) && Due(u, g) == Due(u, s) && Remainder(u, g) == Remainder(u, s)
            && g.inFifo == s.inFifo && g.ops == s.ops && g.left == s.left
            && (Due(u, s) <= FIFO_DEPTH ==> g.activity.Idle?) && (s.activity.Idle? ==> g == s)
  {
  }

  lemma TakeCounts(u: Setting, s: State)
    requires Sound(s)
    ensures var t := Take(u, s);
            && Sound(t) && Due(u, t) == Due(u, s) && Remainder(u, t) == Remainder(u, s) && t.outFifo == s.outFifo
            && if s.activity.Idle? && WholeBlocks(u, |s.inFifo|) != 0 then
                 && t.activity.Crunching? && WholeBlocks(u, |t.inFifo|) == WholeBlocks(u, |s.inFifo|) - 1
                 && t.left == u.core.latency(s.ops) && t.ops == s.ops + 1
               else t == s
  {
    hide Begin;
  }

  /** Any number of reads. */
  lemma {:induction false} PollsCount(u: Setting, s: State, n: nat)
    requires Sound(s)
    ensures var t := Polls(u, s, n);
            && Sound(t) && Due(u, t) == Due(u, s) && Remainder(u, t) == Remainder(u, s)
            && (Due(u, s) <= FIFO_DEPTH ==> Time(u, t) == if Time(u, s) <= n then 0 else Time(u, s) - n)
  {
    hide Due, Time, Remainder, Poll, Sound;
    if n != 0 {
      PollsCount(u, s, n - 1);
      PollCounts(u, Polls(u, s, n - 1));
    }
  }

  lemma RestTime(u: Setting, s: State)
    requires Sound(s)
    ensures AtRest(u, s) <==> Time(u, s) == 0
    ensures AtRest(u, s) ==> Poll(u, s) == s && Due(u, s) == |s.outFifo| <= FIFO_DEPTH && Remainder(u, s) == |s.inFifo|
  {
  }

  lemma {:induction false} RestedPolls(u: Setting, s: State, n: nat)
    requires Sound(s) && Due(u, s) <= FIFO_DEPTH
    ensures Sound(Polls(u, s, n)) && Due(u, Polls(u, s, n)) <= FIFO_DEPTH
    ensures Rested(u, Polls(u, s, n)) == Rested(u, s)
  {
    hide Due, Rested, Poll, Sound;
    if n != 0 {
      RestedPolls(u, s, n - 1);
      PollsCount(u, s, n - 1);
      PollsCount(u, s, n);
      RestedPoll(u, Polls(u, s, n - 1));
    }
  }

  lemma RestedPoll(u: Setting, s: State)
    requires Sound(s) && Due(u, s) <= FIFO_DEPTH
    ensures Sound(Poll(u, s)) && Due(u, Poll(u, s)) <= FIFO_DEPTH
    ensures Rested(u, Poll(u, s)) == Rested(u, s)
  {
    hide Begin;
    PollCounts(u, s);
    RestTime(u, s);
    if AtRest(u, s) {
    } else if !s.activity.Idle? && s.left != 0 {
      assert Poll(u, s).(left := 0) == s.(left := 0);
    } else {
      assert Poll(u, s) == Poll(u, s.(left := 0));
    }
  }

  /**
   Reading SR n times ends at rest iff there is room for all results and n is at least the time it takes; it then is the
   state of rest.
   */
  lemma RestIff(u: Setting, s: State, n: nat)
    requires Sound(s)
    ensures AtRest(u, Polls(u, s, n)) <==> Due(u, s) <= FIFO_DEPTH && Time(u, s) <= n
    ensures AtRest(u, Polls(u, s, n)) ==> Polls(u, s, n) == Rested(u, s)
  {
    hide Due, Time, Remainder, Poll, Polls, Sound, AtRest;
    PollsCount(u, s, n);
    RestTime(u, Polls(u, s, n));
    if Due(u, s) <= FIFO_DEPTH {
      RestedPolls(u, s, n);
    }
  }

  /** Once at rest, reading SR changes nothing. */
  lemma {:induction false} RestStays(u: Setting, s: State, n: nat, m: nat)
    requires Sound(s) && n <= m && AtRest(u, Polls(u, s, n))
    ensures Polls(u, s, m) == Polls(u, s, n)
    decreases m
  {
    hide AtRest, Poll, Sound;
    if n < m {
      RestStays(u, s, n, m - 1);
      PollsCount(u, s, n);
      RestTime(u, Polls(u, s, n));
    }
  }

  /** What a core at work leaves: its own result first, then those of the blocks that wait. */
  lemma RestedOne(u: Setting, s: State)
    requires Sound(s) && Due(u, s) <= FIFO_DEPTH && WholeBlocks(u, |s.inFifo|) == 0
    ensures Rested(u, s) == if s.activity.Idle? then s else Give(s.(left := 0))
  {
    hide Begin;
  }

  // ---- What a wait that is given up leaves ----

  lemma {:induction false} PollsSplit(u: Setting, s: State, n: nat, m: nat)
    ensures Polls(u, s, n + m) == Polls(u, Polls(u, s, n), m)
  {
    hide Poll;
    if m != 0 {
      PollsSplit(u, s, n, m - 1);
      assert n + m - 1 == n + (m - 1);
    }
  }

  /** While the latency lasts, reads only run it down. */
  lemma {:induction false} PollsWait(u: Setting, s: State, n: nat)
    requires !s.activity.Idle? && n <= s.left
    ensures Polls(u, s, n) == s.(left := s.left - n)
  {
    hide Take, Give;
    if n != 0 {
      PollsWait(u, s, n - 1);
    }
  }

  /** A disabled processor, or one in the key mode, takes nothing from the IN FIFO. */
  lemma {:induction false} NothingTaken(u: Setting, s: State, n: nat)
    requires !u.cr.enabled || u.cr.algo.AES_KEY?
    ensures Polls(u, s, n).inFifo == s.inFifo
  {
    if n != 0 {
      NothingTaken(u, s, n - 1);
    }
  }

  // ---- What CRYP_SaveContext waits for ----

  /** No block waits or is processed and, where the save looks at it, the OUT FIFO is empty. */
  predicate Settled(u: Setting, s: State) {
    s.inFifo == [] && s.activity.Idle? && (SaveChecksOutput(u.cr) ==> s.outFifo == [])
  }

  /** All the words in the IN FIFO will be taken, there is room for all results, and none is due where the save looks at the OUT FIFO. */
  predicate Clears(u: Setting, s: State) {
    Remainder(u, s) == 0 && Due(u, s) <= if SaveChecksOutput(u.cr) then 0 else FIFO_DEPTH
  }

  /** Exactly when n reads of SR get there. */
  lemma SettledIff(u: Setting, s: State, n: nat)
    requires Sound(s)
    ensures Settled(u, Polls(u, s, n)) <==> Clears(u, s) && Time(u, s) <= n
    ensures Settled(u, Polls(u, s, n)) ==> AtRest(u, Polls(u, s, n))
  {
    var t := Polls(u, s, n);
    PollsCount(u, s, n);
    RestTime(u, t);
    RestIff(u, s, n);
    hide Time, Poll, Polls, Begin;
  }
}
