/**
 The high level drivers: CRYP_AES_ECB/CBC/CTR, CRYP_DES_ECB/CBC and CRYP_TDES_ECB/CBC.
 Memory is one byte array; key, vectors, input and output are addresses in it and may overlap.
 */
module CrypDrivers {
  import opened Bytes
  import opened Modes
  import opened Streaming
  import opened CrypControl
  import opened CrypCore
  import opened CrypDevice

  /** AESBUSY_TIMEOUT, DESBUSY_TIMEOUT and TDESBUSY_TIMEOUT. */
  const BUSY_TIMEOUT := 0x1_0000
  const TWO32 := 0x1_0000_0000

  const MODE_ENCRYPT: bv8 := 1
  const MODE_DECRYPT: bv8 := 0

  // ---- What a call is meant to do ----

  /** Iterations of for (i = 0; i < length; i += blocksize). */
  function BlockCount(c: CipherId, length: nat): (n: nat)
    ensures Span(c, n) >= length && forall k: nat :: Span(c, k) >= length ==> n <= k
  {
    if IsAes(c) then (length + 15) / 16 else (length + 7) / 8
  }

  /** The 32-bit block index reaches the end of the message iff the length leaves room for one more step. */
  lemma LoopEnds(c: CipherId, length: nat)
    requires length < 0x1_0000_0000
    ensures (exists k: nat :: Span(c, k) % 0x1_0000_0000 >= length) <==> length <= 0x1_0000_0000 - BlockSize(c)
  {
    var n := BlockCount(c, length);
    if length <= TWO32 - BlockSize(c) {
      assert Span(c, n) % TWO32 >= length;
    } else {
      forall k: nat ensures Span(c, k) % TWO32 <= TWO32 - BlockSize(c) {
        Multiples(if IsAes(c) then 16 else 8, k);
      }
    }
  }

  lemma Multiples(b: nat, k: nat)
    requires b == 8 || b == 16
    ensures (b * k) % TWO32 <= TWO32 - b
  {
    assert ((b * k) % TWO32) % b == 0;
  }

  /** Input and output lie in memory and the length leaves the 32-bit index room. */
  predicate Fits(c: CipherId, size: nat, input: nat, length: nat, output: nat) {
    && size < TWO32 && length <= TWO32 - BlockSize(c)
    && input + Span(c, BlockCount(c, length)) <= size && output + Span(c, BlockCount(c, length)) <= size
  }

  /** The status reads that see BUSY during the wait for operation number t: its own, and before the first what was still going on. */
  function WaitAt(latency: nat -> nat, base: nat, extra: nat, t: nat): nat {
    latency(t) + if t == base then extra else 0
  }

  /** How many of the n waits from operation number base on end within the polling limit, up to the first that does not. */
  function Served(latency: nat -> nat, base: nat, extra: nat, n: nat): (k: nat)
    ensures k <= n
    ensures forall t :: base <= t < base + k ==> WaitAt(latency, base, extra, t) < BUSY_TIMEOUT
    ensures k < n ==> WaitAt(latency, base, extra, base + k) >= BUSY_TIMEOUT
  {
    if n == 0 then 0 else
      var k := Served(latency, base, extra, n - 1);
      if k == n - 1 && WaitAt(latency, base, extra, base + k) < BUSY_TIMEOUT then n else k
  }

  /**
   The block loop ran on the message, with the bytes q still to come from before: it stopped at the first block whose wait
   timed out, and reports ERROR iff there was one.
   */
  ghost predicate Performed(core: Core, job: Job, iv: Block, q: seq<byte>, before: seq<byte>, after: seq<byte>,
                            input: nat, output: nat, n: nat, base: nat, extra: nat, ok: bool)
    requires |iv| == BlockSize(job.id)
    requires input + Span(job.id, n) <= |before| && output + Span(job.id, n) <= |before|
  {
    var k := Served(core.latency, base, extra, n);
    ok == (k == n) && after == LagStream(core, job, iv, q, before, input, output, k).0
  }

  /** The processor as a driver finds it: after reset or a success idle and disabled, after a time-out perhaps still at work. */
  datatype Entry = Entry(enabled: bool, activity: Activity, left: nat, ops: nat)

  function EntryOf(dev: Cryp): Entry
    reads dev
  {
    Entry(dev.cr.enabled, dev.activity, dev.left, dev.ops)
  }

  /** A key preparation that the driver enables begins. */
  predicate Begins(e: Entry) {
    !e.enabled && e.activity.Idle?
  }

  /** The status reads that see BUSY in the wait for key preparation. */
  function PreparationTime(core: Core, e: Entry): nat {
    if Begins(e) then core.latency(e.ops) else if e.activity.Idle? then 0 else e.left
  }

  /** The key schedule after that wait: an operation that was going on keeps the new preparation from beginning. */
  function ScheduleAfter(e: Entry, id: CipherId, key: KeyRegs): Schedule {
    if Begins(e) then Prepared(id, key)
    else if e.activity.Preparing? then Prepared(e.activity.id, e.activity.key) else Unprepared
  }

  /** The status reads that an operation going on adds to the first wait. */
  function Extra(activity: Activity, left: nat): nat {
    if activity.Idle? then 0 else left + 1
  }

  /** Words as bytes in memory order. */
  function BytesOf(ws: seq<Word>): seq<byte> {
    if ws == [] then [] else BytesOf(ws[..|ws| - 1]) + ws[|ws| - 1].Rev().MsbFirst()
  }

  /** The bytes that a block still in the core will deliver. */
  function Backlog(activity: Activity): seq<byte> {
    if activity.Crunching? then BytesOf(activity.words) else []
  }

  /** The chaining value the first block meets: a block still in the core leaves its own, except in ECB mode. */
  function StartChain(id: CipherId, activity: Activity, v: Block): Block {
    if activity.Crunching? && activity.next.Chained? then ChainOfIv(id, activity.next.iv) else v
  }

  predicate Needs(j: Job) {
    NeedsPreparation(j.id, j.chain, j.dir)
  }

  // What the block loop meets after a driver has set up job j, given how it found the processor.

  function ActualJob(j: Job, e: Entry): (r: Job)
    ensures r.id == j.id
  {
    if Needs(j) then j.(ready := ScheduleAfter(e, j.id, j.key) == Prepared(j.id, j.key)) else j
  }

  function ActualChain(j: Job, e: Entry, iv: Block): (v: Block)
    requires |iv| == BlockSize(j.id)
    ensures |v| == BlockSize(j.id)
  {
    if Needs(j) then iv else StartChain(j.id, e.activity, iv)
  }

  function ActualBacklog(j: Job, e: Entry): seq<byte> {
    if Needs(j) then [] else Backlog(e.activity)
  }

  function LoopEntry(j: Job, e: Entry): Entry {
    Entry(true, if Needs(j) then Idle else e.activity, if Needs(j) then 0 else e.left,
          if Needs(j) && Begins(e) then e.ops + 1 else e.ops)
  }

  /** The wait for key preparation, if there is one, ends in time. */
  predicate Prepares(core: Core, j: Job, e: Entry) {
    Needs(j) ==> PreparationTime(core, e) < BUSY_TIMEOUT
  }

  /** A driver call: key preparation first where the job needs it, then the block loop. */
  ghost predicate Driven(core: Core, job: Job, iv: Block, before: seq<byte>, after: seq<byte>,
                         input: nat, output: nat, n: nat, e: Entry, ok: bool)
    requires |iv| == BlockSize(job.id)
    requires input + Span(job.id, n) <= |before| && output + Span(job.id, n) <= |before|
  {
    var l := LoopEntry(job, e);
    if Prepares(core, job, e) then
      Performed(core, ActualJob(job, e), ActualChain(job, e, iv), ActualBacklog(job, e),
                before, after, input, output, n, l.ops, Extra(l.activity, l.left), ok)
    else !ok && after == before
  }

  // ---- What a call leaves in the core ----

  /** The core holds the result of block x, begun with chaining value v. */
  ghost predicate Holding(core: Core, job: Job, v: Block, x: Block, activity: Activity)
    requires |v| == |x| == BlockSize(job.id)
  {
    var (y, v') := Step(core, job, v, x);
    activity.Crunching? && Backlog(activity) == y && StartChain(job.id, activity, v) == v'
  }

  /**
   The wait for block x was given up: the processor, found as e, is left as a. Unless even the operation before is still
   going on, it holds the block, and goes on with it.
   */
  ghost predicate GivenUp(core: Core, job: Job, v: Block, x: Block, e: Entry, a: Entry)
    requires |v| == |x| == BlockSize(job.id)
  {
    var extra := Extra(e.activity, e.left);
    if extra > BUSY_TIMEOUT then
      a.activity == e.activity && a.left == e.left - BUSY_TIMEOUT && a.ops == e.ops
    else
      && Holding(core, job, v, x, a.activity)
      && a.left == core.latency(e.ops) + extra - BUSY_TIMEOUT && a.ops == e.ops + 1
  }

  /** Block k of the loop entered as e was given up. */
  ghost predicate LeftAt(core: Core, job: Job, iv: Block, q: seq<byte>, before: seq<byte>,
                         input: nat, output: nat, k: nat, e: Entry, a: Entry)
    requires |iv| == BlockSize(job.id)
    requires input + Span(job.id, k + 1) <= |before| && output + Span(job.id, k + 1) <= |before|
  {
    var (m, v, _) := LagStream(core, job, iv, q, before, input, output, k);
    GivenUp(core, job, v, Slice(m, input, job.id, k), if k == 0 then e else Entry(true, Idle, 0, e.ops + k), a)
  }

  /** The block loop, entered as e, leaves the processor as a: idle after SUCCESS, holding the block given up after ERROR. */
  ghost predicate Remains(core: Core, job: Job, iv: Block, q: seq<byte>, before: seq<byte>,
                          input: nat, output: nat, n: nat, e: Entry, a: Entry)
    requires |iv| == BlockSize(job.id)
    requires input + Span(job.id, n) <= |before| && output + Span(job.id, n) <= |before|
  {
    var k := Served(core.latency, e.ops, Extra(e.activity, e.left), n);
    if k < n then LeftAt(core, job, iv, q, before, input, output, k, e, a)
    else
      a.ops == e.ops + n && if n == 0 then SameWork(e, a) else a.activity.Idle?
  }

  predicate SameWork(e: Entry, a: Entry) {
    a.activity == e.activity && (a.activity.Idle? || a.left == e.left)
  }

  /** A driver call that found the processor as e leaves it as a: disabled, and still at work if a wait timed out. */
  ghost predicate Leaves(core: Core, job: Job, iv: Block, before: seq<byte>, input: nat, output: nat, n: nat, e: Entry, a: Entry)
    requires |iv| == BlockSize(job.id)
    requires input + Span(job.id, n) <= |before| && output + Span(job.id, n) <= |before|
  {
    && !a.enabled
    && if Prepares(core, job, e) then
         Remains(core, ActualJob(job, e), ActualChain(job, e, iv), ActualBacklog(job, e), before, input, output, n, LoopEntry(job, e), a)
       else PreparationGivenUp(core, job, e, a)
  }

  /** The wait for key preparation was given up. */
  predicate PreparationGivenUp(core: Core, job: Job, e: Entry, a: Entry) {
    && a.activity == (if Begins(e) then Preparing(job.id, job.key) else e.activity)
    && a.left == PreparationTime(core, e) - BUSY_TIMEOUT && a.ops == if Begins(e) then e.ops + 1 else e.ops
  }

  // ---- Polling and the FIFOs ----

  /** The do-while loop polling BUSY; the counter stops at 65536. */
  method WaitWhileBusy(dev: Cryp) returns (busy: bool)
    requires dev.Valid()
    modifies dev`inFifo, dev`outFifo, dev`iv, dev`schedule, dev`activity, dev`left, dev`ops, dev`polls, dev`peakOut
    ensures dev.Valid() && dev.polls <= old(dev.polls) + BUSY_TIMEOUT
    ensures !busy <==> Due(dev.Set(), old(dev.Now())) <= 8 && Time(dev.Set(), old(dev.Now())) <= 0x1_0000
    ensures dev.Now() == Polls(dev.Set(), old(dev.Now()), BUSY_TIMEOUT)
    ensures !busy ==> Sound(old(dev.Now())) && dev.Now() == Rested(dev.Set(), old(dev.Now()))
    ensures dev.peakOut <= Max(old(dev.peakOut), Due(dev.Set(), old(dev.Now())))
  {
    hide Poll, Polls, Due, Time, Rested, Sound, AtRest;
    ghost var u, s := dev.Set(), dev.Now();
    OnePoll(u, s);
    AfterPoll(u, s, 1);
    busy := dev.GetBusy();
    var counter := 1;
    while counter != BUSY_TIMEOUT && busy
      invariant dev.Valid() && 1 <= counter <= BUSY_TIMEOUT && dev.polls == old(dev.polls) + counter
      invariant dev.Now() == Polls(u, s, counter) && busy == !AtRest(u, dev.Now())
      invariant dev.peakOut <= Max(old(dev.peakOut), Due(u, s))
    {
      NextPoll(u, s, counter);
      AfterPoll(u, s, counter + 1);
      busy := dev.GetBusy();
      counter := counter + 1;
    }
    WaitEnds(u, s, counter);
  }

  /** If the wait ended early, more reads would have changed nothing. */
  lemma WaitEnds(u: Setting, s: State, n: nat)
    requires Sound(s) && n <= BUSY_TIMEOUT && (AtRest(u, Polls(u, s, n)) || n == BUSY_TIMEOUT)
    ensures Polls(u, s, n) == Polls(u, s, BUSY_TIMEOUT)
    ensures AtRest(u, Polls(u, s, n)) <==> Due(u, s) <= FIFO_DEPTH && Time(u, s) <= BUSY_TIMEOUT
    ensures AtRest(u, Polls(u, s, n)) ==> Polls(u, s, n) == Rested(u, s)
  {
    hide Poll, Polls, Due, Time, Rested, Sound, AtRest;
    if AtRest(u, Polls(u, s, n)) {
      RestStays(u, s, n, BUSY_TIMEOUT);
    }
    RestIff(u, s, BUSY_TIMEOUT);
  }

  lemma NextPoll(u: Setting, s: State, n: nat)
    ensures Poll(u, Polls(u, s, n)) == Polls(u, s, n + 1)
  {
  }

  /** After a read the core is idle only if no block waits. */
  lemma AfterPoll(u: Setting, s: State, n: nat)
    requires Sound(s) && 0 < n
    ensures var t := Polls(u, s, n); (t.activity.Idle? <==> AtRest(u, t)) && |t.outFifo| <= Due(u, s)
  {
    hide Due, Begin, Time, Remainder, Sound;
    var r := Polls(u, s, n - 1);
    PollsCount(u, s, n - 1);
    PollsCount(u, s, n);
    DueBounds(u, Polls(u, s, n));
    PollLeaves(u, r);
  }

  lemma DueBounds(u: Setting, s: State)
    ensures |s.outFifo| <= Due(u, s)
  {
  }

  lemma PollLeaves(u: Setting, s: State)
    requires Sound(s)
    ensures Poll(u, s).activity.Idle? ==> AtRest(u, Poll(u, s))
  {
    hide Begin;
    PollCounts(u, s);
  }

  // What a state amounts to once the operation going on is over.

  function SoonSchedule(s: State): Schedule {
    if s.activity.Preparing? then Prepared(s.activity.id, s.activity.key) else s.schedule
  }

  function SoonIv(s: State): IvRegs {
    if s.activity.Crunching? then s.activity.next.Over(s.iv) else s.iv
  }

  /** The bytes not read yet. */
  function Unread(s: State): seq<byte> {
    BytesOf(s.outFifo) + Backlog(s.activity)
  }

  function SoonJob(dev: Cryp): (j: Job)
    reads dev
    ensures j.id == dev.cr.Id()
  {
    JobOf(dev.cr, dev.key, SoonSchedule(dev.Now()))
  }

  function SoonChain(dev: Cryp): (v: Block)
    reads dev
    ensures |v| == BlockSize(dev.cr.Id())
  {
    ChainOfIv(dev.cr.Id(), SoonIv(dev.Now()))
  }

  /** The head of the block loop: enabled in a data mode with byte swapping, the IN FIFO empty, at most one block not read yet. */
  ghost predicate AtHead(dev: Cryp)
    reads dev
  {
    && dev.Valid() && dev.cr.enabled && !dev.cr.algo.AES_KEY? && dev.cr.dataType.Type8b?
    && dev.inFifo == [] && |dev.outFifo| + InCore(dev.activity) <= 4
  }

  /** Nothing is left over. */
  predicate Fresh(dev: Cryp)
    reads dev
  {
    dev.activity.Idle? && dev.outFifo == []
  }

  /** The words of the block at address a, as loaded. */
  function LoadBlock(mem: seq<byte>, a: nat, c: CipherId): (ws: seq<Word>)
    requires a + BlockSize(c) <= |mem|
    ensures |ws| == WordsPerBlock(c)
  {
    if IsAes(c) then [Load(mem, a), Load(mem, a + 4), Load(mem, a + 8), Load(mem, a + 12)]
    else [Load(mem, a), Load(mem, a + 4)]
  }

  /** A loaded word reaches the core as the memory bytes in order. */
  lemma SwapLoad(s: Core, mem: seq<byte>, a: nat)
    requires a + 4 <= |mem|
    ensures Swap(s, Type8b, Load(mem, a)).MsbFirst() == mem[a..a + 4]
  {
    LoadRev(mem, a);
  }

  lemma Join(mem: seq<byte>, a: nat, b: nat, c: nat)
    requires a <= b <= c <= |mem|
    ensures mem[a..b] + mem[b..c] == mem[a..c]
  {
  }

  /** So does a whole block. */
  lemma BlockInLoads(s: Core, cr: Control, mem: seq<byte>, a: nat)
    requires cr.dataType.Type8b? && a + BlockSize(cr.Id()) <= |mem|
    ensures BlockIn(s, cr, LoadBlock(mem, a, cr.Id())) == mem[a..a + BlockSize(cr.Id())]
  {
    hide Load, Swap;
    SwapLoad(s, mem, a);
    SwapLoad(s, mem, a + 4);
    Join(mem, a, a + 4, a + 8);
    if IsAes(cr.Id()) {
      SwapLoad(s, mem, a + 8);
      SwapLoad(s, mem, a + 12);
      Join(mem, a, a + 8, a + 12);
      Join(mem, a, a + 12, a + 16);
    }
  }

  /** Writes one input block into the IN FIFO, word by word; an idle core takes it with the last word. */
  method PushBlock(dev: Cryp, mem: array<byte>, inputaddr: nat)
    requires AtHead(dev) && inputaddr + BlockSize(dev.cr.Id()) <= mem.Length
    modifies dev`inFifo, dev`activity, dev`left, dev`ops, dev`peakIn
    ensures dev.Valid()
    ensures dev.Now() == Take(dev.Set(), old(dev.Now()).(inFifo := LoadBlock(mem[..], inputaddr, dev.cr.Id())))
    ensures dev.peakIn <= Max(old(dev.peakIn), WordsPerBlock(dev.cr.Id()))
  {
    hide Begin, Load;
    ghost var m := mem[..];
    dev.WriteDR(Load(mem[..], inputaddr));
    assert dev.inFifo == [Load(m, inputaddr)];
    assert [Load(m, inputaddr)] + [Load(m, inputaddr + 4)] == [Load(m, inputaddr), Load(m, inputaddr + 4)];
    dev.WriteDR(Load(mem[..], inputaddr + 4));
    if IsAes(dev.cr.Id()) {
      assert dev.inFifo == [Load(m, inputaddr), Load(m, inputaddr + 4)];
      dev.WriteDR(Load(mem[..], inputaddr + 8));
      assert dev.inFifo == [Load(m, inputaddr), Load(m, inputaddr + 4), Load(m, inputaddr + 8)];
      assert dev.inFifo + [Load(m, inputaddr + 12)] == LoadBlock(m, inputaddr, dev.cr.Id());
      dev.WriteDR(Load(mem[..], inputaddr + 12));
    }
  }

  /** The words of a block still in the core. */
  function InHand(activity: Activity): seq<Word> {
    if activity.Crunching? then activity.words else []
  }

  /** What the wait for a block just written leaves when it ends in time: the block's result is behind what was left over. */
  function AfterBlock(u: Setting, s: State, ws: seq<Word>): State
    requires |ws| == u.Width()
  {
    var b := Begin(u.core, u.cr, u.key, SoonSchedule(s), SoonIv(s), ws);
    State([], s.outFifo + InHand(s.activity) + b.words, b.next.Over(SoonIv(s)), SoonSchedule(s), Idle, 0, s.ops + 1)
  }

  /** What it leaves when it is given up. */
  function Stuck(u: Setting, s: State, ws: seq<Word>): State
    requires |ws| == u.Width() && u.core.latency(s.ops) + Extra(s.activity, s.left) >= BUSY_TIMEOUT
  {
    if Extra(s.activity, s.left) > BUSY_TIMEOUT then s.(inFifo := ws, left := s.left - BUSY_TIMEOUT)
    else State([], s.outFifo + InHand(s.activity), SoonIv(s), SoonSchedule(s),
               Begin(u.core, u.cr, u.key, SoonSchedule(s), SoonIv(s), ws),
               u.core.latency(s.ops) + Extra(s.activity, s.left) - BUSY_TIMEOUT, s.ops + 1)
  }

  /** A loop head as the core sees it: nothing waits, and there is room for two blocks. */
  predicate Head(u: Setting, s: State) {
    Sound(s) && u.Takes() && s.inFifo == [] && |s.outFifo| + InCore(s.activity) <= 4
  }

  /** The wait for a block just written: how long it takes and what it leaves. */
  lemma BlockWait(u: Setting, s: State, ws: seq<Word>)
    requires Head(u, s) && |ws| == u.Width()
    ensures var t := Take(u, s.(inFifo := ws));
            && Sound(t) && Due(u, t) == |s.outFifo| + InCore(s.activity) + u.Width() <= FIFO_DEPTH
            && Time(u, t) == Extra(s.activity, s.left) + u.core.latency(s.ops) + 1
            && Rested(u, t) == AfterBlock(u, s, ws)
  {
    hide Begin, Rested, Sound, Due;
    var t := Take(u, s.(inFifo := ws));
    if s.activity.Idle? {
      TakenAtOnce(u, s, ws);
    } else {
      TakenLater(u, s, ws);
    }
  }

  lemma TakenAtOnce(u: Setting, s: State, ws: seq<Word>)
    requires Head(u, s) && |ws| == u.Width() && s.activity.Idle?
    ensures var t := Take(u, s.(inFifo := ws));
            && t == s.(inFifo := [], activity := Begin(u.core, u.cr, u.key, s.schedule, s.iv, ws),
                       left := u.core.latency(s.ops), ops := s.ops + 1)
            && Sound(t) && Due(u, t) == |s.outFifo| + InCore(s.activity) + u.Width() <= FIFO_DEPTH
            && Time(u, t) == u.core.latency(s.ops) + 1 && Rested(u, t) == AfterBlock(u, s, ws)
  {
    hide Begin, Rested;
    var t := Take(u, s.(inFifo := ws));
    assert ws[..u.Width()] == ws && ws[u.Width()..] == [];
    TakeCounts(u, s.(inFifo := ws));
    RestedOne(u, t);
    assert s.outFifo + [] == s.outFifo;
  }

  /** An operation going on: it delivers first, and the block is taken with the same read. */
  lemma TakenLater(u: Setting, s: State, ws: seq<Word>)
    requires Head(u, s) && |ws| == u.Width() && !s.activity.Idle?
    ensures var t := s.(inFifo := ws);
            && Take(u, t) == t && Sound(t) && Due(u, t) == |s.outFifo| + InCore(s.activity) + u.Width() <= FIFO_DEPTH
            && Time(u, t) == s.left + 1 + u.core.latency(s.ops) + 1 && Rested(u, t) == AfterBlock(u, s, ws)
    ensures Poll(u, s.(inFifo := ws, left := 0)) ==
            State([], s.outFifo + InHand(s.activity), SoonIv(s), SoonSchedule(s),
                  Begin(u.core, u.cr, u.key, SoonSchedule(s), SoonIv(s), ws), u.core.latency(s.ops), s.ops + 1)
  {
    hide Begin;
    var t := s.(inFifo := ws);
    assert ws[..u.Width()] == ws && ws[u.Width()..] == [];
    TakeCounts(u, t);
    var g := Give(t.(left := 0));
    var p := Take(u, g);
    assert g == State(ws, s.outFifo + InHand(s.activity), SoonIv(s), SoonSchedule(s), Idle, 0, s.ops);
    TakeCounts(u, g);
    assert p == g.(inFifo := [], activity := Begin(u.core, u.cr, u.key, SoonSchedule(s), SoonIv(s), ws),
                   left := u.core.latency(s.ops), ops := s.ops + 1);
    assert WholeBlocks(u, |ws|) == 1 && Work(u.core.latency, s.ops + 1, 0) == 0;
    assert Work(u.core.latency, s.ops, 1) == u.core.latency(s.ops) + 1;
    assert Rested(u, t) == Rested(u, p);
    RestedOne(u, p);
  }

  /** A wait that is given up leaves the block in the core, or in front of it. */
  lemma BlockTimeout(u: Setting, s: State, ws: seq<Word>)
    requires Head(u, s) && |ws| == u.Width() && u.core.latency(s.ops) + Extra(s.activity, s.left) >= BUSY_TIMEOUT
    ensures Polls(u, Take(u, s.(inFifo := ws)), BUSY_TIMEOUT) == Stuck(u, s, ws)
  {
    hide Begin, Rested, Poll, Polls, Due, Time, Take, Sound;
    var t := Take(u, s.(inFifo := ws));
    if s.activity.Idle? {
      TakenAtOnce(u, s, ws);
      PollsWait(u, t, BUSY_TIMEOUT);
      assert s.outFifo + [] == s.outFifo;
    } else {
      TakenLater(u, s, ws);
      if s.left >= BUSY_TIMEOUT {
        PollsWait(u, t, BUSY_TIMEOUT);
      } else {
        PollsWait(u, t, s.left);
        NextPoll(u, t, s.left);
        PollsSplit(u, t, s.left + 1, BUSY_TIMEOUT - s.left - 1);
        PollsWait(u, Polls(u, t, s.left + 1), BUSY_TIMEOUT - s.left - 1);
      }
    }
  }

  lemma BytesJoin(a: seq<Word>, b: seq<Word>)
    ensures BytesOf(a + b) == BytesOf(a) + BytesOf(b)
  {
    if b == [] {
      assert a + b == a;
    } else {
      assert (a + b)[..|a + b| - 1] == a + b[..|b| - 1];
      BytesJoin(a, b[..|b| - 1]);
    }
  }

  lemma BytesLength(ws: seq<Word>)
    ensures |BytesOf(ws)| == 4 * |ws|
  {
  }

  lemma BytesOne(w: Word)
    ensures BytesOf([w]) == w.Rev().MsbFirst()
  {
    assert BytesOf([w][..0]) == [];
  }

  lemma BytesTwo(a: Word, b: Word)
    ensures BytesOf([a, b]) == a.Rev().MsbFirst() + b.Rev().MsbFirst()
  {
    hide Word.Rev, Word.MsbFirst;
    assert [a, b][..1] == [a];
    BytesOne(a);
  }

  lemma BytesFour(a: Word, b: Word, c: Word, d: Word)
    ensures BytesOf([a, b, c, d]) ==
            a.Rev().MsbFirst() + b.Rev().MsbFirst() + c.Rev().MsbFirst() + d.Rev().MsbFirst()
  {
    hide Word.Rev, Word.MsbFirst;
    assert [a, b, c, d][..3] == [a, b, c] && [a, b, c][..2] == [a, b];
    BytesTwo(a, b);
  }

  lemma SwapStore(s: Core, b: seq<byte>)
    requires |b| == 4
    ensures Swap(s, Type8b, FromMsb(b)).Rev().MsbFirst() == b
  {
  }

  /** The words the core delivers hold the bytes of the block in order, in memory order. */
  lemma WordsOutBytes(s: Core, cr: Control, y: Block)
    requires cr.dataType.Type8b? && |y| == BlockSize(cr.Id())
    ensures BytesOf(WordsOut(s, cr, y)) == y
  {
    var ws := WordsOut(s, cr, y);
    SwapStore(s, y[0..4]);
    SwapStore(s, y[4..8]);
    hide Swap, FromMsb, Word.Rev, Word.MsbFirst, BytesOf;
    Join(y, 0, 4, 8);
    if |ws| == 4 {
      SwapStore(s, y[8..12]);
      SwapStore(s, y[12..16]);
      BytesFour(ws[0], ws[1], ws[2], ws[3]);
      assert ws == [ws[0], ws[1], ws[2], ws[3]];
      Join(y, 0, 8, 12);
      Join(y, 0, 12, 16);
      assert y[0..16] == y;
    } else {
      BytesTwo(ws[0], ws[1]);
      assert ws == [ws[0], ws[1]] && y[0..8] == y;
    }
  }

  /** Pops one word and stores it little-endian. */
  method PopWord(dev: Cryp, mem: array<byte>, outputaddr: nat)
    requires dev.Valid() && dev.outFifo != [] && outputaddr + 4 <= mem.Length
    modifies dev`outFifo, mem
    ensures dev.Valid() && dev.outFifo == old(dev.outFifo)[1..]
    ensures mem[..] == Store(old(mem[..]), outputaddr, old(dev.outFifo)[0].Rev().MsbFirst())
  {
    var w := dev.ReadDOUT();
    mem[outputaddr], mem[outputaddr + 1], mem[outputaddr + 2], mem[outputaddr + 3] := w.b0, w.b1, w.b2, w.b3;
  }

  lemma StoreTwice(m: seq<byte>, a: nat, y: Block, z: Block)
    requires a + |y| + |z| <= |m|
    ensures Store(Store(m, a, y), a + |y|, z) == Store(m, a, y + z)
  {
  }

  method PopTwo(dev: Cryp, mem: array<byte>, outputaddr: nat)
    requires dev.Valid() && 2 <= |dev.outFifo| && outputaddr + 8 <= mem.Length
    modifies dev`outFifo, mem
    ensures dev.Valid() && dev.outFifo == old(dev.outFifo)[2..]
    ensures |BytesOf(old(dev.outFifo)[..2])| == 8
    ensures mem[..] == Store(old(mem[..]), outputaddr, BytesOf(old(dev.outFifo)[..2]))
  {
    ghost var m, a, b := mem[..], dev.outFifo[0], dev.outFifo[1];
    assert dev.outFifo[..2] == [a, b];
    BytesTwo(a, b);
    StoreTwice(m, outputaddr, a.Rev().MsbFirst(), b.Rev().MsbFirst());
    hide BytesOf, Word.Rev;
    PopWord(dev, mem, outputaddr);
    PopWord(dev, mem, outputaddr + 4);
  }

  /** Reads one output block from the OUT FIFO into memory: the oldest words, their bytes in order. */
  method ReadBlock(dev: Cryp, mem: array<byte>, outputaddr: nat)
    requires dev.Valid() && WordsPerBlock(dev.cr.Id()) <= |dev.outFifo| && outputaddr + BlockSize(dev.cr.Id()) <= mem.Length
    modifies dev`outFifo, mem
    ensures dev.Valid() && dev.outFifo == old(dev.outFifo)[WordsPerBlock(dev.cr.Id())..]
    ensures var y := BytesOf(old(dev.outFifo)[..WordsPerBlock(dev.cr.Id())]);
            |y| == BlockSize(dev.cr.Id()) && mem[..] == Store(old(mem[..]), outputaddr, y)
  {
    hide BytesOf;
    ghost var m, q := mem[..], dev.outFifo;
    PopTwo(dev, mem, outputaddr);
    if IsAes(dev.cr.Id()) {
      PopTwo(dev, mem, outputaddr + 8);
      StoreTwice(m, outputaddr, BytesOf(q[..2]), BytesOf(q[2..][..2]));
      BytesJoin(q[..2], q[2..][..2]);
      assert q[..2] + q[2..][..2] == q[..4];
    }
  }

  /**
   The body of the for loop: one block in, wait, one block out unless the wait times out. What is written is the oldest block
   not read yet: the result of the block just put in, unless something was left over. A block given up stays in the core.
   */
  method ProcessBlock(dev: Cryp, mem: array<byte>, inputaddr: nat, outputaddr: nat) returns (busy: bool)
    requires AtHead(dev)
    requires inputaddr + BlockSize(dev.cr.Id()) <= mem.Length && outputaddr + BlockSize(dev.cr.Id()) <= mem.Length
    modifies dev`inFifo, dev`outFifo, dev`iv, dev`schedule, dev`activity, dev`left, dev`ops, dev`polls, dev`peakIn, dev`peakOut, mem
    ensures dev.Valid() && dev.polls <= old(dev.polls) + BUSY_TIMEOUT
    ensures dev.peakIn <= Max(old(dev.peakIn), WordsPerBlock(dev.cr.Id()))
    ensures dev.peakOut <= Max(old(dev.peakOut), |old(dev.outFifo)| + InCore(old(dev.activity)) + WordsPerBlock(dev.cr.Id()))
    ensures busy <==> dev.core.latency(old(dev.ops)) + Extra(old(dev.activity), old(dev.left)) >= BUSY_TIMEOUT
    ensures busy ==> mem[..] == old(mem[..]) &&
                     GivenUp(dev.core, old(SoonJob(dev)), old(SoonChain(dev)),
                             old(mem[inputaddr..inputaddr + BlockSize(dev.cr.Id())]), old(EntryOf(dev)), EntryOf(dev))
    ensures !busy ==> AtHead(dev) && dev.activity.Idle? && dev.ops == old(dev.ops) + 1 && SoonJob(dev) == old(SoonJob(dev))
    ensures !busy ==> |dev.outFifo| == |old(dev.outFifo)| + InCore(old(dev.activity))
    ensures !busy ==> var (y, v) := Step(dev.core, old(SoonJob(dev)), old(SoonChain(dev)),
                                         old(mem[inputaddr..inputaddr + BlockSize(dev.cr.Id())]));
                      var w := old(Unread(dev.Now())) + y;
                      && |w| >= BlockSize(dev.cr.Id())
                      && mem[..] == Store(old(mem[..]), outputaddr, w[..BlockSize(dev.cr.Id())])
                      && Unread(dev.Now()) == w[BlockSize(dev.cr.Id())..] && SoonChain(dev) == v
    ensures dev.cr.Chain().ECB? ==> SoonIv(dev.Now()) == old(SoonIv(dev.Now()))
  {
    hide Step, JobOf, ChainOfIv, BytesOf, Begin, LoadBlock, Unread, Sound, Stuck, GivenUp;
    ghost var u, s, m := dev.Set(), dev.Now(), mem[..];
    assert m[inputaddr..inputaddr + BlockSize(dev.cr.Id())] == mem[inputaddr..inputaddr + BlockSize(dev.cr.Id())];
    HeadMeans(dev);
    busy := PutBlock(dev, mem, inputaddr);
    if busy {
      StuckResult(u, s, m, inputaddr);
    } else {
      ghost var all := dev.outFifo;
      BlockResult(u, s, m, inputaddr);
      ReadBlock(dev, mem, outputaddr);
      UnreadSplit(all, WordsPerBlock(dev.cr.Id()));
      UnreadIdle(dev.Now());
    }
  }

  lemma UnreadIdle(s: State)
    requires s.activity.Idle?
    ensures Unread(s) == BytesOf(s.outFifo)
  {
  }

  /** The first half: the block goes in and the wait ends, with the block's result behind whatever was left over, or is given up. */
  method PutBlock(dev: Cryp, mem: array<byte>, inputaddr: nat) returns (busy: bool)
    requires AtHead(dev) && inputaddr + BlockSize(dev.cr.Id()) <= mem.Length
    modifies dev`inFifo, dev`outFifo, dev`iv, dev`schedule, dev`activity, dev`left, dev`ops, dev`polls, dev`peakIn, dev`peakOut
    ensures dev.Valid() && dev.polls <= old(dev.polls) + BUSY_TIMEOUT
    ensures dev.peakIn <= Max(old(dev.peakIn), WordsPerBlock(dev.cr.Id()))
    ensures dev.peakOut <= Max(old(dev.peakOut), |old(dev.outFifo)| + InCore(old(dev.activity)) + WordsPerBlock(dev.cr.Id()))
    ensures busy <==> dev.core.latency(old(dev.ops)) + Extra(old(dev.activity), old(dev.left)) >= BUSY_TIMEOUT
    ensures dev.Now() == if busy then Stuck(dev.Set(), old(dev.Now()), LoadBlock(mem[..], inputaddr, dev.cr.Id()))
                         else AfterBlock(dev.Set(), old(dev.Now()), LoadBlock(mem[..], inputaddr, dev.cr.Id()))
  {
    hide Due, Time, Rested, Begin, Take, Sound, LoadBlock, Polls, Stuck, AfterBlock;
    ghost var u, s, ws := dev.Set(), dev.Now(), LoadBlock(mem[..], inputaddr, dev.cr.Id());
    HeadMeans(dev);
    PushBlock(dev, mem, inputaddr);
    BlockWait(u, s, ws);
    busy := WaitWhileBusy(dev);
    if busy {
      BlockTimeout(u, s, ws);
    }
  }

  lemma HeadMeans(dev: Cryp)
    requires AtHead(dev)
    ensures Head(dev.Set(), dev.Now())
  {
  }

  /** The block that the core begins is the one in memory. */
  lemma BeginResult(u: Setting, s: State, mem: seq<byte>, a: nat)
    requires u.cr.dataType.Type8b? && a + BlockSize(u.cr.Id()) <= |mem|
    ensures var b := Begin(u.core, u.cr, u.key, SoonSchedule(s), SoonIv(s), LoadBlock(mem, a, u.cr.Id()));
            Holding(u.core, JobOf(u.cr, u.key, SoonSchedule(s)), ChainOfIv(u.cr.Id(), SoonIv(s)), mem[a..a + BlockSize(u.cr.Id())], b)
  {
    hide Step, WordsOut, ChainOfIv, WithChain, BlockIn, LoadBlock, BytesOf;
    var j, v := JobOf(u.cr, u.key, SoonSchedule(s)), ChainOfIv(u.cr.Id(), SoonIv(s));
    BlockInLoads(u.core, u.cr, mem, a);
    var (y, v') := Step(u.core, j, v, mem[a..a + BlockSize(u.cr.Id())]);
    WordsOutBytes(u.core, u.cr, y);
    ChainRoundTrip(u.cr.Id(), SoonIv(s), v');
    EcbKeeps(u.core, j, v, mem[a..a + BlockSize(u.cr.Id())]);
  }

  lemma EcbKeeps(s: Core, j: Job, v: Block, x: Block)
    requires |v| == |x| == BlockSize(j.id)
    ensures j.chain.ECB? ==> Step(s, j, v, x).1 == v
  {
  }

  lemma ChainOver(id: CipherId, activity: Activity, v: IvRegs)
    requires activity.Crunching?
    ensures ChainOfIv(id, activity.next.Over(v)) == StartChain(id, activity, ChainOfIv(id, v))
  {
  }

  /** The words in the OUT FIFO after the wait, as bytes, and the chaining value. */
  lemma BlockResult(u: Setting, s: State, mem: seq<byte>, a: nat)
    requires u.cr.dataType.Type8b? && a + BlockSize(u.cr.Id()) <= |mem|
    ensures var (y, v) := Step(u.core, JobOf(u.cr, u.key, SoonSchedule(s)), ChainOfIv(u.cr.Id(), SoonIv(s)),
                               mem[a..a + BlockSize(u.cr.Id())]);
            var r := AfterBlock(u, s, LoadBlock(mem, a, u.cr.Id()));
            && BytesOf(r.outFifo) == Unread(s) + y && ChainOfIv(u.cr.Id(), SoonIv(r)) == v
            && (u.cr.Chain().ECB? ==> SoonIv(r) == SoonIv(s))
  {
    hide Step, JobOf, ChainOfIv, LoadBlock, BytesOf, StartChain;
    var b := Begin(u.core, u.cr, u.key, SoonSchedule(s), SoonIv(s), LoadBlock(mem, a, u.cr.Id()));
    BeginNext(u, s, LoadBlock(mem, a, u.cr.Id()));
    BeginResult(u, s, mem, a);
    ChainOver(u.cr.Id(), b, SoonIv(s));
    hide Begin;
    BytesJoin(s.outFifo, InHand(s.activity));
    BytesJoin(s.outFifo + InHand(s.activity), b.words);
    NoBytes();
  }

  lemma BeginNext(u: Setting, s: State, ws: seq<Word>)
    requires |ws| == u.Width()
    ensures u.cr.Chain().ECB? ==> Begin(u.core, u.cr, u.key, SoonSchedule(s), SoonIv(s), ws).next.Untouched?
  {
  }

  /** The same for a wait that is given up. */
  lemma StuckResult(u: Setting, s: State, mem: seq<byte>, a: nat)
    requires u.cr.dataType.Type8b? && a + BlockSize(u.cr.Id()) <= |mem|
    requires u.core.latency(s.ops) + Extra(s.activity, s.left) >= BUSY_TIMEOUT
    ensures var r := Stuck(u, s, LoadBlock(mem, a, u.cr.Id()));
            && GivenUp(u.core, JobOf(u.cr, u.key, SoonSchedule(s)), ChainOfIv(u.cr.Id(), SoonIv(s)), mem[a..a + BlockSize(u.cr.Id())],
                       Entry(u.cr.enabled, s.activity, s.left, s.ops), Entry(u.cr.enabled, r.activity, r.left, r.ops))
            && (u.cr.Chain().ECB? ==> SoonIv(r) == SoonIv(s))
  {
    hide Begin, JobOf, ChainOfIv, LoadBlock, Holding;
    BeginNext(u, s, LoadBlock(mem, a, u.cr.Id()));
    BeginResult(u, s, mem, a);
  }

  lemma NoBytes()
    ensures BytesOf([]) == []
  {
  }

  lemma UnreadSplit(all: seq<Word>, n: nat)
    requires n <= |all|
    ensures |BytesOf(all)| >= 4 * n && BytesOf(all[..n]) == BytesOf(all)[..4 * n] && BytesOf(all[n..]) == BytesOf(all)[4 * n..]
  {
    assert all == all[..n] + all[n..];
    BytesJoin(all[..n], all[n..]);
    BytesLength(all[..n]);
  }

  /** The state at the head of the loop after k blocks. */
  ghost predicate Progress(dev: Cryp, mem: array<byte>, job: Job, iv: Block, q: seq<byte>, m: seq<byte>,
                           input: nat, output: nat, k: nat)
    requires |iv| == BlockSize(job.id)
    requires input + Span(job.id, k) <= |m| && output + Span(job.id, k) <= |m|
    reads dev, mem
  {
    && AtHead(dev) && SoonJob(dev) == job && (0 < k ==> dev.activity.Idle?)
    && (mem[..], SoonChain(dev), Unread(dev.Now())) == LagStream(dev.core, job, iv, q, m, input, output, k)
  }

  /** One more block. */
  method NextBlock(dev: Cryp, mem: array<byte>, inputaddr: nat, outputaddr: nat, ghost job: Job, ghost iv: Block,
                   ghost q: seq<byte>, ghost m: seq<byte>, ghost input: nat, ghost output: nat, ghost k: nat)
    returns (busy: bool)
    requires |iv| == BlockSize(job.id)
    requires input + Span(job.id, k + 1) <= |m| && output + Span(job.id, k + 1) <= |m|
    requires inputaddr == input + Span(job.id, k) && outputaddr == output + Span(job.id, k)
    requires Progress(dev, mem, job, iv, q, m, input, output, k)
    modifies dev`inFifo, dev`outFifo, dev`iv, dev`schedule, dev`activity, dev`left, dev`ops, dev`polls, dev`peakIn, dev`peakOut, mem
    ensures dev.Valid() && dev.polls <= old(dev.polls) + BUSY_TIMEOUT
    ensures dev.peakIn <= Max(old(dev.peakIn), WordsPerBlock(dev.cr.Id()))
    ensures dev.peakOut <= Max(old(dev.peakOut), |old(dev.outFifo)| + InCore(old(dev.activity)) + WordsPerBlock(dev.cr.Id()))
    ensures busy <==> dev.core.latency(old(dev.ops)) + Extra(old(dev.activity), old(dev.left)) >= BUSY_TIMEOUT
    ensures busy ==> var (m', v, _) := LagStream(dev.core, job, iv, q, m, input, output, k);
                     && mem[..] == m'
                     && GivenUp(dev.core, job, v, Slice(m', input, job.id, k), old(EntryOf(dev)), EntryOf(dev))
    ensures !busy ==> Progress(dev, mem, job, iv, q, m, input, output, k + 1) && dev.ops == old(dev.ops) + 1
    ensures !busy ==> mem[..] == LagStream(dev.core, job, iv, q, m, input, output, k + 1).0
    ensures !busy ==> dev.activity.Idle? && |dev.outFifo| == |old(dev.outFifo)| + InCore(old(dev.activity))
    ensures dev.cr.Chain().ECB? ==> SoonIv(dev.Now()) == old(SoonIv(dev.Now()))
  {
    hide Step, SoonJob, SoonChain, Unread, LagStream, BytesOf, GivenUp, SoonIv;
    assert mem[inputaddr..inputaddr + BlockSize(dev.cr.Id())] == Slice(mem[..], input, job.id, k);
    LagSnoc(dev.core, job, iv, q, m, input, output, k + 1);
    busy := ProcessBlock(dev, mem, inputaddr, outputaddr);
  }

  lemma StartLoop(dev: Cryp, mem: array<byte>, input: nat, output: nat)
    requires AtHead(dev) && input <= mem.Length && output <= mem.Length
    ensures Turning(dev, mem, SoonJob(dev), SoonChain(dev), Unread(dev.Now()), mem[..], input, output, 0, EntryOf(dev),
                    |dev.outFifo| + InCore(dev.activity))
  {
  }

  /** The first k waits end in time. */
  predicate InTime(latency: nat -> nat, base: nat, extra: nat, k: nat) {
    forall t :: base <= t < base + k ==> WaitAt(latency, base, extra, t) < BUSY_TIMEOUT
  }

  lemma InTimeNext(latency: nat -> nat, base: nat, extra: nat, k: nat)
    requires InTime(latency, base, extra, k) && WaitAt(latency, base, extra, base + k) < BUSY_TIMEOUT
    ensures InTime(latency, base, extra, k + 1)
  {
  }

  lemma ServedIs(latency: nat -> nat, base: nat, extra: nat, n: nat, k: nat)
    requires k <= n && InTime(latency, base, extra, k)
    requires k < n ==> WaitAt(latency, base, extra, base + k) >= BUSY_TIMEOUT
    ensures Served(latency, base, extra, n) == k
  {
  }

  /** The loop has been entered as e and has done k turns in time. */
  ghost predicate Turning(dev: Cryp, mem: array<byte>, job: Job, iv: Block, q: seq<byte>, m: seq<byte>,
                          input: nat, output: nat, k: nat, e: Entry, over: nat)
    requires |iv| == BlockSize(job.id)
    requires input + Span(job.id, k) <= |m| && output + Span(job.id, k) <= |m|
    reads dev, mem
  {
    && Progress(dev, mem, job, iv, q, m, input, output, k) && dev.Valid() && dev.cr.Id() == job.id
    && dev.ops == e.ops + k && (if k == 0 then EntryOf(dev) == e else dev.activity.Idle?)
    && |dev.outFifo| + InCore(dev.activity) == over
    && InTime(dev.core.latency, e.ops, Extra(e.activity, e.left), k)
  }

  /** It has given up block k. */
  ghost predicate Halted(dev: Cryp, mem: array<byte>, job: Job, iv: Block, q: seq<byte>, m: seq<byte>,
                         input: nat, output: nat, k: nat, e: Entry)
    requires |iv| == BlockSize(job.id)
    requires input + Span(job.id, k + 1) <= |m| && output + Span(job.id, k + 1) <= |m|
    reads dev, mem
  {
    && dev.Valid() && mem[..] == LagStream(dev.core, job, iv, q, m, input, output, k).0
    && LeftAt(dev.core, job, iv, q, m, input, output, k, e, EntryOf(dev))
    && InTime(dev.core.latency, e.ops, Extra(e.activity, e.left), k)
    && WaitAt(dev.core.latency, e.ops, Extra(e.activity, e.left), e.ops + k) >= BUSY_TIMEOUT
  }

  /** One turn, with the waits counted. */
  method NextTurn(dev: Cryp, mem: array<byte>, inputaddr: nat, outputaddr: nat, ghost job: Job, ghost iv: Block,
                  ghost q: seq<byte>, ghost m: seq<byte>, ghost input: nat, ghost output: nat, ghost k: nat, ghost e: Entry,
                  ghost over: nat)
    returns (busy: bool)
    requires |iv| == BlockSize(job.id)
    requires input + Span(job.id, k + 1) <= |m| && output + Span(job.id, k + 1) <= |m|
    requires inputaddr == input + Span(job.id, k) && outputaddr == output + Span(job.id, k)
    requires Turning(dev, mem, job, iv, q, m, input, output, k, e, over)
    modifies dev`inFifo, dev`outFifo, dev`iv, dev`schedule, dev`activity, dev`left, dev`ops, dev`polls, dev`peakIn, dev`peakOut, mem
    ensures busy ==> Halted(dev, mem, job, iv, q, m, input, output, k, e)
    ensures !busy ==> Turning(dev, mem, job, iv, q, m, input, output, k + 1, e, over)
    ensures dev.polls <= old(dev.polls) + BUSY_TIMEOUT
    ensures dev.peakIn <= Max(old(dev.peakIn), WordsPerBlock(job.id))
    ensures dev.peakOut <= Max(old(dev.peakOut), over + WordsPerBlock(job.id))
    ensures dev.cr.Chain().ECB? ==> SoonIv(dev.Now()) == old(SoonIv(dev.Now()))
  {
    hide Step, SoonJob, SoonChain, Unread, AtHead, LagStream, Progress, Span, GivenUp, SoonIv, LeftAt, Sound,
      WordsPerBlock, IsAes, JobOf, ChainOfIv, Control.Chain, Control.Id, InTime;
    ghost var here := EntryOf(dev);
    busy := NextBlock(dev, mem, inputaddr, outputaddr, job, iv, q, m, input, output, k);
    if busy {
      GivenUpAs(dev.core, job, iv, q, m, input, output, k, e, here, EntryOf(dev));
    } else {
      InTimeNext(dev.core.latency, e.ops, Extra(e.activity, e.left), k);
    }
  }

  /** The for loop over the blocks, with its 32-bit index, entered with status SUCCESS. */
  method BlockLoop(dev: Cryp, mem: array<byte>, input: nat, length: nat, output: nat) returns (ok: bool)
    requires AtHead(dev) && Fits(dev.cr.Id(), mem.Length, input, length, output)
    modifies dev`inFifo, dev`outFifo, dev`iv, dev`schedule, dev`activity, dev`left, dev`ops, dev`polls, dev`peakIn, dev`peakOut, mem
    ensures dev.Valid()
    ensures Performed(dev.core, old(SoonJob(dev)), old(SoonChain(dev)), old(Unread(dev.Now())), old(mem[..]), mem[..],
                      input, output, BlockCount(dev.cr.Id(), length), old(dev.ops), Extra(old(dev.activity), old(dev.left)), ok)
    ensures Remains(dev.core, old(SoonJob(dev)), old(SoonChain(dev)), old(Unread(dev.Now())), old(mem[..]),
                    input, output, BlockCount(dev.cr.Id(), length), old(EntryOf(dev)), EntryOf(dev))
    ensures ok ==> Progress(dev, mem, old(SoonJob(dev)), old(SoonChain(dev)), old(Unread(dev.Now())), old(mem[..]),
                            input, output, BlockCount(dev.cr.Id(), length))
    ensures dev.cr.Chain().ECB? ==> SoonIv(dev.Now()) == old(SoonIv(dev.Now()))
    ensures dev.polls <= old(dev.polls) + BUSY_TIMEOUT * BlockCount(dev.cr.Id(), length)
    ensures dev.peakIn <= Max(old(dev.peakIn), WordsPerBlock(dev.cr.Id()))
    ensures dev.peakOut <= Max(old(dev.peakOut), |old(dev.outFifo)| + InCore(old(dev.activity)) + WordsPerBlock(dev.cr.Id()))
  {
    hide Step, SoonJob, SoonChain, Unread, AtHead, LagStream, Progress, Turning, Halted, Span, BlockCount, Fits, SoonIv, Remains,
      Performed, Cryp.Valid, WordsPerBlock, JobOf, ChainOfIv, Control.Chain, InCore, Extra;
    LoopRange(dev.cr.Id(), mem.Length, input, length, output);
    ghost var c, n, k := dev.cr.Id(), BlockCount(dev.cr.Id(), length), 0;
    ghost var job, iv, q, m, e := SoonJob(dev), SoonChain(dev), Unread(dev.Now()), mem[..], EntryOf(dev);
    ghost var over := |dev.outFifo| + InCore(dev.activity);
    StartLoop(dev, mem, input, output);
    ok := true;
    var i, inputaddr, outputaddr := 0, input, output;
    while i < length && ok
      invariant 0 <= k <= n
      invariant ok ==> i == Span(c, k) && inputaddr == input + i && outputaddr == output + i
      invariant ok ==> Turning(dev, mem, job, iv, q, m, input, output, k, e, over)
      invariant !ok ==> k < n && Halted(dev, mem, job, iv, q, m, input, output, k, e)
      invariant dev.cr.Chain().ECB? ==> SoonIv(dev.Now()) == old(SoonIv(dev.Now()))
      invariant dev.polls <= old(dev.polls) + BUSY_TIMEOUT * (if ok then k else k + 1)
      invariant dev.peakIn <= Max(old(dev.peakIn), WordsPerBlock(c))
      invariant dev.peakOut <= Max(old(dev.peakOut), over + WordsPerBlock(c))
      decreases n - k, ok
    {
      IndexNext(c, mem.Length, input, length, output, k);
      var busy := NextTurn(dev, mem, inputaddr, outputaddr, job, iv, q, m, input, output, k, e, over);
      inputaddr := inputaddr + BlockSize(dev.cr.Id());
      if busy {
        ok := false;
      } else {
        outputaddr := outputaddr + BlockSize(dev.cr.Id());
        k := k + 1;
      }
      i := (i + BlockSize(dev.cr.Id())) % TWO32;
    }
    if ok {
      IndexEnd(c, length, k);
    }
    LoopOutcome(dev, mem, job, iv, q, m, input, output, n, k, e, over, ok);
  }

  lemma LoopOutcome(dev: Cryp, mem: array<byte>, job: Job, iv: Block, q: seq<byte>, m: seq<byte>, input: nat, output: nat,
                    n: nat, k: nat, e: Entry, over: nat, ok: bool)
    requires |iv| == BlockSize(job.id) && k <= n
    requires input + Span(job.id, n) <= |m| && output + Span(job.id, n) <= |m|
    requires if ok then k == n && Turning(dev, mem, job, iv, q, m, input, output, k, e, over)
             else k < n && Halted(dev, mem, job, iv, q, m, input, output, k, e)
    ensures Performed(dev.core, job, iv, q, m, mem[..], input, output, n, e.ops, Extra(e.activity, e.left), ok)
    ensures Remains(dev.core, job, iv, q, m, input, output, n, e, EntryOf(dev))
    ensures dev.Valid() && (ok ==> Progress(dev, mem, job, iv, q, m, input, output, n))
  {
    hide LagStream, LeftAt, Served, WaitAt, InTime, AtHead, SoonJob, SoonChain, Unread;
    ServedIs(dev.core.latency, e.ops, Extra(e.activity, e.left), n, k);
  }

  lemma GivenUpAs(core: Core, job: Job, iv: Block, q: seq<byte>, m: seq<byte>, input: nat, output: nat, k: nat,
                  e: Entry, here: Entry, a: Entry)
    requires |iv| == BlockSize(job.id)
    requires input + Span(job.id, k + 1) <= |m| && output + Span(job.id, k + 1) <= |m|
    requires var (m', v, _) := LagStream(core, job, iv, q, m, input, output, k);
             GivenUp(core, job, v, Slice(m', input, job.id, k), here, a)
    requires here.ops == e.ops + k && if k == 0 then here == e else here.activity.Idle?
    ensures LeftAt(core, job, iv, q, m, input, output, k, e, a)
  {
    hide LagStream, Holding;
  }

  lemma LoopRange(c: CipherId, size: nat, input: nat, length: nat, output: nat)
    requires Fits(c, size, input, length, output)
    ensures Span(c, 0) == 0 && forall k: nat :: k <= BlockCount(c, length) ==>
              input + Span(c, k) <= size && output + Span(c, k) <= size
  {
  }

  /** Before the last block the index does not wrap around. */
  lemma IndexNext(c: CipherId, size: nat, input: nat, length: nat, output: nat, k: nat)
    requires Fits(c, size, input, length, output) && Span(c, k) < length
    ensures k < BlockCount(c, length)
    ensures Span(c, k + 1) == Span(c, k) + BlockSize(c) == (Span(c, k) + BlockSize(c)) % TWO32
    ensures input + Span(c, k + 1) <= size && output + Span(c, k + 1) <= size
  {
  }

  lemma IndexEnd(c: CipherId, length: nat, k: nat)
    requires Span(c, k) >= length && k <= BlockCount(c, length)
    ensures k == BlockCount(c, length)
  {
  }

  // ---- Keys and vectors ----

  function Zeros(n: nat): (z: seq<byte>)
    ensures |z| == n && forall i :: 0 <= i < n ==> z[i] == 0
  {
    seq(n, i => 0)
  }

  /** The key registers whose 32 bytes, most significant first, are b. */
  function KeyOf(b: seq<byte>): KeyRegs
    requires |b| == 32
  {
    KeyRegs(FromMsb(b[0..4]), FromMsb(b[4..8]), FromMsb(b[8..12]), FromMsb(b[12..16]),
            FromMsb(b[16..20]), FromMsb(b[20..24]), FromMsb(b[24..28]), FromMsb(b[28..32]))
  }

  /** The register content for n key bytes at address a, placed after lead zero bytes. */
  function PlacedKey(mem: seq<byte>, a: nat, n: nat, lead: nat): KeyRegs
    requires a + n <= |mem| && lead + n <= 32
  {
    KeyOf(Zeros(lead) + mem[a..a + n] + Zeros(32 - lead - n))
  }

  lemma MsbBack(b: seq<byte>, a: nat)
    requires a + 4 <= |b|
    ensures FromMsb(b[a..a + 4]).MsbFirst() == b[a..a + 4]
  {
  }

  /** The registers hold exactly those bytes, so different keys give different registers. */
  lemma KeyOfImage(b: seq<byte>)
    requires |b| == 32
    ensures KeyOf(b).Image() == b
  {
    hide FromMsb, Word.MsbFirst;
    MsbBack(b, 0);
    MsbBack(b, 4);
    MsbBack(b, 8);
    MsbBack(b, 12);
    MsbBack(b, 16);
    MsbBack(b, 20);
    MsbBack(b, 24);
    MsbBack(b, 28);
    Join(b, 0, 4, 8);
    Join(b, 0, 8, 12);
    Join(b, 0, 12, 16);
    Join(b, 0, 16, 20);
    Join(b, 0, 20, 24);
    Join(b, 0, 24, 28);
    Join(b, 0, 28, 32);
  }

  function KeyBytes(keysize: nat): nat { keysize / 8 }

  predicate IsKeySize(keysize: nat) { keysize == 128 || keysize == 192 || keysize == 256 }

  function SizeOf(keysize: nat): KeySize {
    if keysize == 128 then Key128b else if keysize == 192 then Key192b else Key256b
  }

  function AesIdOf(keysize: nat): CipherId {
    AesId(SizeOf(keysize))
  }

  /** The i-th key register word for n key bytes at address a after lead zero bytes. */
  function PlacedWord(mem: seq<byte>, a: nat, n: nat, lead: nat, i: nat): Word
    requires a + n <= |mem| && n % 4 == 0 && lead % 4 == 0
  {
    if lead <= 4 * i < lead + n then Load(mem, a + 4 * i - lead).Rev() else ZERO_WORD
  }

  lemma PlacedWordIs(mem: seq<byte>, a: nat, n: nat, lead: nat, i: nat)
    requires a + n <= |mem| && lead + n <= 32 && n % 4 == 0 && lead % 4 == 0 && i < 8
    ensures FromMsb((Zeros(lead) + mem[a..a + n] + Zeros(32 - lead - n))[4 * i..4 * i + 4]) == PlacedWord(mem, a, n, lead, i)
  {
    var b := Zeros(lead) + mem[a..a + n] + Zeros(32 - lead - n);
    assert forall k :: 0 <= k < 32 ==> b[k] == if lead <= k < lead + n then mem[a + k - lead] else 0;
    var w := b[4 * i..4 * i + 4];
    assert w[0] == b[4 * i] && w[1] == b[4 * i + 1] && w[2] == b[4 * i + 2] && w[3] == b[4 * i + 3];
  }

  lemma PlacedWords(mem: seq<byte>, a: nat, n: nat, lead: nat)
    requires a + n <= |mem| && lead + n <= 32 && n % 4 == 0 && lead % 4 == 0
    ensures PlacedKey(mem, a, n, lead) ==
            KeyRegs(PlacedWord(mem, a, n, lead, 0), PlacedWord(mem, a, n, lead, 1),
                    PlacedWord(mem, a, n, lead, 2), PlacedWord(mem, a, n, lead, 3),
                    PlacedWord(mem, a, n, lead, 4), PlacedWord(mem, a, n, lead, 5),
                    PlacedWord(mem, a, n, lead, 6), PlacedWord(mem, a, n, lead, 7))
  {
    hide FromMsb, PlacedWord, Load;
    PlacedWordIs(mem, a, n, lead, 0);
    PlacedWordIs(mem, a, n, lead, 1);
    PlacedWordIs(mem, a, n, lead, 2);
    PlacedWordIs(mem, a, n, lead, 3);
    PlacedWordIs(mem, a, n, lead, 4);
    PlacedWordIs(mem, a, n, lead, 5);
    PlacedWordIs(mem, a, n, lead, 6);
    PlacedWordIs(mem, a, n, lead, 7);
  }

  lemma SizeCode(keysize: nat)
    requires IsKeySize(keysize)
    ensures SizeOf(keysize).Bits() == if keysize == 128 then 0x000 else if keysize == 192 then 0x100 else 0x200
  {
  }

  /** The switch on the key size: the key is right aligned in the registers. */
  method LoadAesKey(mem: array<byte>, keyaddr: nat, keysize: nat) returns (size: KeySize, k: KeyRegs)
    requires IsKeySize(keysize) && keyaddr + KeyBytes(keysize) <= mem.Length
    ensures k == PlacedKey(mem[..], keyaddr, KeyBytes(keysize), 32 - KeyBytes(keysize))
    ensures size == SizeOf(keysize)
    // the KEYSIZE code is 0x000, 0x100 or 0x200
    ensures size.Bits() == if keysize == 128 then 0x000 else if keysize == 192 then 0x100 else 0x200
  {
    hide KeySize.Bits, Load, PlacedKey;
    SizeCode(keysize);
    k := ZERO_KEY;
    ghost var m := mem[..];
    match keysize
    case 128 =>
      size := Key128b;
      k := k.(k2l := Load(mem[..], keyaddr).Rev(), k2r := Load(mem[..], keyaddr + 4).Rev(),
              k3l := Load(mem[..], keyaddr + 8).Rev(), k3r := Load(mem[..], keyaddr + 12).Rev());
      PlacedWords(m, keyaddr, 16, 16);
    case 192 =>
      size := Key192b;
      k := k.(k1l := Load(mem[..], keyaddr).Rev(), k1r := Load(mem[..], keyaddr + 4).Rev(),
              k2l := Load(mem[..], keyaddr + 8).Rev(), k2r := Load(mem[..], keyaddr + 12).Rev(),
              k3l := Load(mem[..], keyaddr + 16).Rev(), k3r := Load(mem[..], keyaddr + 20).Rev());
      PlacedWords(m, keyaddr, 24, 8);
    case _ =>
      size := Key256b;
      k := k.(k0l := Load(mem[..], keyaddr).Rev(), k0r := Load(mem[..], keyaddr + 4).Rev(),
              k1l := Load(mem[..], keyaddr + 8).Rev(), k1r := Load(mem[..], keyaddr + 12).Rev(),
              k2l := Load(mem[..], keyaddr + 16).Rev(), k2r := Load(mem[..], keyaddr + 20).Rev(),
              k3l := Load(mem[..], keyaddr + 24).Rev(), k3r := Load(mem[..], keyaddr + 28).Rev());
      PlacedWords(m, keyaddr, 32, 0);
  }

  /** The vector registers for the bytes at address a read big-endian hold those bytes in order. */
  lemma VectorLoaded(c: CipherId, iv: IvRegs, mem: seq<byte>, a: nat)
    requires a + BlockSize(c) <= |mem|
    requires iv.iv0l == Load(mem, a).Rev() && iv.iv0r == Load(mem, a + 4).Rev()
    requires IsAes(c) ==> iv.iv1l == Load(mem, a + 8).Rev() && iv.iv1r == Load(mem, a + 12).Rev()
    ensures ChainOfIv(c, iv) == mem[a..a + BlockSize(c)]
  {
    hide Load;
    LoadRev(mem, a);
    LoadRev(mem, a + 4);
    Join(mem, a, a + 4, a + 8);
    if IsAes(c) {
      LoadRev(mem, a + 8);
      LoadRev(mem, a + 12);
      Join(mem, a, a + 8, a + 12);
      Join(mem, a, a + 12, a + 16);
    }
  }

  // ---- The drivers ----

  function AesDirection(mode: bv8): Direction {
    if mode == MODE_DECRYPT then Decrypt else Encrypt
  }

  function DesDirection(mode: bv8): Direction {
    if mode == MODE_ENCRYPT then Encrypt else Decrypt
  }

  /** The job CRYP_AES_* is asked for. */
  function AesJob(mem: seq<byte>, chain: Chain, mode: bv8, key: nat, keysize: nat): Job
    requires IsKeySize(keysize) && key + KeyBytes(keysize) <= |mem|
  {
    Job(AesIdOf(keysize), chain, AesDirection(mode), PlacedKey(mem, key, KeyBytes(keysize), 32 - KeyBytes(keysize)), true)
  }

  /** The job CRYP_AES_* is asked for: cipher by key size, decryption for mode 0, the key bytes at the end of the registers. */
  lemma AesJobIs(mem: seq<byte>, chain: Chain, mode: bv8, key: nat, keysize: nat)
    requires (keysize == 128 || keysize == 192 || keysize == 256) && key + keysize / 8 <= |mem|
    ensures var j := AesJob(mem, chain, mode, key, keysize);
            && (keysize == 128 ==> j.id == AES128) && (keysize == 192 ==> j.id == AES192) && (keysize == 256 ==> j.id == AES256)
            && j.chain == chain && j.dir == (if mode == 0 then Decrypt else Encrypt)
            && j.key.Image() == seq(32 - keysize / 8, i => 0) + mem[key..key + keysize / 8]
  {
    hide PlacedKey, KeyRegs.Image;
    AesImage(mem, key, keysize / 8);
  }

  lemma AesImage(mem: seq<byte>, a: nat, n: nat)
    requires n <= 32 && a + n <= |mem|
    ensures PlacedKey(mem, a, n, 32 - n).Image() == seq(32 - n, i => 0) + mem[a..a + n]
  {
    hide PlacedKey, KeyRegs.Image;
    ImagePlaced(mem, a, n, 32 - n);
    assert Zeros(32 - n) == seq(32 - n, i => 0);
    assert Zeros(32 - n) + mem[a..a + n] + Zeros(0) == seq(32 - n, i => 0) + mem[a..a + n];
  }

  lemma ImagePlaced(mem: seq<byte>, a: nat, n: nat, lead: nat)
    requires a + n <= |mem| && lead + n <= 32
    ensures PlacedKey(mem, a, n, lead).Image() == Zeros(lead) + mem[a..a + n] + Zeros(32 - lead - n)
  {
    hide KeyRegs.Image, KeyOf;
    KeyOfImage(Zeros(lead) + mem[a..a + n] + Zeros(32 - lead - n));
  }

  /** The key preparation of AES ECB and CBC decryption, whatever the processor was doing. */
  method PrepareKey(dev: Cryp, size: KeySize, k: KeyRegs) returns (ok: bool)
    requires dev.Valid()
    modifies dev
    ensures dev.Valid() && dev.key == k
    ensures ok <==> PreparationTime(dev.core, old(EntryOf(dev))) < BUSY_TIMEOUT
    ensures ok ==> dev.activity == Idle && dev.schedule == ScheduleAfter(old(EntryOf(dev)), AesId(size), k)
    ensures ok ==> dev.ops == old(dev.ops) + (if Begins(old(EntryOf(dev))) then 1 else 0) && dev.iv == old(SoonIv(dev.Now()))
    ensures !ok ==> var e := old(EntryOf(dev));
                    && dev.activity == (if Begins(e) then Preparing(AesId(size), k) else e.activity)
                    && dev.left == PreparationTime(dev.core, e) - BUSY_TIMEOUT && dev.iv == old(dev.iv)
                    && dev.ops == if Begins(e) then e.ops + 1 else e.ops
    ensures dev.polls <= old(dev.polls) + BUSY_TIMEOUT
    ensures dev.peakIn == old(dev.peakIn) && dev.peakOut <= Max(old(dev.peakOut), InCore(old(dev.activity)))
  {
    hide Sound, Due, Time, Rested, Polls;
    StartPreparation(dev, size, k);
    ghost var u, s := dev.Set(), dev.Now();
    PreparationWait(u, s);
    var busy := WaitWhileBusy(dev);
    if busy {
      PollsWait(u, s, BUSY_TIMEOUT);
    }
    ok := !busy;
  }

  method StartPreparation(dev: Cryp, size: KeySize, k: KeyRegs)
    requires dev.Valid()
    modifies dev
    ensures dev.Valid() && dev.key == k && dev.cr.algo.AES_KEY?
    ensures var e := old(EntryOf(dev));
            dev.Now() == State([], [], old(dev.iv), Unprepared,
                               if Begins(e) then Preparing(AesId(size), k) else e.activity,
                               if Begins(e) then dev.core.latency(e.ops) else e.left,
                               if Begins(e) then e.ops + 1 else e.ops)
    ensures dev.polls == old(dev.polls) && dev.peakIn == old(dev.peakIn) && dev.peakOut == old(dev.peakOut)
  {
    hide Sound;
    dev.FIFOFlush();
    dev.Init(AES_KEY, Type32b, size, Decrypt);
    dev.KeyInit(k);
    dev.Cmd(true);
  }

  lemma PreparationWait(u: Setting, s: State)
    requires Sound(s) && u.cr.algo.AES_KEY? && s.inFifo == [] && s.outFifo == []
    ensures Due(u, s) == InCore(s.activity) <= FIFO_DEPTH && Time(u, s) == Extra(s.activity, s.left)
    ensures Rested(u, s).activity == Idle && Rested(u, s).schedule == SoonSchedule(s) && Rested(u, s).iv == SoonIv(s)
    ensures Rested(u, s).inFifo == [] && Rested(u, s).ops == s.ops
  {
    RestedOne(u, s);
  }

  /** The key reaches the core: prepared first for decryption, written directly for encryption. */
  method InstallKey(dev: Cryp, mode: bv8, size: KeySize, k: KeyRegs) returns (ok: bool)
    requires dev.Valid()
    modifies dev
    ensures dev.Valid() && dev.key == k
    ensures ok <==> (mode == MODE_DECRYPT ==> PreparationTime(dev.core, old(EntryOf(dev))) < BUSY_TIMEOUT)
    ensures mode == MODE_DECRYPT && ok ==>
              && dev.activity == Idle && dev.schedule == ScheduleAfter(old(EntryOf(dev)), AesId(size), k)
              && dev.ops == old(dev.ops) + (if Begins(old(EntryOf(dev))) then 1 else 0) && dev.iv == old(SoonIv(dev.Now()))
    ensures !ok ==> PreparationGivenUp(dev.core, Job(AesId(size), ECB, Decrypt, k, true), old(EntryOf(dev)), EntryOf(dev))
    ensures mode == MODE_DECRYPT && !ok ==> SoonIv(dev.Now()) == old(SoonIv(dev.Now()))
    ensures mode != MODE_DECRYPT ==>
              dev.activity == old(dev.activity) && dev.left == old(dev.left) && dev.ops == old(dev.ops) && dev.iv == old(dev.iv)
    ensures dev.polls <= old(dev.polls) + BUSY_TIMEOUT
    ensures dev.peakIn == old(dev.peakIn) && dev.peakOut <= Max(old(dev.peakOut), InCore(old(dev.activity)))
  {
    ok := true;
    if mode == MODE_DECRYPT {
      ok := PrepareKey(dev, size, k);
    } else {
      dev.KeyInit(k);
    }
  }

  /** The processor has been given the job with vector v, after having been found as e. */
  ghost predicate Installed(dev: Cryp, job: Job, v: Block, e: Entry)
    reads dev
  {
    && !dev.cr.algo.AES_KEY? && dev.cr.dataType.Type8b?
    && dev.cr.Id() == job.id && dev.cr.Chain() == job.chain && dev.cr.dir == job.dir && dev.key == job.key
    && (if Needs(job) then
          && dev.activity.Idle? && dev.schedule == ScheduleAfter(e, job.id, job.key)
          && dev.ops == if Begins(e) then e.ops + 1 else e.ops
        else dev.activity == e.activity && dev.left == e.left && dev.ops == e.ops)
    && ((dev.activity.Crunching? && dev.activity.next.Chained?) || ChainOfIv(job.id, dev.iv) == v)
  }

  /** The head of the block loop for that job. */
  ghost predicate SetUp(dev: Cryp, job: Job, v: Block, e: Entry)
    reads dev
  {
    AtHead(dev) && dev.outFifo == [] && Installed(dev, job, v, e)
  }

  lemma SetUpMeans(dev: Cryp, job: Job, v: Block, e: Entry)
    requires SetUp(dev, job, v, e) && job.ready && |v| == BlockSize(job.id)
    ensures SoonJob(dev) == ActualJob(job, e) && SoonChain(dev) == ActualChain(job, e, v)
    ensures Unread(dev.Now()) == ActualBacklog(job, e)
    ensures var l := LoopEntry(job, e);
            dev.activity == l.activity && (dev.activity.Idle? || dev.left == l.left) && dev.ops == l.ops
  {
  }

  /** The FIFOs are flushed and the processor enabled: the head of the block loop. */
  method FlushAndEnable(dev: Cryp, ghost job: Job, ghost v: Block, ghost e: Entry)
    requires dev.Valid() && !dev.cr.algo.AES_KEY? && dev.cr.dataType.Type8b?
    modifies dev`inFifo, dev`outFifo, dev`cr, dev`activity, dev`left, dev`ops
    ensures dev.Valid() && dev.cr == old(dev.cr).(enabled := true)
    ensures dev.activity == old(dev.activity) && dev.left == old(dev.left) && dev.ops == old(dev.ops)
    ensures old(Installed(dev, job, v, e)) ==> SetUp(dev, job, v, e)
  {
    hide ChainOfIv, ScheduleAfter, NeedsPreparation;
    dev.FIFOFlush();
    dev.Cmd(true);
  }

  /** The end common to all drivers: the block loop unless key preparation failed, then CRYP_Cmd(DISABLE). */
  method RunAndDisable(dev: Cryp, mem: array<byte>, start: bool, input: nat, length: nat, output: nat,
                       ghost job: Job, ghost v: Block, ghost e: Entry)
    returns (ok: bool)
    requires dev.Valid() && |v| == BlockSize(job.id) && Fits(job.id, mem.Length, input, length, output)
    requires start <==> Prepares(dev.core, job, e)
    requires start ==> SetUp(dev, job, v, e) && job.ready
    requires !start ==> PreparationGivenUp(dev.core, job, e, EntryOf(dev))
    modifies dev, mem
    ensures Driven(dev.core, job, v, old(mem[..]), mem[..], input, output, BlockCount(job.id, length), e, ok)
    ensures dev.Valid() && Leaves(dev.core, job, v, old(mem[..]), input, output, BlockCount(job.id, length), e, EntryOf(dev))
    ensures dev.polls <= old(dev.polls) + BUSY_TIMEOUT * BlockCount(job.id, length)
    ensures start ==> Peaked(dev, old(dev.peakIn), old(dev.peakOut), old(dev.activity), job.id)
    ensures !start ==> dev.peakIn == old(dev.peakIn) && dev.peakOut == old(dev.peakOut)
    ensures old(dev.cr.Chain()).ECB? ==> SoonIv(dev.Now()) == old(SoonIv(dev.Now()))
  {
    hide Step, LagStream, Performed, Remains, SoonJob, SoonChain, Unread, AtHead, JobOf, ChainOfIv, ActualJob, ActualChain,
      ActualBacklog, SoonIv, PreparationTime, Begins, LoopEntry, Extra;
    ok := start;
    if ok {
      ghost var m, d, n := mem[..], EntryOf(dev), BlockCount(job.id, length);
      SetUpMeans(dev, job, v, e);
      SetUpHead(dev, job, v, e);
      hide SetUp;
      ok := BlockLoop(dev, mem, input, length, output);
      SameEntry(dev.core, ActualJob(job, e), ActualChain(job, e, v), ActualBacklog(job, e), m, input, output, n, d,
                LoopEntry(job, e), EntryOf(dev));
    }
    dev.Cmd(false);
  }

  /** Time that an idle core has left, and the enable bit, do not matter. */
  lemma SameEntry(core: Core, j: Job, v: Block, q: seq<byte>, m: seq<byte>, input: nat, output: nat, n: nat, d: Entry, l: Entry, a: Entry)
    requires |v| == BlockSize(j.id)
    requires input + Span(j.id, n) <= |m| && output + Span(j.id, n) <= |m|
    requires d.activity == l.activity && (d.activity.Idle? || d.left == l.left) && d.ops == l.ops
    requires Remains(core, j, v, q, m, input, output, n, d, a)
    ensures Extra(d.activity, d.left) == Extra(l.activity, l.left)
    ensures Remains(core, j, v, q, m, input, output, n, l, a.(enabled := false))
  {
    hide LagStream, Holding, Served;
  }

  /** From the flush of the FIFOs on, all drivers are alike. */
  method RunJob(dev: Cryp, mem: array<byte>, start: bool, input: nat, length: nat, output: nat,
                ghost job: Job, ghost v: Block, ghost e: Entry)
    returns (ok: bool)
    requires dev.Valid() && !dev.cr.algo.AES_KEY? && dev.cr.dataType.Type8b?
    requires |v| == BlockSize(job.id) && Fits(job.id, mem.Length, input, length, output)
    requires start <==> Prepares(dev.core, job, e)
    requires start ==> Installed(dev, job, v, e) && job.ready
    requires !start ==> PreparationGivenUp(dev.core, job, e, EntryOf(dev))
    modifies dev, mem
    ensures Driven(dev.core, job, v, old(mem[..]), mem[..], input, output, BlockCount(job.id, length), e, ok)
    ensures dev.Valid() && Leaves(dev.core, job, v, old(mem[..]), input, output, BlockCount(job.id, length), e, EntryOf(dev))
    ensures dev.polls <= old(dev.polls) + BUSY_TIMEOUT * BlockCount(job.id, length)
    ensures start ==> Peaked(dev, old(dev.peakIn), old(dev.peakOut), old(dev.activity), job.id)
    ensures !start ==> dev.peakIn == old(dev.peakIn) && dev.peakOut == old(dev.peakOut)
    ensures old(dev.cr.Chain()).ECB? ==> SoonIv(dev.Now()) == old(SoonIv(dev.Now()))
  {
    hide Driven, Leaves, Installed, Prepares, PreparationTime, Begins, BlockCount, Fits, Sound;
    FlushAndEnable(dev, job, v, e);
    ok := RunAndDisable(dev, mem, start, input, length, output, job, v, e);
  }

  lemma SetUpHead(dev: Cryp, job: Job, v: Block, e: Entry)
    requires SetUp(dev, job, v, e)
    ensures AtHead(dev) && dev.outFifo == [] && dev.cr.Id() == job.id
  {
  }
  /** Neither FIFO has held more than one block, beyond what was still in the core. */
  ghost predicate Peaked(dev: Cryp, peakIn: nat, peakOut: nat, activity: Activity, id: CipherId)
    reads dev
  {
    dev.peakIn <= Max(peakIn, WordsPerBlock(id)) && dev.peakOut <= Max(peakOut, InCore(activity) + WordsPerBlock(id))
  }

  /** CRYP_AES_ECB. */
  method AesEcb(dev: Cryp, mem: array<byte>, mode: bv8, key: nat, keysize: nat, input: nat, length: nat, output: nat)
    returns (ok: bool)
    requires dev.Valid() && IsKeySize(keysize) && key + KeyBytes(keysize) <= mem.Length
    requires Fits(AesIdOf(keysize), mem.Length, input, length, output)
    modifies dev, mem
    ensures Driven(dev.core, AesJob(old(mem[..]), ECB, mode, key, keysize), ChainOfIv(AesIdOf(keysize), old(SoonIv(dev.Now()))),
                   old(mem[..]), mem[..], input, output, BlockCount(AesIdOf(keysize), length), old(EntryOf(dev)), ok)
    ensures dev.Valid()
    ensures Leaves(dev.core, AesJob(old(mem[..]), ECB, mode, key, keysize), ChainOfIv(AesIdOf(keysize), old(SoonIv(dev.Now()))),
                   old(mem[..]), input, output, BlockCount(AesIdOf(keysize), length), old(EntryOf(dev)), EntryOf(dev))
    ensures SoonIv(dev.Now()) == old(SoonIv(dev.Now()))
    ensures Peaked(dev, old(dev.peakIn), old(dev.peakOut), old(dev.activity), AesIdOf(keysize))
    ensures dev.polls <= old(dev.polls) + BUSY_TIMEOUT * (BlockCount(AesIdOf(keysize), length) + 1)
  {
    hide Sound, AtHead, Step, ChainOfIv, LagStream, Performed, Driven, Leaves, PlacedKey, BlockCount, Span, Load,
      Fits, ScheduleAfter, PreparationTime, Begins, Cryp.Valid, KeySize.Bits;
    ghost var m, e := mem[..], EntryOf(dev);
    ghost var chain := ChainOfIv(AesIdOf(keysize), SoonIv(dev.Now()));
    ghost var job := AesJob(m, ECB, mode, key, keysize);
    var size, k := LoadAesKey(mem, key, keysize);
    ok := InstallKey(dev, mode, size, k);
    dev.Init(AES_ECB, Type8b, size, AesDirection(mode));
    ok := RunJob(dev, mem, ok, input, length, output, job, chain, e);
  }

  method LoadVector16(mem: array<byte>, a: nat, ghost c: CipherId) returns (v: IvRegs)
    requires a + 16 <= mem.Length && IsAes(c)
    ensures ChainOfIv(c, v) == mem[a..a + 16]
  {
    v := IvRegs(Load(mem[..], a).Rev(), Load(mem[..], a + 4).Rev(),
                Load(mem[..], a + 8).Rev(), Load(mem[..], a + 12).Rev());
    VectorLoaded(c, v, mem[..], a);
    assert mem[..][a..a + 16] == mem[a..a + 16];
  }

  /** CRYP_AES_CBC. */
  method AesCbc(dev: Cryp, mem: array<byte>, mode: bv8, vector: nat, key: nat, keysize: nat,
                input: nat, length: nat, output: nat)
    returns (ok: bool)
    requires dev.Valid() && IsKeySize(keysize) && key + KeyBytes(keysize) <= mem.Length && vector + 16 <= mem.Length
    requires Fits(AesIdOf(keysize), mem.Length, input, length, output)
    modifies dev, mem
    ensures Driven(dev.core, AesJob(old(mem[..]), CBC, mode, key, keysize), old(mem[vector..vector + 16]),
                   old(mem[..]), mem[..], input, output, BlockCount(AesIdOf(keysize), length), old(EntryOf(dev)), ok)
    ensures dev.Valid()
    ensures Leaves(dev.core, AesJob(old(mem[..]), CBC, mode, key, keysize), old(mem[vector..vector + 16]),
                   old(mem[..]), input, output, BlockCount(AesIdOf(keysize), length), old(EntryOf(dev)), EntryOf(dev))
    ensures Peaked(dev, old(dev.peakIn), old(dev.peakOut), old(dev.activity), AesIdOf(keysize))
    ensures dev.polls <= old(dev.polls) + BUSY_TIMEOUT * (BlockCount(AesIdOf(keysize), length) + 1)
  {
    hide Sound, AtHead, Step, ChainOfIv, LagStream, Performed, Driven, Leaves, PlacedKey, BlockCount, Span, Load,
      Fits, ScheduleAfter, PreparationTime, Begins, Cryp.Valid, KeySize.Bits;
    ghost var m, e := mem[..], EntryOf(dev);
    ghost var chain := mem[vector..vector + 16];
    ghost var job := AesJob(m, CBC, mode, key, keysize);
    var size, k := LoadAesKey(mem, key, keysize);
    var v := LoadVector16(mem, vector, AesIdOf(keysize));
    ok := InstallKey(dev, mode, size, k);
    dev.Init(AES_CBC, Type8b, size, AesDirection(mode));
    dev.IVInit(v);
    ok := RunJob(dev, mem, ok, input, length, output, job, chain, e);
  }

  /** CRYP_AES_CTR. No key preparation, whatever the direction. */
  method AesCtr(dev: Cryp, mem: array<byte>, mode: bv8, vector: nat, key: nat, keysize: nat,
                input: nat, length: nat, output: nat)
    returns (ok: bool)
    requires dev.Valid() && IsKeySize(keysize) && key + KeyBytes(keysize) <= mem.Length && vector + 16 <= mem.Length
    requires Fits(AesIdOf(keysize), mem.Length, input, length, output)
    modifies dev, mem
    ensures Driven(dev.core, AesJob(old(mem[..]), CTR, mode, key, keysize), old(mem[vector..vector + 16]),
                   old(mem[..]), mem[..], input, output, BlockCount(AesIdOf(keysize), length), old(EntryOf(dev)), ok)
    ensures dev.Valid()
    ensures Leaves(dev.core, AesJob(old(mem[..]), CTR, mode, key, keysize), old(mem[vector..vector + 16]),
                   old(mem[..]), input, output, BlockCount(AesIdOf(keysize), length), old(EntryOf(dev)), EntryOf(dev))
    ensures Peaked(dev, old(dev.peakIn), old(dev.peakOut), old(dev.activity), AesIdOf(keysize))
    ensures dev.polls <= old(dev.polls) + BUSY_TIMEOUT * BlockCount(AesIdOf(keysize), length)
  {
    hide Sound, AtHead, Step, ChainOfIv, LagStream, Performed, Driven, Leaves, PlacedKey, BlockCount, Span, Load,
      Fits, ScheduleAfter, PreparationTime, Begins, Cryp.Valid, KeySize.Bits;
    ghost var m, e := mem[..], EntryOf(dev);
    ghost var chain := mem[vector..vector + 16];
    ghost var job := AesJob(m, CTR, mode, key, keysize);
    var size, k := LoadAesKey(mem, key, keysize);
    var v := LoadVector16(mem, vector, AesIdOf(keysize));
    dev.KeyInit(k);
    dev.Init(AES_CTR, Type8b, size, AesDirection(mode));
    dev.IVInit(v);
    ok := RunJob(dev, mem, true, input, length, output, job, chain, e);
  }

  /** The job CRYP_DES_* or CRYP_TDES_* is asked for: 8 or 24 key bytes from K1 on. */
  function DesJob(mem: seq<byte>, c: CipherId, chain: Chain, mode: bv8, key: nat): Job
    requires c.DES? || c.TDES?
    requires key + DesKeyBytes(c) <= |mem|
  {
    Job(c, chain, DesDirection(mode), PlacedKey(mem, key, DesKeyBytes(c), 8), true)
  }

  function DesKeyBytes(c: CipherId): nat { if c.DES? then 8 else 24 }

  /** The job CRYP_DES_* or CRYP_TDES_* is asked for: encryption for mode 1, the key bytes after the 8 of K0. */
  lemma DesJobIs(mem: seq<byte>, c: CipherId, chain: Chain, mode: bv8, key: nat)
    requires (c.DES? && key + 8 <= |mem|) || (c.TDES? && key + 24 <= |mem|)
    ensures var j := DesJob(mem, c, chain, mode, key);
            && j.id == c && j.chain == chain && j.dir == (if mode == 1 then Encrypt else Decrypt)
            && (c.DES? ==> j.key.Image() == seq(8, i => 0) + mem[key..key + 8] + seq(16, i => 0))
            && (c.TDES? ==> j.key.Image() == seq(8, i => 0) + mem[key..key + 24])
  {
    var n := if c.DES? then 8 else 24;
    ImagePlaced(mem, key, n, 8);
    assert Zeros(8) == seq(8, i => 0) && Zeros(16) == seq(16, i => 0);
    assert Zeros(8) + mem[key..key + n] + Zeros(0) == Zeros(8) + mem[key..key + n];
  }

  method LoadDesKey(mem: array<byte>, keyaddr: nat) returns (k: KeyRegs)
    requires keyaddr + 8 <= mem.Length
    ensures k == PlacedKey(mem[..], keyaddr, 8, 8)
  {
    k := ZERO_KEY.(k1l := Load(mem[..], keyaddr).Rev(), k1r := Load(mem[..], keyaddr + 4).Rev());
    PlacedWords(mem[..], keyaddr, 8, 8);
  }

  method LoadTdesKey(mem: array<byte>, keyaddr: nat) returns (k: KeyRegs)
    requires keyaddr + 24 <= mem.Length
    ensures k == PlacedKey(mem[..], keyaddr, 24, 8)
  {
    k := ZERO_KEY.(k1l := Load(mem[..], keyaddr).Rev(), k1r := Load(mem[..], keyaddr + 4).Rev(),
                   k2l := Load(mem[..], keyaddr + 8).Rev(), k2r := Load(mem[..], keyaddr + 12).Rev(),
                   k3l := Load(mem[..], keyaddr + 16).Rev(), k3r := Load(mem[..], keyaddr + 20).Rev());
    PlacedWords(mem[..], keyaddr, 24, 8);
  }

  /** CRYP_DES_ECB. */
  method DesEcb(dev: Cryp, mem: array<byte>, mode: bv8, key: nat, input: nat, length: nat, output: nat) returns (ok: bool)
    requires dev.Valid() && key + DesKeyBytes(DES) <= mem.Length && Fits(DES, mem.Length, input, length, output)
    modifies dev, mem
    ensures Driven(dev.core, DesJob(old(mem[..]), DES, ECB, mode, key), ChainOfIv(DES, old(SoonIv(dev.Now()))),
                   old(mem[..]), mem[..], input, output, BlockCount(DES, length), old(EntryOf(dev)), ok)
    ensures dev.Valid()
    ensures Leaves(dev.core, DesJob(old(mem[..]), DES, ECB, mode, key), ChainOfIv(DES, old(SoonIv(dev.Now()))),
                   old(mem[..]), input, output, BlockCount(DES, length), old(EntryOf(dev)), EntryOf(dev))
    ensures SoonIv(dev.Now()) == old(SoonIv(dev.Now()))
    ensures Peaked(dev, old(dev.peakIn), old(dev.peakOut), old(dev.activity), DES)
    ensures dev.polls <= old(dev.polls) + BUSY_TIMEOUT * BlockCount(DES, length)
  {
    hide Sound, AtHead, Step, ChainOfIv, LagStream, Performed, Driven, Leaves, PlacedKey, BlockCount, Span, Load,
      Fits, ScheduleAfter, PreparationTime, Begins, Cryp.Valid, KeySize.Bits;
    ghost var m, e := mem[..], EntryOf(dev);
    ghost var chain := ChainOfIv(DES, SoonIv(dev.Now()));
    ghost var job := DesJob(m, DES, ECB, mode, key);
    dev.Init(DES_ECB, Type8b, Key128b, DesDirection(mode));
    var k := LoadDesKey(mem, key);
    dev.KeyInit(k);
    ok := RunJob(dev, mem, true, input, length, output, job, chain, e);
  }

  method LoadVector8(mem: array<byte>, a: nat, ghost c: CipherId, rest: (Word, Word)) returns (v: IvRegs)
    requires a + 8 <= mem.Length && !IsAes(c)
    ensures ChainOfIv(c, v) == mem[a..a + 8]
  {
    v := IvRegs(Load(mem[..], a).Rev(), Load(mem[..], a + 4).Rev(), rest.0, rest.1);
    VectorLoaded(c, v, mem[..], a);
    assert mem[..][a..a + 8] == mem[a..a + 8];
  }

  /** CRYP_DES_CBC. The second vector register pair is loaded with the uninitialised rest of the structure. */
  method DesCbc(dev: Cryp, mem: array<byte>, mode: bv8, key: nat, vector: nat, input: nat, length: nat, output: nat,
                rest: (Word, Word))
    returns (ok: bool)
    requires dev.Valid() && key + DesKeyBytes(DES) <= mem.Length && vector + 8 <= mem.Length
    requires Fits(DES, mem.Length, input, length, output)
    modifies dev, mem
    ensures Driven(dev.core, DesJob(old(mem[..]), DES, CBC, mode, key), old(mem[vector..vector + 8]),
                   old(mem[..]), mem[..], input, output, BlockCount(DES, length), old(EntryOf(dev)), ok)
    ensures dev.Valid()
    ensures Leaves(dev.core, DesJob(old(mem[..]), DES, CBC, mode, key), old(mem[vector..vector + 8]),
                   old(mem[..]), input, output, BlockCount(DES, length), old(EntryOf(dev)), EntryOf(dev))
    ensures Peaked(dev, old(dev.peakIn), old(dev.peakOut), old(dev.activity), DES)
    ensures dev.polls <= old(dev.polls) + BUSY_TIMEOUT * BlockCount(DES, length)
  {
    hide Sound, AtHead, Step, ChainOfIv, LagStream, Performed, Driven, Leaves, PlacedKey, BlockCount, Span, Load,
      Fits, ScheduleAfter, PreparationTime, Begins, Cryp.Valid, KeySize.Bits;
    ghost var m, e := mem[..], EntryOf(dev);
    ghost var chain := mem[vector..vector + 8];
    ghost var job := DesJob(m, DES, CBC, mode, key);
    dev.Init(DES_CBC, Type8b, Key128b, DesDirection(mode));
    var k := LoadDesKey(mem, key);
    dev.KeyInit(k);
    var v := LoadVector8(mem, vector, DES, rest);
    dev.IVInit(v);
    ok := RunJob(dev, mem, true, input, length, output, job, chain, e);
  }

  /** CRYP_TDES_ECB. */
  method TdesEcb(dev: Cryp, mem: array<byte>, mode: bv8, key: nat, input: nat, length: nat, output: nat) returns (ok: bool)
    requires dev.Valid() && key + DesKeyBytes(TDES) <= mem.Length && Fits(TDES, mem.Length, input, length, output)
    modifies dev, mem
    ensures Driven(dev.core, DesJob(old(mem[..]), TDES, ECB, mode, key), ChainOfIv(TDES, old(SoonIv(dev.Now()))),
                   old(mem[..]), mem[..], input, output, BlockCount(TDES, length), old(EntryOf(dev)), ok)
    ensures dev.Valid()
    ensures Leaves(dev.core, DesJob(old(mem[..]), TDES, ECB, mode, key), ChainOfIv(TDES, old(SoonIv(dev.Now()))),
                   old(mem[..]), input, output, BlockCount(TDES, length), old(EntryOf(dev)), EntryOf(dev))
    ensures SoonIv(dev.Now()) == old(SoonIv(dev.Now()))
    ensures Peaked(dev, old(dev.peakIn), old(dev.peakOut), old(dev.activity), TDES)
    ensures dev.polls <= old(dev.polls) + BUSY_TIMEOUT * BlockCount(TDES, length)
  {
    hide Sound, AtHead, Step, ChainOfIv, LagStream, Performed, Driven, Leaves, PlacedKey, BlockCount, Span, Load,
      Fits, ScheduleAfter, PreparationTime, Begins, Cryp.Valid, KeySize.Bits;
    ghost var m, e := mem[..], EntryOf(dev);
    ghost var chain := ChainOfIv(TDES, SoonIv(dev.Now()));
    ghost var job := DesJob(m, TDES, ECB, mode, key);
    dev.Init(TDES_ECB, Type8b, Key128b, DesDirection(mode));
    var k := LoadTdesKey(mem, key);
    dev.KeyInit(k);
    ok := RunJob(dev, mem, true, input, length, output, job, chain, e);
  }

  /** CRYP_TDES_CBC. The second vector register pair is loaded with the uninitialised rest of the structure. */
  method TdesCbc(dev: Cryp, mem: array<byte>, mode: bv8, key: nat, vector: nat, input: nat, length: nat, output: nat,
                rest: (Word, Word))
    returns (ok: bool)
    requires dev.Valid() && key + DesKeyBytes(TDES) <= mem.Length && vector + 8 <= mem.Length
    requires Fits(TDES, mem.Length, input, length, output)
    modifies dev, mem
    ensures Driven(dev.core, DesJob(old(mem[..]), TDES, CBC, mode, key), old(mem[vector..vector + 8]),
                   old(mem[..]), mem[..], input, output, BlockCount(TDES, length), old(EntryOf(dev)), ok)
    ensures dev.Valid()
    ensures Leaves(dev.core, DesJob(old(mem[..]), TDES, CBC, mode, key), old(mem[vector..vector + 8]),
                   old(mem[..]), input, output, BlockCount(TDES, length), old(EntryOf(dev)), EntryOf(dev))
    ensures Peaked(dev, old(dev.peakIn), old(dev.peakOut), old(dev.activity), TDES)
    ensures dev.polls <= old(dev.polls) + BUSY_TIMEOUT * BlockCount(TDES, length)
  {
    hide Sound, AtHead, Step, ChainOfIv, LagStream, Performed, Driven, Leaves, PlacedKey, BlockCount, Span, Load,
      Fits, ScheduleAfter, PreparationTime, Begins, Cryp.Valid, KeySize.Bits;
    ghost var m, e := mem[..], EntryOf(dev);
    ghost var chain := mem[vector..vector + 8];
    ghost var job := DesJob(m, TDES, CBC, mode, key);
    dev.Init(TDES_CBC, Type8b, Key128b, DesDirection(mode));
    var k := LoadTdesKey(mem, key);
    dev.KeyInit(k);
    var v := LoadVector8(mem, vector, TDES, rest);
    dev.IVInit(v);
    ok := RunJob(dev, mem, true, input, length, output, job, chain, e);
  }
}
