/**
 The ADC sequencers: sixteen regular ranks in SQR1-3 with the length in SQR1, nineteen sample times in
 SMPR1-2, and up to four injected ranks in JSQR, right-aligned below their length.
 */
module Adc {
  import opened Fields

  const SQ_SET: bv32 := 0x1F
  const SMP_SET: bv32 := 0x07
  const SQR1_L_RESET: bv32 := 0xFF0F_FFFF
  const JSQR_JL_SET: bv32 := 0x0030_0000
  const JSQR_JL_RESET: bv32 := 0xFFCF_FFFF

  datatype Regs = Regs(sqr1: bv32, sqr2: bv32, sqr3: bv32, smpr1: bv32, smpr2: bv32, jsqr: bv32)

  // ---- What the registers mean ----

  /** The channel of a regular rank, 1 to 16. */
  function Rank(r: Regs, k: bv32): bv32
    requires 1 <= k <= 16
  {
    if k < 7 then Get(r.sqr3, 5 * (k - 1), 5)
    else if k < 13 then Get(r.sqr2, 5 * (k - 7), 5)
    else Get(r.sqr1, 5 * (k - 13), 5)
  }

  /** The number of regular conversions, less one. */
  function L(r: Regs): bv32 { Get(r.sqr1, 20, 4) }

  /** The sample time of a channel. */
  function Time(r: Regs, c: bv32): bv32
    requires c <= 18
  {
    if c > 9 then Get(r.smpr1, 3 * (c - 10), 3) else Get(r.smpr2, 3 * c, 3)
  }

  /** The number of injected conversions, less one. */
  function JL(r: Regs): bv32 { Get(r.jsqr, 20, 2) }

  /** The field JSQ(p+1). The sequencer converts the last JL+1 of the four. */
  function Jsq(r: Regs, p: bv32): bv32
    requires p < 4
  {
    Get(r.jsqr, 5 * p, 5)
  }

  /** The channel converted as injected rank k of a sequence of JL+1. */
  function InjectedRank(r: Regs, k: bv32): bv32
    requires 1 <= k <= JL(r) + 1 <= 4
  {
    Jsq(r, k + 2 - JL(r))
  }

  // ---- The calls and what they do ----

  datatype Call =
    | Regular(channel: bv32, rank: bv32, time: bv32)
    | Length(length: bv32)
    | Injected(channel: bv32, rank: bv32, time: bv32)
    | InjectedLength(length: bv32)

  /** The parameter checks of the four functions. */
  predicate Allowed(c: Call) {
    match c
    case Regular(channel, rank, time) => channel <= 18 && 1 <= rank <= 16 && time <= 7
    case Length(length) => 1 <= length <= 16
    case Injected(channel, rank, time) => channel <= 18 && 1 <= rank <= 4 && time <= 7
    case InjectedLength(length) => 1 <= length <= 4
  }

  type Config = c: Call | Allowed(c) witness Length(1)

  function SetRank(r: Regs, k: bv32, channel: bv32): (r': Regs)
    requires 1 <= k <= 16
    ensures r'.smpr1 == r.smpr1 && r'.smpr2 == r.smpr2 && r'.jsqr == r.jsqr
  {
    if k < 7 then r.(sqr3 := Put(r.sqr3, 5 * (k - 1), 5, channel))
    else if k < 13 then r.(sqr2 := Put(r.sqr2, 5 * (k - 7), 5, channel))
    else r.(sqr1 := Put(r.sqr1, 5 * (k - 13), 5, channel))
  }

  function SetTime(r: Regs, c: bv32, time: bv32): (r': Regs)
    requires c <= 18
    ensures r'.sqr1 == r.sqr1 && r'.sqr2 == r.sqr2 && r'.sqr3 == r.sqr3 && r'.jsqr == r.jsqr
  {
    if c > 9 then r.(smpr1 := Put(r.smpr1, 3 * (c - 10), 3, time)) else r.(smpr2 := Put(r.smpr2, 3 * c, 3, time))
  }

  /** Where ADC_InjectedChannelConfig writes: for a rank above the length this is past JSQ4. */
  function Place(jl: bv32, rank: bv32): bv32 {
    rank + 2 - jl
  }

  function SetInjected(r: Regs, rank: bv32, channel: bv32): Regs
    requires 1 <= rank <= 4 && JL(r) <= 3
  {
    r.(jsqr := Put(r.jsqr, 5 * Place(JL(r), rank), 5, channel))
  }

  lemma JLBound(r: Regs)
    ensures JL(r) <= 3
  {
    GetBound(r.jsqr, 20, 2);
  }

  // ---- Where the registers keep the sequences ----

  /** Six ranks of five bits in each of SQR3, SQR2 and SQR1, from the first on, and the length in bits 23:20 of SQR1. */
  lemma RankPlaces(r: Regs, p: bv32, q: bv32)
    requires p < 3 && q < 6 && 6 * p + q < 16
    ensures Rank(r, 6 * p + q + 1) == Get(if p == 0 then r.sqr3 else if p == 1 then r.sqr2 else r.sqr1, 5 * q, 5)
    ensures L(r) == Get(r.sqr1, 20, 4)
  {
    hide Get;
  }

  /** Ten sample times of three bits in SMPR2, for the channels 0 to 9, and nine in SMPR1, for 10 to 18. */
  lemma TimePlaces(r: Regs, p: bv32, q: bv32)
    requires p < 2 && q < 10 && 10 * p + q <= 18
    ensures Time(r, 10 * p + q) == Get(if p == 0 then r.smpr2 else r.smpr1, 3 * q, 3)
  {
    hide Get;
  }

  /** The injected conversions end with JSQ4, bits 19:15 of JSQR, whatever their number, and the length is in bits 21:20. */
  lemma InjectedPlaces(r: Regs, i: bv32)
    requires i <= JL(r)
    ensures JL(r) <= 3 && InjectedRank(r, JL(r) + 1 - i) == Get(r.jsqr, 15 - 5 * i, 5)
    ensures JL(r) == Get(r.jsqr, 20, 2)
  {
    JLBound(r);
    LastFirst(JL(r), i);
    hide Get;
  }

  lemma LastFirst(jl: bv32, i: bv32)
    requires i <= jl <= 3
    ensures 1 <= jl + 1 - i <= jl + 1 <= 4 && 5 * ((jl + 1 - i) + 2 - jl) == 15 - 5 * i
  {
  }

  function Step(r: Regs, c: Config): Regs {
    match c
    case Regular(channel, rank, time) => SetRank(SetTime(r, channel, time), rank, channel)
    case Length(length) => r.(sqr1 := Put(r.sqr1, 20, 4, length - 1))
    case Injected(channel, rank, time) => JLBound(r); SetInjected(SetTime(r, channel, time), rank, channel)
    case InjectedLength(length) => r.(jsqr := Put(r.jsqr, 20, 2, length - 1))
  }

  function Run(r: Regs, calls: seq<Config>): Regs {
    if calls == [] then r else Step(Run(r, calls[..|calls| - 1]), calls[|calls| - 1])
  }

  // ---- One field changes, the others stay ----

  lemma SetRankRank(r: Regs, k: bv32, channel: bv32, j: bv32)
    requires 1 <= k <= 16 && 1 <= j <= 16 && channel <= 18
    ensures Rank(SetRank(r, k, channel), j) == if j == k then channel else Rank(r, j)
  {
    hide Get, Put;
    assert Ones(5) == 0x1F;
    if k < 7 {
      RankField(r.sqr3, k - 1, channel, j - 1);
    } else if k < 13 {
      RankField(r.sqr2, k - 7, channel, j - 7);
    } else {
      RankField(r.sqr1, k - 13, channel, j - 13);
    }
  }

  lemma RankField(x: bv32, p: bv32, channel: bv32, q: bv32)
    requires p < 6 && channel <= 0x1F
    ensures q < 6 ==> Get(Put(x, 5 * p, 5, channel), 5 * q, 5) == if q == p then channel else Get(x, 5 * q, 5)
  {
    hide Get, Put;
    if q == p {
      GetPut(x, 5 * p, 5, channel);
    } else if q < 6 {
      Frame(x, 5 * p, 5, channel, 5 * q, 5);
    }
  }

  lemma SetRankLength(r: Regs, k: bv32, channel: bv32)
    requires 1 <= k <= 16 && channel <= 18
    ensures L(SetRank(r, k, channel)) == L(r)
  {
    hide Get, Put;
    if k >= 13 {
      Frame(r.sqr1, 5 * (k - 13), 5, channel, 20, 4);
    }
  }

  lemma SetLength(r: Regs, length: bv32, j: bv32)
    requires 1 <= length <= 16 && 1 <= j <= 16
    ensures var r' := r.(sqr1 := Put(r.sqr1, 20, 4, length - 1));
            L(r') == length - 1 && Rank(r', j) == Rank(r, j)
  {
    hide Get, Put;
    GetPut(r.sqr1, 20, 4, length - 1);
    if j >= 13 {
      Frame(r.sqr1, 20, 4, length - 1, 5 * (j - 13), 5);
    }
  }

  lemma SetTimeTime(r: Regs, c: bv32, time: bv32, d: bv32)
    requires c <= 18 && d <= 18 && time <= 7
    ensures Time(SetTime(r, c, time), d) == if d == c then time else Time(r, d)
  {
    hide Get, Put;
    if c > 9 {
      TimeField(r.smpr1, c - 10, time, d - 10);
    } else {
      TimeField(r.smpr2, c, time, d);
    }
  }

  lemma TimeField(x: bv32, p: bv32, time: bv32, q: bv32)
    requires p < 10 && time <= 7
    ensures q < 10 ==> Get(Put(x, 3 * p, 3, time), 3 * q, 3) == if q == p then time else Get(x, 3 * q, 3)
  {
    hide Get, Put;
    if q == p {
      GetPut(x, 3 * p, 3, time);
    } else if q < 10 {
      Frame(x, 3 * p, 3, time, 3 * q, 3);
    }
  }

  lemma InjectedField(x: bv32, p: bv32, channel: bv32, q: bv32)
    requires p < 4 && q < 4 && channel <= 0x1F
    ensures Get(Put(x, 5 * p, 5, channel), 20, 2) == Get(x, 20, 2)
    ensures Get(Put(x, 5 * p, 5, channel), 5 * q, 5) == if q == p then channel else Get(x, 5 * q, 5)
  {
    hide Get, Put;
    RankField(x, p, channel, q);
    Frame(x, 5 * p, 5, channel, 20, 2);
  }

  lemma InjectedLengthField(x: bv32, jl: bv32, q: bv32)
    requires q < 4 && jl <= 3
    ensures Get(Put(x, 20, 2, jl), 20, 2) == jl && Get(Put(x, 20, 2, jl), 5 * q, 5) == Get(x, 5 * q, 5)
  {
    hide Get, Put;
    GetPut(x, 20, 2, jl);
    Frame(x, 20, 2, jl, 5 * q, 5);
  }

  // ---- Whole sequences of calls: every entry holds its last write ----

  function LastChannel(calls: seq<Config>, k: bv32, before: bv32): bv32 {
    if calls == [] then before else
      match calls[|calls| - 1]
      case Regular(channel, rank, _) => if rank == k then channel else LastChannel(calls[..|calls| - 1], k, before)
      case _ => LastChannel(calls[..|calls| - 1], k, before)
  }

  function LastLength(calls: seq<Config>, before: bv32): bv32 {
    if calls == [] then before else
      match calls[|calls| - 1]
      case Length(length) => length - 1
      case _ => LastLength(calls[..|calls| - 1], before)
  }

  function LastTime(calls: seq<Config>, c: bv32, before: bv32): bv32 {
    if calls == [] then before else
      match calls[|calls| - 1]
      case Regular(channel, _, time) => if channel == c then time else LastTime(calls[..|calls| - 1], c, before)
      case Injected(channel, _, time) => if channel == c then time else LastTime(calls[..|calls| - 1], c, before)
      case _ => LastTime(calls[..|calls| - 1], c, before)
  }

  /** The sixteen ranks and their number, whatever is called in whatever order. */
  lemma {:induction false} RegularTable(r: Regs, calls: seq<Config>, k: bv32)
    requires 1 <= k <= 16
    ensures Rank(Run(r, calls), k) == LastChannel(calls, k, Rank(r, k))
    ensures L(Run(r, calls)) == LastLength(calls, L(r))
  {
    if calls != [] {
      hide Rank, L, SetRank, SetTime, Get, Put;
      RegularTable(r, calls[..|calls| - 1], k);
      RegularStep(Run(r, calls[..|calls| - 1]), calls[|calls| - 1], k);
    }
  }

  lemma RegularStep(r: Regs, c: Config, k: bv32)
    requires 1 <= k <= 16
    ensures Rank(Step(r, c), k) == if c.Regular? && c.rank == k then c.channel else Rank(r, k)
    ensures L(Step(r, c)) == if c.Length? then c.length - 1 else L(r)
  {
    match c
    case Regular(channel, rank, time) =>
      hide Get, Put, SetTime, SetRank, Rank;
      var r1 := SetTime(r, channel, time);
      SameRank(r, r1, k);
      SetRankRank(r1, rank, channel, k);
      SetRankLength(r1, rank, channel);
    case Length(length) =>
      hide Get, Put, Rank;
      SetLength(r, length, k);
    case Injected(channel, rank, time) =>
      hide Get, Put, SetTime, Rank;
      SameRank(r, Step(r, c), k);
    case InjectedLength(length) =>
      hide Get, Put, Rank;
      SameRank(r, Step(r, c), k);
  }

  lemma SameRank(r: Regs, r': Regs, k: bv32)
    requires 1 <= k <= 16 && r'.sqr1 == r.sqr1 && r'.sqr2 == r.sqr2 && r'.sqr3 == r.sqr3
    ensures Rank(r', k) == Rank(r, k)
  {
    hide Get;
  }

  /** The nineteen sample times, set by regular and injected configuration alike. */
  lemma {:induction false} TimeTable(r: Regs, calls: seq<Config>, c: bv32)
    requires c <= 18
    ensures Time(Run(r, calls), c) == LastTime(calls, c, Time(r, c))
  {
    if calls != [] {
      hide Time, SetRank, SetTime, Get, Put;
      TimeTable(r, calls[..|calls| - 1], c);
      TimeStep(Run(r, calls[..|calls| - 1]), calls[|calls| - 1], c);
    }
  }

  lemma TimeStep(r: Regs, e: Config, c: bv32)
    requires c <= 18
    ensures Time(Step(r, e), c) == if (e.Regular? || e.Injected?) && e.channel == c then e.time else Time(r, c)
  {
    hide Get, Put;
    match e
    case Regular(channel, rank, time) => SetTimeTime(r, channel, time, c);
    case Length(length) =>
    case Injected(channel, rank, time) => SetTimeTime(r, channel, time, c);
    case InjectedLength(length) =>
  }

  // ---- The injected sequence ----

  /** JL as the length calls alone set it. */
  function LastJL(calls: seq<Config>, before: bv32): bv32 {
    if calls == [] then before else
      match calls[|calls| - 1]
      case InjectedLength(length) => length - 1
      case _ => LastJL(calls[..|calls| - 1], before)
  }

  /** Every injected rank configured is at most the length set at that time. */
  ghost predicate WithinLength(calls: seq<Config>, jl: bv32) {
    forall i :: 0 <= i < |calls| && calls[i].Injected? ==> calls[i].rank <= LastJL(calls[..i], jl) + 1
  }

  function LastJsq(calls: seq<Config>, jl: bv32, p: bv32, before: bv32): bv32 {
    if calls == [] then before else
      var earlier := calls[..|calls| - 1];
      match calls[|calls| - 1]
      case Injected(channel, rank, _) =>
        if Place(LastJL(earlier, jl), rank) == p then channel else LastJsq(earlier, jl, p, before)
      case _ => LastJsq(earlier, jl, p, before)
  }

  /** With every rank within the length, JL is what was last set and each JSQ field holds the last channel placed in it. */
  lemma {:induction false} InjectedTable(r: Regs, calls: seq<Config>, p: bv32)
    requires p < 4 && WithinLength(calls, JL(r))
    ensures JL(Run(r, calls)) == LastJL(calls, JL(r))
    ensures Jsq(Run(r, calls), p) == LastJsq(calls, JL(r), p, Jsq(r, p))
  {
    if calls != [] {
      hide JL, Jsq, Place, WithinLength, Step;
      WithinEarlier(calls, JL(r));
      InjectedTable(r, calls[..|calls| - 1], p);
      InjectedNext(r, calls, p, Run(r, calls[..|calls| - 1]));
    }
  }

  lemma InjectedNext(r: Regs, calls: seq<Config>, p: bv32, r1: Regs)
    requires p < 4 && calls != []
    requires var earlier, c := calls[..|calls| - 1], calls[|calls| - 1];
             && JL(r1) == LastJL(earlier, JL(r)) && Jsq(r1, p) == LastJsq(earlier, JL(r), p, Jsq(r, p))
             && (c.Injected? ==> c.rank <= JL(r1) + 1)
    ensures var r2 := Step(r1, calls[|calls| - 1]);
            JL(r2) == LastJL(calls, JL(r)) && Jsq(r2, p) == LastJsq(calls, JL(r), p, Jsq(r, p))
  {
    hide JL, Jsq, Place, Step;
    InjectedStep(r1, calls[|calls| - 1], p);
  }

  lemma WithinEarlier(calls: seq<Config>, jl: bv32)
    requires calls != [] && WithinLength(calls, jl)
    ensures var n := |calls| - 1;
            && WithinLength(calls[..n], jl)
            && (calls[n].Injected? ==> calls[n].rank <= LastJL(calls[..n], jl) + 1)
  {
    var earlier := calls[..|calls| - 1];
    assert forall i :: 0 <= i < |earlier| ==> earlier[..i] == calls[..i];
  }

  lemma InjectedStep(r: Regs, c: Config, p: bv32)
    requires p < 4 && (c.Injected? ==> c.rank <= JL(r) + 1)
    ensures JL(Step(r, c)) == if c.InjectedLength? then c.length - 1 else JL(r)
    ensures Jsq(Step(r, c), p) == if c.Injected? && Place(JL(r), c.rank) == p then c.channel else Jsq(r, p)
  {
    JLBound(r);
    match c
    case Regular(channel, rank, time) =>
      hide Get, Put, SetTime, SetRank, Place;
    case Length(length) =>
      hide Get, Put, Place;
    case Injected(channel, rank, time) =>
      hide JL, Jsq, Put, SetTime, SetInjected, Place;
      var r1 := SetTime(r, channel, time);
      SameJsqr(r, r1, p);
      SetInjectedFields(r1, rank, channel, p);
    case InjectedLength(length) =>
      hide Get, Put, Place;
      InjectedLengthField(r.jsqr, length - 1, p);
  }

  lemma SameJsqr(r: Regs, r': Regs, p: bv32)
    requires p < 4 && r'.jsqr == r.jsqr
    ensures JL(r') == JL(r) && Jsq(r', p) == Jsq(r, p)
  {
  }

  lemma SetInjectedFields(r: Regs, rank: bv32, channel: bv32, p: bv32)
    requires p < 4 && 1 <= rank <= 4 && channel <= 18 && JL(r) <= 3 && rank <= JL(r) + 1
    ensures JL(SetInjected(r, rank, channel)) == JL(r)
    ensures Jsq(SetInjected(r, rank, channel), p) == if Place(JL(r), rank) == p then channel else Jsq(r, p)
  {
    hide Get, Put, Place;
    PlaceWithin(JL(r), rank);
    InjectedField(r.jsqr, Place(JL(r), rank), channel, p);
  }

  lemma PlaceWithin(jl: bv32, rank: bv32)
    requires jl <= 3 && 1 <= rank <= jl + 1
    ensures Place(jl, rank) < 4
  {
  }

  function LastInjected(calls: seq<Config>, k: bv32, before: bv32): bv32 {
    if calls == [] then before else
      match calls[|calls| - 1]
      case Injected(channel, rank, _) => if rank == k then channel else LastInjected(calls[..|calls| - 1], k, before)
      case _ => LastInjected(calls[..|calls| - 1], k, before)
  }

  /**
   The order of use the driver is made for: the length first, then the ranks 1 to n in any order. The sequencer converts,
   as rank k, the channel last configured for rank k.
   */
  lemma InjectedSequence(r: Regs, n: bv32, calls: seq<Config>, k: bv32)
    requires 1 <= k <= n <= 4
    requires forall c :: c in calls ==> !c.InjectedLength? && (c.Injected? ==> c.rank <= n)
    ensures var r0 := Step(r, InjectedLength(n));
            var r1 := Run(r0, calls);
            && JL(r0) == JL(r1) == n - 1
            && InjectedRank(r1, k) == LastInjected(calls, k, InjectedRank(r0, k))
  {
    var r0 := Step(r, InjectedLength(n));
    InjectedStep(r, InjectedLength(n), 0);
    hide JL, Jsq, SetInjected, Get, Put, Step;
    SameLength(calls, n - 1);
    InjectedTable(r0, calls, k + 2 - JL(r0));
    SamePlace(calls, n - 1, k, Jsq(r0, k + 2 - JL(r0)));
  }

  lemma {:induction false} SameLength(calls: seq<Config>, jl: bv32)
    requires forall c :: c in calls ==> !c.InjectedLength?
    ensures LastJL(calls, jl) == jl
    ensures jl <= 3 && (forall c :: c in calls && c.Injected? ==> c.rank <= jl + 1) ==> WithinLength(calls, jl)
  {
    if calls != [] {
      SameLength(calls[..|calls| - 1], jl);
    }
    forall i | 0 <= i < |calls| && calls[i].Injected? ensures LastJL(calls[..i], jl) == jl {
      SameLength(calls[..i], jl);
    }
  }

  lemma {:induction false} SamePlace(calls: seq<Config>, jl: bv32, k: bv32, before: bv32)
    requires 1 <= k <= jl + 1 <= 4
    requires forall c :: c in calls ==> !c.InjectedLength? && (c.Injected? ==> c.rank <= jl + 1)
    ensures LastJsq(calls, jl, k + 2 - jl, before) == LastInjected(calls, k, before)
  {
    if calls != [] {
      SamePlace(calls[..|calls| - 1], jl, k, before);
      SameLength(calls[..|calls| - 1], jl);
    }
  }

  /**
   A rank just above the length is written where JL lies, though the parameter check allows it:
   the length survives iff the rank is another one or the channel's low bits happen to be JL.
   */
  lemma LengthSurvives(r: Regs, channel: bv32, rank: bv32, time: bv32)
    requires channel <= 18 && 1 <= rank <= 4 && time <= 7
    ensures JL(Step(r, Injected(channel, rank, time))) == JL(r) <==>
            rank != JL(r) + 2 || channel & 3 == JL(r)
  {
    JLBound(r);
    PlaceOnLength(r.jsqr, Place(JL(r), rank), channel);
    hide Get, Put;
  }

  /** From reset: after length 2, configuring rank 3 for channel 2 makes the length 3, though no call asked for it. */
  lemma LengthLost()
    ensures var r1 := Step(Regs(0, 0, 0, 0, 0, 0), InjectedLength(2));
            var r2 := Step(r1, Injected(2, 3, 0));
            JL(r1) == 1 && JL(r2) == 2
  {
    var r1 := Step(Regs(0, 0, 0, 0, 0, 0), InjectedLength(2));
    InjectedStep(Regs(0, 0, 0, 0, 0, 0), InjectedLength(2), 0);
    PlaceOnLength(SetTime(r1, 2, 0).jsqr, 4, 2);
    hide Get, Put;
  }

  lemma PlaceOnLength(x: bv32, p: bv32, channel: bv32)
    requires p <= 6 && channel <= 18
    ensures Get(Put(x, 5 * p, 5, channel), 20, 2) == if p == 4 then channel & 3 else Get(x, 20, 2)
  {
    if p == 4 {} else if p == 5 {} else if p == 6 {} else {
      InjectedField(x, p, channel, 0);
    }
  }

  // ---- The driver ----

  /** The clear masks of the source, as wide as the fields. */
  lemma ClearMasks()
    ensures SQ_SET == Ones(5) && SMP_SET == Ones(3)
  {
  }

  lemma LengthMask(x: bv32)
    ensures And(x, SQR1_L_RESET) == AndNot(x, Mask(20, 4))
  {
  }

  lemma InjectedLengthMask(x: bv32)
    ensures And(x, JSQR_JL_RESET) == AndNot(x, Mask(20, 2))
  {
  }

  lemma PlaceIs(jl: bv32, rank: bv32)
    requires jl <= 3 && 1 <= rank <= 4
    ensures 5 * ((rank + 3) - (jl + 1)) == 5 * Place(jl, rank) <= 30
  {
  }

  lemma ReadJL(x: bv32)
    ensures (x & JSQR_JL_SET) >> 20 == Get(x, 20, 2)
  {
  }

  class Adc {
    var sqr1: bv32
    var sqr2: bv32
    var sqr3: bv32
    var smpr1: bv32
    var smpr2: bv32
    var jsqr: bv32

    function R(): Regs
      reads this
    {
      Regs(sqr1, sqr2, sqr3, smpr1, smpr2, jsqr)
    }

    constructor (r: Regs)
      ensures R() == r
    {
      sqr1, sqr2, sqr3, smpr1, smpr2, jsqr := r.sqr1, r.sqr2, r.sqr3, r.smpr1, r.smpr2, r.jsqr;
    }

    /** ADC_RegularChannelConfig. */
    method RegularChannelConfig(channel: bv32, rank: bv32, time: bv32)
      requires channel <= 18 && 1 <= rank <= 16 && time <= 7
      modifies this
      ensures R() == Step(old(R()), Regular(channel, rank, time))
    {
      hide Get, Put, Ones, SetTime;
      ClearMasks();
      SampleTime(channel, time);
      if rank < 7 {
        sqr3 := ClearThenSet(sqr3, SQ_SET, 5 * (rank - 1), channel, 5);
      } else if rank < 13 {
        sqr2 := ClearThenSet(sqr2, SQ_SET, 5 * (rank - 7), channel, 5);
      } else {
        sqr1 := ClearThenSet(sqr1, SQ_SET, 5 * (rank - 13), channel, 5);
      }
    }

    /** The first part of both channel configurations. */
    method SampleTime(channel: bv32, time: bv32)
      requires channel <= 18 && time <= 7
      modifies this
      ensures R() == SetTime(old(R()), channel, time)
    {
      hide Get, Put, Ones;
      ClearMasks();
      if channel > 9 {
        smpr1 := ClearThenSet(smpr1, SMP_SET, 3 * (channel - 10), time, 3);
      } else {
        smpr2 := ClearThenSet(smpr2, SMP_SET, 3 * channel, time, 3);
      }
    }

    /** The sequencer length of ADC_Init. */
    method SequenceLength(nbrOfConversion: bv32)
      requires 1 <= nbrOfConversion <= 16
      modifies this
      ensures R() == Step(old(R()), Length(nbrOfConversion))
    {
      hide And, Or, AndNot, Shl, Mask;
      LengthMask(sqr1);
      var tmpreg1 := sqr1;
      tmpreg1 := And(tmpreg1, SQR1_L_RESET);
      var tmpreg2 := nbrOfConversion - 1;
      tmpreg1 := Or(tmpreg1, Shl(tmpreg2, 20));
      sqr1 := tmpreg1;
    }

    /** ADC_InjectedChannelConfig. */
    method InjectedChannelConfig(channel: bv32, rank: bv32, time: bv32)
      requires channel <= 18 && 1 <= rank <= 4 && time <= 7
      modifies this
      ensures R() == Step(old(R()), Injected(channel, rank, time))
    {
      hide Get, Put, Ones, SetTime;
      ClearMasks();
      JLBound(R());
      SampleTime(channel, time);
      ReadJL(jsqr);
      var tmpreg3 := (jsqr & JSQR_JL_SET) >> 20;
      PlaceIs(tmpreg3, rank);
      jsqr := ClearThenSet(jsqr, SQ_SET, 5 * ((rank + 3) - (tmpreg3 + 1)), channel, 5);
    }

    /** ADC_InjectedSequencerLengthConfig. */
    method InjectedSequencerLengthConfig(length: bv32)
      requires 1 <= length <= 4
      modifies this
      ensures R() == Step(old(R()), InjectedLength(length))
    {
      hide And, Or, AndNot, Shl, Mask;
      InjectedLengthMask(jsqr);
      var tmpreg1 := jsqr;
      tmpreg1 := And(tmpreg1, JSQR_JL_RESET);
      var tmpreg2 := length - 1;
      tmpreg1 := Or(tmpreg1, Shl(tmpreg2, 20));
      jsqr := tmpreg1;
    }
  }
}
