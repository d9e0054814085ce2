/**
 The receive side of bxCAN: two FIFOs of three mailboxes, the registers RF0R and RF1R, and
 CAN_Receive, CAN_FIFORelease and CAN_MessagePending. Frames may arrive between any two
 register accesses of the driver.
 */
module CanReceive {
  import opened CanFrame

  const DEPTH := 3

  /** How a frame left the FIFO: it was pending when CAN_Receive first read, or it was not and has been released all the same. */
  datatype Exit = Delivered | Unread

  /**
   A FIFO and its history. arrived lists every frame its filters accepted. kept lists the numbers of those not lost to
   overrun, in order of arrival: the first |exits| of them have left, the rest are pending. stale is what
   the output mailbox registers show while nothing is pending.
   */
  datatype Fifo = Fifo(arrived: seq<Words>, kept: seq<nat>, exits: seq<Exit>, lost: set<nat>,
                       full: bool, fovr: bool, stale: Words)
  {
    function Pending(): nat {
      if |exits| <= |kept| then |kept| - |exits| else 0
    }

    /** The frame at the output. */
    function Head(): Words {
      if |exits| < |kept| && kept[|exits|] < |arrived| then arrived[kept[|exits|]] else stale
    }
  }

  /** A frame arrives. With the FIFO full it is an overrun: the new frame is dropped if the FIFO is locked, else it replaces the last. */
  function Arrive(f: Fifo, w: Words, locked: bool): Fifo {
    var n := |f.arrived|;
    var g := f.(arrived := f.arrived + [w]);
    if f.Pending() < DEPTH then g.(kept := f.kept + [n], full := f.full || f.Pending() + 1 == DEPTH)
    else if locked || f.kept == [] then g.(lost := f.lost + {n}, fovr := true)
    else g.(kept := f.kept[..|f.kept| - 1] + [n], lost := f.lost + {f.kept[|f.kept| - 1]}, fovr := true)
  }

  /** RFOM: the output mailbox is released if a frame is pending. */
  function Release(f: Fifo, how: Exit): Fifo {
    if 0 < f.Pending() then f.(exits := f.exits + [how], stale := f.Head()) else f
  }

  /** A write to RFxR: ones written to FULL and FOVR clear them, a one written to RFOM releases. */
  function WriteFlags(f: Fifo, clearFull: bool, clearFovr: bool, release: bool, how: Exit): Fifo {
    var g := if release then Release(f, how) else f;
    g.(full := f.full && !clearFull, fovr := f.fovr && !clearFovr)
  }

  /** One access to a FIFO, by the bus or by software. */
  datatype Access = Arrival(w: Words, locked: bool) | Flags(clearFull: bool, clearFovr: bool, release: bool, how: Exit)

  function Apply(f: Fifo, a: Access): Fifo {
    match a
    case Arrival(w, locked) => Arrive(f, w, locked)
    case Flags(clearFull, clearFovr, release, how) => WriteFlags(f, clearFull, clearFovr, release, how)
  }

  function Run(f: Fifo, accesses: seq<Access>): Fifo {
    if accesses == [] then f else Apply(Run(f, accesses[..|accesses| - 1]), accesses[|accesses| - 1])
  }

  /**
   Conservation: every frame that arrived is kept or lost and not both; what is kept is in order of
   arrival, has left or is pending, and at most three are pending.
   */
  ghost predicate Inv(f: Fifo) {
    && |f.exits| <= |f.kept| <= |f.exits| + DEPTH
    && (forall i, k :: 0 <= i < k < |f.kept| ==> f.kept[i] < f.kept[k])
    && (forall i :: 0 <= i < |f.kept| ==> f.kept[i] < |f.arrived|)
    && (forall n :: 0 <= n < |f.arrived| ==> (n in f.kept <==> n !in f.lost))
    && (forall n :: n in f.lost ==> n < |f.arrived|)
  }

  /** History only grows: what has arrived, left or been lost stays so. */
  ghost predicate Grows(f: Fifo, g: Fifo) {
    && f.arrived <= g.arrived && f.exits <= g.exits && f.lost <= g.lost
    && |f.exits| <= |f.kept| && |f.exits| <= |g.kept| && g.kept[..|f.exits|] == f.kept[..|f.exits|]
  }

  lemma ApplyKeeps(f: Fifo, a: Access)
    requires Inv(f)
    ensures Inv(Apply(f, a)) && Grows(f, Apply(f, a))
  {
    match a
    case Arrival(w, locked) => ArriveKeeps(f, w, locked);
    case Flags(_, _, _, _) =>
  }

  lemma ArriveKeeps(f: Fifo, w: Words, locked: bool)
    requires Inv(f)
    ensures Inv(Arrive(f, w, locked)) && Grows(f, Arrive(f, w, locked))
  {
    if f.Pending() < DEPTH {
      AcceptKeeps(f, w);
    } else if locked {
      DropKeeps(f, w);
    } else {
      ReplaceKeeps(f, w);
    }
    hide Inv, Grows;
  }

  lemma AcceptKeeps(f: Fifo, w: Words)
    requires Inv(f) && f.Pending() < DEPTH
    ensures var g := f.(arrived := f.arrived + [w], kept := f.kept + [|f.arrived|], full := f.full || f.Pending() + 1 == DEPTH);
            Inv(g) && Grows(f, g)
  {
  }

  lemma DropKeeps(f: Fifo, w: Words)
    requires Inv(f)
    ensures var g := f.(arrived := f.arrived + [w], lost := f.lost + {|f.arrived|}, fovr := true);
            Inv(g) && Grows(f, g)
  {
  }

  lemma ReplaceKeeps(f: Fifo, w: Words)
    requires Inv(f) && f.Pending() == DEPTH
    ensures var n, last := |f.arrived|, |f.kept| - 1;
            var g := f.(arrived := f.arrived + [w], kept := f.kept[..last] + [n], lost := f.lost + {f.kept[last]}, fovr := true);
            Inv(g) && Grows(f, g)
  {
    var n, last := |f.arrived|, |f.kept| - 1;
    var kept := f.kept[..last] + [n];
    assert f.kept == f.kept[..last] + [f.kept[last]];
    forall m | 0 <= m <= n ensures m in kept <==> m !in f.lost + {f.kept[last]} {
      assert m in f.kept[..last] ==> m < f.kept[last];
    }
  }

  /** FULL comes up when the third place is taken, FOVR when there was none, and an arrival clears neither. */
  lemma ArriveFlags(f: Fifo, w: Words, locked: bool)
    requires Inv(f)
    ensures Arrive(f, w, locked).full == (f.full || f.Pending() == 2)
    ensures Arrive(f, w, locked).fovr == (f.fovr || f.Pending() == 3)
  {
  }

  /** Over every run of arrivals, flag writes and releases. */
  lemma {:induction false} RunKeeps(f: Fifo, accesses: seq<Access>)
    requires Inv(f)
    ensures Inv(Run(f, accesses)) && Grows(f, Run(f, accesses))
  {
    if accesses != [] {
      RunKeeps(f, accesses[..|accesses| - 1]);
      ApplyKeeps(Run(f, accesses[..|accesses| - 1]), accesses[|accesses| - 1]);
    }
  }

  /** The conservation law in numbers. */
  lemma Conservation(f: Fifo)
    requires Inv(f)
    ensures |f.exits| + f.Pending() + |f.lost| == |f.arrived|
  {
    Partition(f);
    Distinct(f.kept);
    hide Below;
    assert |Elements(f.kept) + f.lost| == |Elements(f.kept)| + |f.lost|;
  }

  function Elements(s: seq<nat>): set<nat> {
    set i | 0 <= i < |s| :: s[i]
  }

  lemma Partition(f: Fifo)
    requires Inv(f)
    ensures Below(|f.arrived|) == Elements(f.kept) + f.lost && Elements(f.kept) !! f.lost
  {
  }

  /** The numbers below n. */
  function Below(n: nat): (s: set<nat>)
    ensures |s| == n && forall i: nat :: i in s <==> i < n
  {
    if n == 0 then {} else Below(n - 1) + {n - 1}
  }

  lemma {:induction false} Distinct(s: seq<nat>)
    requires forall i, k :: 0 <= i < k < |s| ==> s[i] < s[k]
    ensures |Elements(s)| == |s|
  {
    if s != [] {
      var last := |s| - 1;
      Distinct(s[..last]);
      assert Elements(s) == Elements(s[..last]) + {s[last]};
    }
  }

  /** The numbers of the frames that CAN_Receive has returned, in the order it returned them. */
  function Read(kept: seq<nat>, exits: seq<Exit>): seq<nat>
    requires |exits| <= |kept|
  {
    if exits == [] then [] else
      var last := |exits| - 1;
      Read(kept, exits[..last]) + if exits[last] == Delivered then [kept[last]] else []
  }

  ghost predicate Ascending(s: seq<nat>) {
    forall i, k :: 0 <= i < k < |s| ==> s[i] < s[k]
  }

  /** Frames are returned at most once, in order of arrival, and none that was lost. */
  lemma {:induction false} ReadInOrder(f: Fifo, n: nat)
    requires Inv(f) && n <= |f.exits|
    ensures var r := Read(f.kept, f.exits[..n]);
            && Ascending(r)
            && (forall m :: m in r ==> m in f.kept[..n] && m < |f.arrived| && m !in f.lost)
  {
    if n != 0 {
      ReadInOrder(f, n - 1);
      var r := Read(f.kept, f.exits[..n - 1]);
      assert f.exits[..n][..n - 1] == f.exits[..n - 1];
      assert f.kept[..n] == f.kept[..n - 1] + [f.kept[n - 1]];
      forall i | 0 <= i < |r| ensures r[i] < f.kept[n - 1] {
        assert r[i] in r;
        MemberBelow(f, n - 1, r[i]);
      }
      var tail := if f.exits[n - 1] == Delivered then [f.kept[n - 1]] else [];
      assert f.exits[..n][n - 1] == f.exits[n - 1];
      assert Read(f.kept, f.exits[..n]) == r + tail;
      SortedSnoc(r, tail, f.kept[n - 1]);
    }
  }

  lemma MemberBelow(f: Fifo, n: nat, m: nat)
    requires Inv(f) && n < |f.kept| && m in f.kept[..n]
    ensures m < f.kept[n]
  {
  }

  lemma SortedSnoc(r: seq<nat>, tail: seq<nat>, x: nat)
    requires (tail == [] || tail == [x]) && Ascending(r)
    requires forall i :: 0 <= i < |r| ==> r[i] < x
    ensures Ascending(r + tail)
  {
  }

  lemma {:induction false} ReadPrefix(kept: seq<nat>, kept': seq<nat>, exits: seq<Exit>)
    requires |exits| <= |kept| && |exits| <= |kept'| && kept[..|exits|] == kept'[..|exits|]
    ensures Read(kept, exits) == Read(kept', exits)
  {
    if exits != [] {
      var last := |exits| - 1;
      assert kept[..last] == kept[..|exits|][..last] && kept'[..last] == kept'[..|exits|][..last];
      assert kept[last] == kept[..|exits|][last] && kept'[last] == kept'[..|exits|][last];
      ReadPrefix(kept, kept', exits[..last]);
    }
  }

  /** What has been returned stays so; a further exit adds its frame if it was delivered. */
  lemma ReadGrows(f: Fifo, g: Fifo, how: Exit, leaves: bool)
    requires Grows(f, g) && g.exits == f.exits + (if leaves then [how] else []) && |g.exits| <= |g.kept|
    requires how == Delivered ==> leaves
    ensures Read(g.kept, g.exits) == Read(f.kept, f.exits) + (if how == Delivered then [g.kept[|f.exits|]] else [])
  {
    ReadPrefix(f.kept, g.kept, f.exits);
    if leaves {
      assert g.exits[..|g.exits| - 1] == f.exits;
    } else {
      assert g.exits == f.exits;
    }
  }

  // ---- The registers RF0R and RF1R ----

  const FMP: bv32 := 0x03
  const FULL: bv32 := 0x08
  const FOVR: bv32 := 0x10
  const RFOM: bv32 := 0x20

  function Rfr(f: Fifo): bv32 {
    (match f.Pending() case 0 => 0 case 1 => 1 case 2 => 2 case _ => 3) |
    (if f.full then FULL else 0) | (if f.fovr then FOVR else 0)
  }

  /** The hardware's reading of a value written to RFxR. */
  function FlagsOf(v: bv32, how: Exit): Access {
    Flags(v & FULL != 0, v & FOVR != 0, v & RFOM != 0, how)
  }

  /** RFxR: the number pending in bits 1:0, FULL in bit 3, FOVR in bit 4, RFOM in bit 5. */
  lemma RfrPlaces(f: Fifo)
    requires Inv(f)
    ensures PendingField(Rfr(f)) as int == f.Pending() && (Rfr(f) & 8 != 0 <==> f.full) && (Rfr(f) & 16 != 0 <==> f.fovr)
    ensures PendingField(Rfr(f)) as bv32 == Rfr(f) & 3
  {
    PendingBits(f);
    RfrFlags(f);
    FieldIs(Rfr(f));
    hide Rfr, PendingField, Inv;
  }

  lemma RfrFlags(f: Fifo)
    ensures (Rfr(f) & 8 != 0 <==> f.full) && (Rfr(f) & 16 != 0 <==> f.fovr)
  {
  }

  lemma FieldIs(v: bv32)
    ensures PendingField(v) as bv32 == v & 3
  {
  }

  lemma FlagPlaces(v: bv32, how: Exit)
    ensures FlagsOf(v, how) == Flags(v & 8 != 0, v & 16 != 0, v & 32 != 0, how) && WithRelease(v) == v | 32
  {
  }

  /** RFxR |= RFOM also writes ones to the flags that were read as set, and so clears them. */
  lemma ReleaseClearsFlags(f: Fifo, how: Exit)
    ensures FlagsOf(WithRelease(Rfr(f)), how) == Flags(f.full, f.fovr, true, how)
  {
  }

  lemma PendingBits(f: Fifo)
    requires Inv(f)
    ensures PendingField(Rfr(f)) as int == f.Pending()
  {
  }

  // ---- Time ----

  datatype Event = Event(fifo: nat, w: Words)

  /** The arrivals of one interval, seen by FIFO x: those for the other FIFO do not touch it. */
  function RunHw(f: Fifo, x: nat, es: seq<Event>, locked: bool): Fifo {
    if es == [] then f else
      var last := |es| - 1;
      var g := RunHw(f, x, es[..last], locked);
      if es[last].fifo == x then Arrive(g, es[last].w, locked) else g
  }

  /** FIFO x after k more register accesses, none of which writes. */
  function Elapse(f: Fifo, x: nat, env: nat -> seq<Event>, locked: bool, clock: nat, k: nat): Fifo {
    if k == 0 then f else RunHw(Elapse(f, x, env, locked, clock, k - 1), x, env(clock + k - 1), locked)
  }

  /** Arrivals keep the invariant, never touch the output mailbox of a non-empty FIFO, and remove nothing from it. */
  ghost predicate Settles(f: Fifo, g: Fifo) {
    && Inv(g) && Grows(f, g) && g.exits == f.exits
    && f.Pending() <= g.Pending() && (0 < f.Pending() ==> g.Head() == f.Head())
  }

  lemma ArriveSettles(f: Fifo, w: Words, locked: bool)
    requires Inv(f)
    ensures Settles(f, Arrive(f, w, locked))
  {
    ArriveKeeps(f, w, locked);
  }

  lemma {:induction false} HwSettles(f: Fifo, x: nat, es: seq<Event>, locked: bool)
    requires Inv(f)
    ensures Settles(f, RunHw(f, x, es, locked))
  {
    if es != [] {
      var g := RunHw(f, x, es[..|es| - 1], locked);
      HwSettles(f, x, es[..|es| - 1], locked);
      ArriveSettles(g, es[|es| - 1].w, locked);
    }
  }

  lemma {:induction false} ElapseSettles(f: Fifo, x: nat, env: nat -> seq<Event>, locked: bool, clock: nat, k: nat)
    requires Inv(f)
    ensures Settles(f, Elapse(f, x, env, locked, clock, k))
  {
    if k != 0 {
      ElapseSettles(f, x, env, locked, clock, k - 1);
      HwSettles(Elapse(f, x, env, locked, clock, k - 1), x, env(clock + k - 1), locked);
    }
  }

  lemma {:induction false} JoinElapse(f: Fifo, x: nat, env: nat -> seq<Event>, locked: bool, clock: nat, j: nat, k: nat)
    ensures Elapse(Elapse(f, x, env, locked, clock, j), x, env, locked, clock + j, k) ==
            Elapse(f, x, env, locked, clock, j + k)
  {
    hide RunHw;
    if k != 0 {
      JoinElapse(f, x, env, locked, clock, j, k - 1);
    }
  }

  /** CAN_Receive delivers exactly when a frame is pending at its first read. */
  function ReadAs(f: Fifo, x: nat, env: nat -> seq<Event>, locked: bool, clock: nat): Exit {
    if 0 < Elapse(f, x, env, locked, clock, 1).Pending() then Delivered else Unread
  }

  /** From f to g at most one frame has left, as how says; if it was delivered, it is the frame w. */
  ghost predicate LeavesAs(f: Fifo, g: Fifo, how: Exit, leaves: bool, w: Words) {
    && g.exits == f.exits + (if leaves then [how] else [])
    && (how == Delivered ==>
          && leaves && |f.exits| < |g.kept| && g.kept[|f.exits|] < |g.arrived|
          && g.arrived[g.kept[|f.exits|]] == w)
    && |f.exits| <= |f.kept| && |g.exits| <= |g.kept|
    && Read(g.kept, g.exits) == Read(f.kept, f.exits) + (if how == Delivered then [g.kept[|f.exits|]] else [])
  }

  /** What the release at the end of CAN_Receive removes: the frame that was at the output at the first read, if any. */
  lemma ExitOf(f: Fifo, x: nat, env: nat -> seq<Event>, locked: bool, clock: nat, m: Fifo)
    requires Inv(f)
    ensures var how := ReadAs(f, x, env, locked, clock);
            var h := Elapse(f, x, env, locked, clock, 15);
            var g := WriteFlags(h, m.full, m.fovr, true, how);
            && Grows(f, g)
            && LeavesAs(f, g, how, 0 < h.Pending(), Elapse(f, x, env, locked, clock, 1).Head())
  {
    hide Elapse, Settles, WriteFlags, Grows, LeavesAs, Fifo.Head, Fifo.Pending, Inv;
    var e := Elapse(f, x, env, locked, clock, 1);
    ElapseSettles(f, x, env, locked, clock, 1);
    SettlesSound(f, e);
    ElapseSettles(e, x, env, locked, clock + 1, 14);
    JoinElapse(f, x, env, locked, clock, 1, 14);
    ExitFrom(f, e, Elapse(f, x, env, locked, clock, 15), m, ReadAs(f, x, env, locked, clock));
  }

  lemma SettlesSound(f: Fifo, g: Fifo)
    requires Settles(f, g)
    ensures Inv(g)
  {
  }

  lemma GrowsOn(f: Fifo, g: Fifo, h: Fifo)
    requires Grows(f, g) && Grows(g, h)
    ensures Grows(f, h)
  {
    assert h.kept[..|f.exits|] == h.kept[..|g.exits|][..|f.exits|];
    assert g.kept[..|f.exits|] == g.kept[..|g.exits|][..|f.exits|];
  }

  lemma ReleaseGrows(h: Fifo, m: Fifo, how: Exit)
    requires Inv(h)
    ensures var g := WriteFlags(h, m.full, m.fovr, true, how);
            && Grows(h, g) && g.kept == h.kept && g.arrived == h.arrived && |g.exits| <= |g.kept|
            && g.exits == h.exits + (if 0 < h.Pending() then [how] else [])
  {
  }

  lemma HeadKept(h: Fifo, g: Fifo, exits: seq<Exit>)
    requires Inv(h) && g.kept == h.kept && g.arrived == h.arrived && h.exits == exits
    ensures 0 < h.Pending() ==>
              && |exits| < |g.kept| && g.kept[|exits|] < |g.arrived| && g.arrived[g.kept[|exits|]] == h.Head()
  {
  }

  lemma ExitFrom(f: Fifo, e: Fifo, h: Fifo, m: Fifo, how: Exit)
    requires Inv(f) && Settles(f, e) && Settles(e, h) && how == if 0 < e.Pending() then Delivered else Unread
    ensures var g := WriteFlags(h, m.full, m.fovr, true, how);
            Grows(f, g) && LeavesAs(f, g, how, 0 < h.Pending(), e.Head())
  {
    hide Read, Elapse;
    var g := WriteFlags(h, m.full, m.fovr, true, how);
    GrowsOn(f, e, h);
    ReleaseGrows(h, m, how);
    GrowsOn(f, h, g);
    ReadGrows(f, g, how, 0 < h.Pending());
    HeadKept(h, g, f.exits);
  }

  /**
   What CAN_Receive has done to FIFO x, f before and g after, and the message r. The message is assembled from what each read
   sees. With a frame pending at the first read, it is that frame, whole, whatever arrives meanwhile, and it is that
   frame that leaves. With none pending, a frame that arrives before the release leaves all the same, and the message
   may mix it with the old content (WholeIff, Torn).
   */
  ghost predicate Received(f: Fifo, g: Fifo, x: nat, env: nat -> seq<Event>, locked: bool, clock: nat, r: RxMsg, rx: RxMsg) {
    var first := Elapse(f, x, env, locked, clock, 1);
    var m := Elapse(f, x, env, locked, clock, 14);
    var h := Elapse(f, x, env, locked, clock, 15);
    var how := ReadAs(f, x, env, locked, clock);
    && r == Assemble(Heads(f, x, env, locked, clock, 13), rx)
    && (how == Delivered ==> r == Unpack(first.Head(), rx))
    && g == WriteFlags(h, m.full, m.fovr, true, how)
    && Grows(f, g) && LeavesAs(f, g, how, 0 < h.Pending(), first.Head())
  }

  lemma NoHeads(f: Fifo, x: nat, env: nat -> seq<Event>, locked: bool, clock: nat)
    ensures Heads(f, x, env, locked, clock, 0) == []
  {
  }

  lemma ReceivedIs(f: Fifo, x: nat, env: nat -> seq<Event>, locked: bool, clock: nat, rx: RxMsg)
    requires Inv(f)
    ensures var g := Released(f, x, env, locked, clock, 13, ReadAs(f, x, env, locked, clock));
            Received(f, g, x, env, locked, clock, Assemble(Heads(f, x, env, locked, clock, 13), rx), rx)
  {
    hide Elapse, ReadAs, Heads, Assemble, Unpack, WriteFlags, Grows, LeavesAs, Inv;
    ExitOf(f, x, env, locked, clock, Elapse(f, x, env, locked, clock, 14));
    if ReadAs(f, x, env, locked, clock) == Delivered {
      DeliveredWhole(f, x, env, locked, clock, rx);
    }
  }

  /** f after k accesses and a release, whose read also decides which flags are cleared. */
  function Released(f: Fifo, x: nat, env: nat -> seq<Event>, locked: bool, clock: nat, k: nat, how: Exit): Fifo {
    var m := Elapse(f, x, env, locked, clock, k + 1);
    WriteFlags(Elapse(f, x, env, locked, clock, k + 2), m.full, m.fovr, true, how)
  }

  function WithRelease(v: bv32): bv32 { v | RFOM }

  lemma ReleaseIs(f: Fifo, x: nat, env: nat -> seq<Event>, locked: bool, clock: nat, k: nat, how: Exit)
    ensures var m := Elapse(f, x, env, locked, clock, k + 1);
            Apply(Elapse(f, x, env, locked, clock, k + 2), FlagsOf(WithRelease(Rfr(m)), how)) ==
            Released(f, x, env, locked, clock, k, how)
  {
    hide Elapse, WriteFlags, WithRelease, Rfr, FlagsOf;
    ReleaseClearsFlags(Elapse(f, x, env, locked, clock, k + 1), how);
  }

  lemma ReleasedUnread(f: Fifo, x: nat, env: nat -> seq<Event>, locked: bool, clock: nat)
    requires Inv(f)
    ensures var g := Released(f, x, env, locked, clock, 0, Unread);
            var h := Elapse(f, x, env, locked, clock, 2);
            var v := Elapse(f, x, env, locked, clock, 1);
            && Grows(f, g) && g.kept == h.kept && g.arrived == h.arrived && g.lost == h.lost
            && g.exits == f.exits + (if 0 < h.Pending() then [Unread] else [])
            && g.full == (h.full && !v.full) && g.fovr == (h.fovr && !v.fovr)
  {
    hide RunHw;
    ElapseSettles(f, x, env, locked, clock, 2);
    hide Elapse;
  }

  /** The state of FIFO x. */
  function Pick(x: nat, g0: Fifo, g1: Fifo): Fifo {
    if x == 0 then g0 else g1
  }

  /** What the first n reads of the output mailbox see. */
  function Heads(f: Fifo, x: nat, env: nat -> seq<Event>, locked: bool, clock: nat, n: nat): (h: seq<Words>)
    ensures |h| == n && forall i :: 0 <= i < n ==> h[i] == Elapse(f, x, env, locked, clock, i + 1).Head()
  {
    if n == 0 then [] else Heads(f, x, env, locked, clock, n - 1) + [Elapse(f, x, env, locked, clock, n).Head()]
  }

  /**
   The message CAN_Receive makes of its thirteen reads: RIR for the kind, the identifier and RTR, RDTR for the length and
   the filter index, RDLR and RDHR four times each.
   */
  function Assemble(h: seq<Words>, rx: RxMsg): RxMsg
    requires |h| == 13
  {
    RxMsg(if IdeOf(h[0].ir) == ID_STANDARD then StdIdOf(h[1].ir) else rx.stdId,
          if IdeOf(h[0].ir) == ID_STANDARD then rx.extId else ExtIdOf(h[1].ir),
          IdeOf(h[0].ir), RtrOf(h[2].ir), DlcOf(h[3].dtr),
          [LowByte(h[5].dlr), Byte1(h[6].dlr), Byte2(h[7].dlr), Byte3(h[8].dlr),
           LowByte(h[9].dhr), Byte1(h[10].dhr), Byte2(h[11].dhr), Byte3(h[12].dhr)],
          Byte1(h[4].dtr))
  }

  /** Each part of the message is what unpacking the mailbox as that read saw it gives. */
  lemma AssemblePlaces(h: seq<Words>, rx: RxMsg)
    requires |h| == 13
    ensures var r := Assemble(h, rx);
            && r.ide == Unpack(h[0], rx).ide && r.rtr == Unpack(h[2], rx).rtr && r.dlc == Unpack(h[3], rx).dlc
            && r.fmi == Unpack(h[4], rx).fmi && |r.data| == 8
            && (h[0].ir == h[1].ir ==> r.stdId == Unpack(h[1], rx).stdId && r.extId == Unpack(h[1], rx).extId)
            && r.data[0] == Unpack(h[5], rx).data[0] && r.data[1] == Unpack(h[6], rx).data[1]
            && r.data[2] == Unpack(h[7], rx).data[2] && r.data[3] == Unpack(h[8], rx).data[3]
            && r.data[4] == Unpack(h[9], rx).data[4] && r.data[5] == Unpack(h[10], rx).data[5]
            && r.data[6] == Unpack(h[11], rx).data[6] && r.data[7] == Unpack(h[12], rx).data[7]
  {
    hide *;
    AssembleHeader(h, rx);
    AssembleData(h, rx);
    UnpackBytes(h[5], rx);
    UnpackBytes(h[6], rx);
    UnpackBytes(h[7], rx);
    UnpackBytes(h[8], rx);
    UnpackBytes(h[9], rx);
    UnpackBytes(h[10], rx);
    UnpackBytes(h[11], rx);
    UnpackBytes(h[12], rx);
  }

  lemma AssembleHeader(h: seq<Words>, rx: RxMsg)
    requires |h| == 13
    ensures var r := Assemble(h, rx);
            && r.ide == Unpack(h[0], rx).ide && r.rtr == Unpack(h[2], rx).rtr && r.dlc == Unpack(h[3], rx).dlc
            && r.fmi == Unpack(h[4], rx).fmi && |r.data| == 8
            && (h[0].ir == h[1].ir ==> r.stdId == Unpack(h[1], rx).stdId && r.extId == Unpack(h[1], rx).extId)
  {
    hide IdeOf, RtrOf, StdIdOf, ExtIdOf, DlcOf, LowByte, Byte1, Byte2, Byte3;
  }

  lemma UnpackBytes(w: Words, rx: RxMsg)
    ensures var d := Unpack(w, rx).data;
            && |d| == 8 && d[0] == LowByte(w.dlr) && d[1] == Byte1(w.dlr) && d[2] == Byte2(w.dlr) && d[3] == Byte3(w.dlr)
            && d[4] == LowByte(w.dhr) && d[5] == Byte1(w.dhr) && d[6] == Byte2(w.dhr) && d[7] == Byte3(w.dhr)
  {
    hide LowByte, Byte1, Byte2, Byte3;
  }

  lemma AssembleData(h: seq<Words>, rx: RxMsg)
    requires |h| == 13
    ensures var d := Assemble(h, rx).data;
            && |d| == 8 && d[0] == LowByte(h[5].dlr) && d[1] == Byte1(h[6].dlr) && d[2] == Byte2(h[7].dlr) && d[3] == Byte3(h[8].dlr)
            && d[4] == LowByte(h[9].dhr) && d[5] == Byte1(h[10].dhr) && d[6] == Byte2(h[11].dhr) && d[7] == Byte3(h[12].dhr)
  {
    hide LowByte, Byte1, Byte2, Byte3, IdeOf, RtrOf, StdIdOf, ExtIdOf, DlcOf;
  }

  /** All reads alike give the message of that frame. */
  lemma AssembleSame(h: seq<Words>, w: Words, rx: RxMsg)
    requires |h| == 13 && forall i :: 0 <= i < 13 ==> h[i] == w
    ensures Assemble(h, rx) == Unpack(w, rx)
  {
    hide IdeOf, RtrOf, StdIdOf, ExtIdOf, DlcOf, LowByte, Byte1, Byte2, Byte3;
  }

  /** The first a reads see v, the others w. */
  ghost predicate ChangesOnce(h: seq<Words>, v: Words, w: Words, a: nat) {
    a <= |h| && forall i :: 0 <= i < |h| ==> h[i] == if i < a then v else w
  }

  /**
   Whatever arrives during the reads, there is one change at most: the first a reads see what was at the output
   before the call, the others the first frame to arrive, and a is 0 if a frame was pending.
   */
  lemma {:induction false} HeadsChangeOnce(f: Fifo, x: nat, env: nat -> seq<Event>, locked: bool, clock: nat, n: nat)
    returns (a: nat)
    requires Inv(f)
    ensures var g := Elapse(f, x, env, locked, clock, n);
            && ChangesOnce(Heads(f, x, env, locked, clock, n), f.Head(), g.Head(), a)
            && (0 < f.Pending() ==> a == 0)
            && (a < n ==> 0 < g.Pending())
            && (a == n && f.Pending() == 0 ==> g.Pending() == 0 && g.Head() == f.Head())
  {
    hide RunHw, Inv, Grows, Fifo.Head, Fifo.Pending;
    if n == 0 {
      a := 0;
    } else {
      a := HeadsChangeOnce(f, x, env, locked, clock, n - 1);
      var e := Elapse(f, x, env, locked, clock, n - 1);
      var g := Elapse(f, x, env, locked, clock, n);
      var h := Heads(f, x, env, locked, clock, n - 1);
      assert Heads(f, x, env, locked, clock, n) == h + [g.Head()];
      ElapseSettles(f, x, env, locked, clock, n - 1);
      HwSettles(e, x, env(clock + n - 1), locked);
      assert 0 < e.Pending() ==> ChangesOnce(h, f.Head(), g.Head(), a);
      if a == n - 1 && f.Pending() == 0 && g.Pending() == 0 {
        HwEmpty(e, x, env(clock + n - 1), locked);
        a := n;
      }
    }
  }

  lemma {:induction false} HwEmpty(f: Fifo, x: nat, es: seq<Event>, locked: bool)
    requires Inv(f) && RunHw(f, x, es, locked).Pending() == 0
    ensures f.Pending() == 0 && RunHw(f, x, es, locked).Head() == f.Head()
  {
    if es != [] {
      var g := RunHw(f, x, es[..|es| - 1], locked);
      HwSettles(f, x, es[..|es| - 1], locked);
      ArriveSettles(g, es[|es| - 1].w, locked);
      HwEmpty(f, x, es[..|es| - 1], locked);
    }
  }

  /** The message is what one of the reads found at the output, whole. */
  predicate Whole(h: seq<Words>, rx: RxMsg)
    requires |h| == 13
  {
    exists i :: 0 <= i < 13 && Assemble(h, rx) == Unpack(h[i], rx)
  }

  /** CAN_Receive returns a whole frame under every schedule iff a frame is pending when it is called. */
  lemma WholeIff(f: Fifo, x: nat, locked: bool, clock: nat, rx: RxMsg)
    requires Inv(f)
    ensures (forall env: nat -> seq<Event> :: Whole(Heads(f, x, env, locked, clock, 13), rx)) <==> 0 < f.Pending()
  {
    if f.Pending() == 0 {
      var env := Torn(f, x, locked, clock, rx);
    } else {
      forall env: nat -> seq<Event> ensures Whole(Heads(f, x, env, locked, clock, 13), rx) {
        ElapseSettles(f, x, env, locked, clock, 1);
        DeliveredWhole(f, x, env, locked, clock, rx);
        hide Assemble, Unpack, Inv, Elapse;
        assert Assemble(Heads(f, x, env, locked, clock, 13), rx) == Unpack(Heads(f, x, env, locked, clock, 13)[0], rx);
      }
    }
  }

  /** A frame pending at the first read is returned whole. */
  lemma DeliveredWhole(f: Fifo, x: nat, env: nat -> seq<Event>, locked: bool, clock: nat, rx: RxMsg)
    requires Inv(f) && ReadAs(f, x, env, locked, clock) == Delivered
    ensures Assemble(Heads(f, x, env, locked, clock, 13), rx) == Unpack(Elapse(f, x, env, locked, clock, 1).Head(), rx)
  {
    hide RunHw, Assemble, Unpack;
    var g := Elapse(f, x, env, locked, clock, 1);
    var h := Heads(f, x, env, locked, clock, 13);
    ElapseSettles(f, x, env, locked, clock, 1);
    forall i | 0 <= i < 13 ensures h[i] == g.Head() {
      JoinElapse(f, x, env, locked, clock, 1, i);
      ElapseSettles(g, x, env, locked, clock + 1, i);
    }
    AssembleSame(h, g.Head(), rx);
  }

  /** One frame arriving between the reads of RDLR and RDHR: half of the data is old, half is the new frame's. */
  lemma Torn(f: Fifo, x: nat, locked: bool, clock: nat, rx: RxMsg) returns (env: nat -> seq<Event>)
    requires Inv(f) && f.Pending() == 0
    ensures !Whole(Heads(f, x, env, locked, clock, 13), rx)
    ensures var h := Heads(f, x, env, locked, clock, 13);
            Assemble(h, rx) != Unpack(f.stale, rx) && Assemble(h, rx) != Unpack(h[12], rx)
  {
    var v := f.Head();
    var w := Words(v.ir, v.dtr, Flip(v.dlr), Flip(v.dhr));
    env := t => if t == clock + 9 then [Event(x, w)] else [];
    var h := Heads(f, x, env, locked, clock, 13);
    OneArrival(f, x, env, locked, clock, w, 13);
    TornData(h, v, w, rx);
  }

  /** Another word with another low byte. */
  function Flip(v: bv32): bv32 { v ^ 1 }

  lemma FlipFlips(v: bv32)
    ensures LowByte(Flip(v)) != LowByte(v)
  {
  }

  lemma TornData(h: seq<Words>, v: Words, w: Words, rx: RxMsg)
    requires |h| == 13 && forall i :: 0 <= i < 13 ==> h[i] == if i < 9 then v else w
    requires w.dlr == Flip(v.dlr) && w.dhr == Flip(v.dhr)
    ensures Assemble(h, rx) != Unpack(v, rx) && Assemble(h, rx) != Unpack(w, rx)
    ensures !Whole(h, rx)
  {
    hide Flip, IdeOf, RtrOf, StdIdOf, ExtIdOf, DlcOf, LowByte, Byte1, Byte2, Byte3;
    FlipFlips(v.dlr);
    FlipFlips(v.dhr);
    assert Assemble(h, rx).data[0] == LowByte(v.dlr) && Unpack(w, rx).data[0] == LowByte(w.dlr);
    assert Assemble(h, rx).data[4] == LowByte(w.dhr) && Unpack(v, rx).data[4] == LowByte(v.dhr);
  }

  lemma {:induction false} OneArrival(f: Fifo, x: nat, env: nat -> seq<Event>, locked: bool, clock: nat, w: Words, n: nat)
    requires Inv(f) && f.Pending() == 0
    requires forall t: nat :: env(t) == if t == clock + 9 then [Event(x, w)] else []
    ensures Elapse(f, x, env, locked, clock, n) == if n <= 9 then f else Arrive(f, w, locked)
    ensures forall i :: 0 <= i < n ==> Heads(f, x, env, locked, clock, n)[i] == if i < 9 then f.Head() else w
  {
    if n != 0 {
      OneArrival(f, x, env, locked, clock, w, n - 1);
      assert RunHw(f, x, [], locked) == f;
      assert [Event(x, w)][..0] == [];
    }
  }

  function DataRegister(w: Words, high: bool): bv32 { if high then w.dhr else w.dlr }

  function DataBytes(h: seq<Words>, high: bool): seq<bv8>
    requires |h| == 4
  {
    [LowByte(DataRegister(h[0], high)), Byte1(DataRegister(h[1], high)),
     Byte2(DataRegister(h[2], high)), Byte3(DataRegister(h[3], high))]
  }

  /** The message without its data. */
  function Header(h: seq<Words>, rx: RxMsg): RxMsg
    requires |h| == 5
  {
    RxMsg(if IdeOf(h[0].ir) == ID_STANDARD then StdIdOf(h[1].ir) else rx.stdId,
          if IdeOf(h[0].ir) == ID_STANDARD then rx.extId else ExtIdOf(h[1].ir),
          IdeOf(h[0].ir), RtrOf(h[2].ir), DlcOf(h[3].dtr), rx.data, Byte1(h[4].dtr))
  }

  lemma Assembled(h: seq<Words>, r: RxMsg, low: seq<bv8>, high: seq<bv8>, rx: RxMsg)
    requires |h| == 13 && r == Header(h[..9][..5], rx)
    requires low == DataBytes(h[..9][5..], false) && high == DataBytes(h[9..], true)
    ensures r.(data := low + high) == Assemble(h, rx)
  {
    assert low + high == [LowByte(h[5].dlr), Byte1(h[6].dlr), Byte2(h[7].dlr), Byte3(h[8].dlr),
                          LowByte(h[9].dhr), Byte1(h[10].dhr), Byte2(h[11].dhr), Byte3(h[12].dhr)];
    hide IdeOf, RtrOf, StdIdOf, ExtIdOf, DlcOf, LowByte, Byte1, Byte2, Byte3;
  }

  function PendingField(v: bv32): bv8 { (v & FMP) as bv8 }

  class CanRx {
    /** The frames arriving before each register access: any schedule. */
    const env: nat -> seq<Event>
    /** Receive FIFO locked mode (RFLM). */
    const locked: bool
    var clock: nat
    var f0: Fifo
    var f1: Fifo

    ghost predicate Valid()
      reads this
    {
      Inv(f0) && Inv(f1)
    }

    function Queue(x: nat): Fifo
      reads this
    {
      if x == 0 then f0 else f1
    }

    constructor (env: nat -> seq<Event>, locked: bool)
      ensures Valid() && this.env == env && this.locked == locked
    {
      this.env, this.locked := env, locked;
      clock := 0;
      var empty := Fifo([], [], [], {}, false, false, Words(0, 0, 0, 0));
      f0, f1 := empty, empty;
    }

    /** A register access by the driver lets the frames of the interval arrive first. */
    method Tick()
      requires Valid()
      modifies this
      ensures Valid() && clock == old(clock) + 1
      ensures f0 == RunHw(old(f0), 0, env(old(clock)), locked) && f1 == RunHw(old(f1), 1, env(old(clock)), locked)
    {
      HwSettles(f0, 0, env(clock), locked);
      HwSettles(f1, 1, env(clock), locked);
      f0, f1 := RunHw(f0, 0, env(clock), locked), RunHw(f1, 1, env(clock), locked);
      clock := clock + 1;
    }

    /** k accesses after a state g0, g1 at time c, with no write in between. */
    ghost predicate After(g0: Fifo, g1: Fifo, c: nat, k: nat)
      reads this
    {
      && Valid() && Inv(g0) && Inv(g1) && clock == c + k
      && f0 == Elapse(g0, 0, env, locked, c, k) && f1 == Elapse(g1, 1, env, locked, c, k)
    }

    /** One access more. */
    method Pass(ghost g0: Fifo, ghost g1: Fifo, ghost c: nat, ghost k: nat)
      requires After(g0, g1, c, k)
      modifies this
      ensures After(g0, g1, c, k + 1)
    {
      hide RunHw, Inv;
      Tick();
    }

    /** The reads of FIFO x so far, from a state g0, g1 at time c, have seen h. */
    ghost predicate Reading(x: nat, g0: Fifo, g1: Fifo, c: nat, h: seq<Words>)
      reads this
    {
      After(g0, g1, c, |h|) && h == Heads(Pick(x, g0, g1), x, env, locked, c, |h|)
    }

    /** A read of the output mailbox registers of FIFO x. */
    method ReadMailbox(x: nat, ghost g0: Fifo, ghost g1: Fifo, ghost c: nat, ghost h: seq<Words>) returns (w: Words)
      requires x < 2 && Reading(x, g0, g1, c, h)
      modifies this
      ensures Reading(x, g0, g1, c, h + [w])
    {
      hide Inv, Elapse;
      Pass(g0, g1, c, |h|);
      w := Queue(x).Head();
    }

    /** RFxR |= RFOM: a read and a write, after k accesses. how only labels the exit in the history. */
    method ReleaseFifo(x: nat, how: Exit, ghost g0: Fifo, ghost g1: Fifo, ghost c: nat, ghost k: nat)
      requires x < 2 && After(g0, g1, c, k)
      modifies this
      ensures Valid()
      ensures Queue(x) == Released(Pick(x, g0, g1), x, env, locked, c, k, how)
      ensures Queue(1 - x) == Elapse(Pick(1 - x, g0, g1), 1 - x, env, locked, c, k + 2)
    {
      hide *;
      Pass(g0, g1, c, k);
      AfterMeans(x, g0, g1, c, k + 1);
      var v := Rfr(Queue(x));
      ghost var m := Queue(x);
      Pass(g0, g1, c, k + 1);
      AfterMeans(x, g0, g1, c, k + 2);
      ReleaseIs(Pick(x, g0, g1), x, env, locked, c, k, how);
      WriteRfr(x, WithRelease(v), how);
    }

    lemma AfterMeans(x: nat, g0: Fifo, g1: Fifo, c: nat, k: nat)
      requires x < 2 && After(g0, g1, c, k)
      ensures Valid() && Queue(x) == Elapse(Pick(x, g0, g1), x, env, locked, c, k)
      ensures Queue(1 - x) == Elapse(Pick(1 - x, g0, g1), 1 - x, env, locked, c, k)
    {
      hide Elapse, Inv;
    }

    lemma QueueSound(x: nat)
      requires Valid()
      ensures Inv(Queue(x))
    {
    }

    lemma StartAfter()
      requires Valid()
      ensures After(f0, f1, clock, 0)
    {
    }

    /** The effect of a value written to RFxR. */
    method WriteRfr(x: nat, v: bv32, how: Exit)
      requires Valid() && x < 2
      modifies this
      ensures Valid() && clock == old(clock)
      ensures Queue(x) == Apply(old(Queue(x)), FlagsOf(v, how)) && Queue(1 - x) == old(Queue(1 - x))
    {
      hide Inv, FlagsOf, Apply;
      ApplyKeeps(Queue(x), FlagsOf(v, how));
      if x == 0 {
        f0 := Apply(f0, FlagsOf(v, how));
      } else {
        f1 := Apply(f1, FlagsOf(v, how));
      }
    }

    /** CAN_Receive: thirteen reads of the output mailbox, then the release. */
    method Receive(x: nat, rx: RxMsg) returns (r: RxMsg)
      requires Valid() && x < 2
      modifies this
      ensures Valid() && Received(old(Queue(x)), Queue(x), x, env, locked, old(clock), r, rx)
      ensures Queue(1 - x) == Elapse(old(Queue(1 - x)), 1 - x, env, locked, old(clock), 15)
    {
      hide *;
      Start(x);
      r := ReceiveFrom(x, rx, f0, f1, clock);
    }

    method ReceiveFrom(x: nat, rx: RxMsg, ghost g0: Fifo, ghost g1: Fifo, ghost c: nat) returns (r: RxMsg)
      requires x < 2 && Reading(x, g0, g1, c, []) && Inv(Pick(x, g0, g1))
      modifies this
      ensures Valid() && Received(Pick(x, g0, g1), Queue(x), x, env, locked, c, r, rx)
      ensures Queue(1 - x) == Elapse(Pick(1 - x, g0, g1), 1 - x, env, locked, c, 15)
    {
      hide *;
      ReceivedIs(Pick(x, g0, g1), x, env, locked, c, rx);
      var how;
      r, how := ReadAll(x, rx, g0, g1, c);
      ReleaseFifo(x, how, g0, g1, c, 13);
    }

    lemma Start(x: nat)
      requires Valid() && x < 2
      ensures Reading(x, f0, f1, clock, []) && Inv(Pick(x, f0, f1))
      ensures Queue(x) == Pick(x, f0, f1) && Queue(1 - x) == Pick(1 - x, f0, f1)
    {
      hide Elapse, Heads, Inv;
      QueueSound(x);
      StartAfter();
      NoHeads(Pick(x, f0, f1), x, env, locked, clock);
    }

    /** The reads of CAN_Receive, each of its own: RIR three times, RDTR twice, RDLR and RDHR four times each. */
    method ReadAll(x: nat, rx: RxMsg, ghost g0: Fifo, ghost g1: Fifo, ghost c: nat) returns (r: RxMsg, how: Exit)
      requires x < 2 && Reading(x, g0, g1, c, [])
      modifies this
      ensures After(g0, g1, c, 13)
      ensures how == ReadAs(Pick(x, g0, g1), x, env, locked, c)
      ensures r == Assemble(Heads(Pick(x, g0, g1), x, env, locked, c, 13), rx)
    {
      hide *;
      var w := ReadMailbox(x, g0, g1, c, []);
      how := Label(x, g0, g1, c, w);
      ghost var h;
      r, h := ReadHeader(x, rx, w, g0, g1, c);
      var low, high;
      low, h := ReadData(x, false, g0, g1, c, h);
      high, h := ReadData(x, true, g0, g1, c, h);
      Assembled(h, r, low, high, rx);
      r := r.(data := low + high);
      DoneReading(x, g0, g1, c, h);
    }

    /** How the frame at the output will leave is settled by the first read. */
    method Label(x: nat, ghost g0: Fifo, ghost g1: Fifo, ghost c: nat, ghost w: Words) returns (how: Exit)
      requires x < 2 && Reading(x, g0, g1, c, [] + [w])
      ensures how == ReadAs(Pick(x, g0, g1), x, env, locked, c)
    {
      hide Inv, RunHw;
      how := if 0 < Queue(x).Pending() then Delivered else Unread;
    }

    lemma DoneReading(x: nat, g0: Fifo, g1: Fifo, c: nat, h: seq<Words>)
      requires Reading(x, g0, g1, c, h) && |h| == 13
      ensures After(g0, g1, c, 13) && h == Heads(Pick(x, g0, g1), x, env, locked, c, 13)
    {
    }

    /** Kind, identifier, RTR, length and filter index. */
    method ReadHeader(x: nat, rx: RxMsg, w0: Words, ghost g0: Fifo, ghost g1: Fifo, ghost c: nat)
      returns (r: RxMsg, ghost h: seq<Words>)
      requires x < 2 && Reading(x, g0, g1, c, [] + [w0])
      modifies this
      ensures Reading(x, g0, g1, c, h) && |h| == 5
      ensures r == Header(h, rx)
    {
      hide Reading, IdeOf, RtrOf, StdIdOf, ExtIdOf, DlcOf, Byte1, LowByte;
      r := rx.(ide := IdeOf(w0.ir));
      h := [] + [w0];
      var w := ReadMailbox(x, g0, g1, c, h);
      h := h + [w];
      if r.ide == ID_STANDARD {
        r := r.(stdId := StdIdOf(w.ir));
      } else {
        r := r.(extId := ExtIdOf(w.ir));
      }
      w := ReadMailbox(x, g0, g1, c, h);
      h := h + [w];
      r := r.(rtr := RtrOf(w.ir));
      w := ReadMailbox(x, g0, g1, c, h);
      h := h + [w];
      r := r.(dlc := DlcOf(w.dtr));
      w := ReadMailbox(x, g0, g1, c, h);
      h := h + [w];
      r := r.(fmi := Byte1(w.dtr));
    }

    /** The four reads of a data register. */
    method ReadData(x: nat, high: bool, ghost g0: Fifo, ghost g1: Fifo, ghost c: nat, ghost h0: seq<Words>)
      returns (data: seq<bv8>, ghost h: seq<Words>)
      requires x < 2 && Reading(x, g0, g1, c, h0)
      modifies this
      ensures Reading(x, g0, g1, c, h) && |h| == |h0| + 4 && h[..|h0|] == h0
      ensures data == DataBytes(h[|h0|..], high)
    {
      hide Reading, DataRegister, LowByte, Byte1, Byte2, Byte3;
      h := h0;
      var w := ReadMailbox(x, g0, g1, c, h);
      h := h + [w];
      var b0 := LowByte(DataRegister(w, high));
      w := ReadMailbox(x, g0, g1, c, h);
      h := h + [w];
      var b1 := Byte1(DataRegister(w, high));
      w := ReadMailbox(x, g0, g1, c, h);
      h := h + [w];
      var b2 := Byte2(DataRegister(w, high));
      w := ReadMailbox(x, g0, g1, c, h);
      h := h + [w];
      var b3 := Byte3(DataRegister(w, high));
      data := [b0, b1, b2, b3];
    }

    /** CAN_FIFORelease: whatever is pending at the output leaves without having been read. */
    method FifoRelease(x: nat)
      requires Valid() && x < 2
      modifies this
      ensures Valid() && Grows(old(Queue(x)), Queue(x))
      ensures Queue(1 - x) == Elapse(old(Queue(1 - x)), 1 - x, env, locked, old(clock), 2)
      ensures var g := Elapse(old(Queue(x)), x, env, locked, old(clock), 2);
              && Queue(x).kept == g.kept && Queue(x).arrived == g.arrived && Queue(x).lost == g.lost
              && Queue(x).exits == old(Queue(x)).exits + (if 0 < g.Pending() then [Unread] else [])
              // FULL and FOVR are cleared if they were set when RFxR was read
              && var v := Elapse(old(Queue(x)), x, env, locked, old(clock), 1);
                 Queue(x).full == (g.full && !v.full) && Queue(x).fovr == (g.fovr && !v.fovr)
    {
      hide RunHw, Elapse, Inv, Settles, WriteFlags, Grows, Released, After, Reading;
      QueueSound(x);
      Start(x);
      ReleasedUnread(Queue(x), x, env, locked, clock);
      StartAfter();
      ReleaseFifo(x, Unread, f0, f1, clock, 0);
    }

    /** CAN_MessagePending: the number of frames pending at the read, and 0 for a FIFO that does not exist. */
    method MessagePending(x: nat) returns (n: bv8)
      requires Valid()
      modifies this
      ensures Valid() && Grows(old(f0), f0) && Grows(old(f1), f1)
      ensures x < 2 ==> n as int == Queue(x).Pending() <= DEPTH
      ensures x >= 2 ==> n == 0 && f0 == old(f0) && f1 == old(f1)
    {
      if x < 2 {
        HwSettles(f0, 0, env(clock), locked);
        HwSettles(f1, 1, env(clock), locked);
        Tick();
        PendingBits(Queue(x));
        n := PendingField(Rfr(Queue(x)));
      } else {
        n := 0;
      }
    }
  }
}
