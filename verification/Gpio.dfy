/**
 A GPIO port: sixteen pins whose settings are spread over MODER, OSPEEDR, OTYPER, PUPDR and AFR[0..1].
 GPIO_Init configures every pin of a mask, GPIO_PinAFConfig one pin's alternate function.
 */
module Gpio {
  import opened Fields

  const MODER0: bv32 := 0x03
  const OSPEEDR0: bv32 := 0x03
  const OT_0: bv32 := 0x01
  const PUPDR0: bv32 := 0x03
  const AF_SET: bv32 := 0x0F

  /** The clear masks of the source, as wide as the fields. */
  lemma ClearMasks()
    ensures MODER0 == OSPEEDR0 == PUPDR0 == Ones(2) && OT_0 == Ones(1) && AF_SET == Ones(4)
  {
  }

  const MODE_OUT: bv32 := 1
  const MODE_AF: bv32 := 2

  datatype Regs = Regs(moder: bv32, ospeedr: bv32, otyper: bv32, pupdr: bv32, afrl: bv32, afrh: bv32)

  /** One pin, as the registers describe it. */
  datatype Pin = Pin(mode: bv32, speed: bv32, otype: bv32, pull: bv32, af: bv32)

  function PinOf(r: Regs, p: bv32): Pin
    requires p < 16
  {
    Pin(Get2(r.moder, p), Get2(r.ospeedr, p), Get1(r.otyper, p), Get2(r.pupdr, p),
        if p < 8 then Get(r.afrl, 4 * p, 4) else Get(r.afrh, 4 * (p - 8), 4))
  }

  // MODER, OSPEEDR and PUPDR hold two bits for each pin, OTYPER one.

  function Get2(x: bv32, p: bv32): bv32
    requires p < 16
  {
    Get(x, 2 * p, 2)
  }

  function Put2(x: bv32, p: bv32, v: bv32): bv32
    requires p < 16
  {
    Put(x, 2 * p, 2, v)
  }

  function Get1(x: bv32, p: bv32): bv32
    requires p < 16
  {
    Get(x, p, 1)
  }

  function Put1(x: bv32, p: bv32, v: bv32): bv32
    requires p < 16
  {
    Put(x, p, 1, v)
  }

  datatype Setup = Setup(pins: bv32, mode: bv32, speed: bv32, otype: bv32, pull: bv32)

  datatype Call = Init(setup: Setup) | PinAF(pin: bv32, af: bv32)

  /** The parameter checks. GPIO_Init checks speed and output type only where it uses them. */
  predicate Allowed(c: Call) {
    match c
    case Init(s) =>
      s.pins != 0 && s.mode <= 3 && s.pull <= 2 && (Drives(s.mode) ==> s.speed <= 3 && s.otype <= 1)
    case PinAF(pin, af) => pin < 16 && af <= 15
  }

  type Config = c: Call | Allowed(c) witness PinAF(0, 0)

  predicate Drives(mode: bv32) {
    mode == MODE_OUT || mode == MODE_AF
  }

  /** The test in the loop of GPIO_Init. */
  predicate Selected(pins: bv32, p: bv32)
    requires p < 16
  {
    pins & (1 << p) == 1 << p
  }

  /** GPIO_Init looks at bit p of the mask for pin p. */
  lemma SelectedMeans(pins: bv32, p: bv32)
    requires p < 16
    ensures Selected(pins, p) <==> Get1(pins, p) == 1
  {
    hide Get, Touches, OneAt;
    GetMeans(pins, p, 1);
    SelectedTouches(pins, p);
    BitMeans(pins, p);
    OneOnes();
  }

  lemma OneOnes()
    ensures (1 << 1) - 1 == 1 as bv32
  {
  }

  lemma SelectedTouches(pins: bv32, p: bv32)
    requires p < 16
    ensures Selected(pins, p) <==> Touches(pins, OneAt(p))
  {
    if Selected(pins, p) {
      SelectedHits(pins, p);
    } else if Touches(pins, OneAt(p)) {
      HitSelects(pins, p);
    }
    hide Selected, Touches, OneAt;
  }

  lemma SelectedHits(pins: bv32, p: bv32)
    requires p < 16 && Selected(pins, p)
    ensures Touches(pins, OneAt(p))
  {
  }

  lemma HitSelects(pins: bv32, p: bv32)
    requires p < 16 && Touches(pins, OneAt(p))
    ensures Selected(pins, p)
  {
  }

  /** GPIO_Pin_n, bit n of the mask, selects pin n alone, and a union of masks what its parts select. */
  lemma MasksSelect(a: bv32, b: bv32, n: bv32, p: bv32)
    requires n < 16 && p < 16
    ensures Selected(OneAt(n), p) <==> n == p
    ensures Selected(Or(a, b), p) <==> Selected(a, p) || Selected(b, p)
  {
    hide Selected, Touches, OneAt, Or;
    SelectedTouches(OneAt(n), p);
    OneAtApart(n, p);
    SelectedTouches(Or(a, b), p);
    SelectedTouches(a, p);
    SelectedTouches(b, p);
    OrTouches(a, b, OneAt(p));
  }

  /** Speed and output type matter for outputs, 1, and alternate functions, 2, not for inputs, 0, and analog pins, 3. */
  lemma DrivesMeans(mode: bv32)
    requires mode <= 3
    ensures Drives(mode) <==> mode != 0 && mode != 3
  {
  }

  /** Where the registers keep a pin: two bits, or one of OTYPER, or four of the half of AFR the pin is in. */
  lemma PinPlaces(r: Regs, p: bv32)
    requires p < 16
    ensures PinOf(r, p).mode == Get(r.moder, 2 * p, 2) && PinOf(r, p).speed == Get(r.ospeedr, 2 * p, 2)
    ensures PinOf(r, p).otype == Get(r.otyper, p, 1) && PinOf(r, p).pull == Get(r.pupdr, 2 * p, 2)
    ensures PinOf(r, p).af == if p < 8 then Get(r.afrl, 4 * p, 4) else Get(r.afrh, 4 * p - 32, 4)
  {
    hide Get;
  }

  // ---- What a call means for one pin ----

  function PinStep(v: Pin, p: bv32, c: Config): Pin
    requires p < 16
  {
    match c
    case Init(s) => if Get1(s.pins, p) == 1 then Configured(v, s) else v
    case PinAF(pin, af) => if pin == p then v.(af := af) else v
  }

  /** Mode and pull always; speed and output type only for an output or an alternate function. */
  function Configured(v: Pin, s: Setup): Pin {
    if s.mode == 1 || s.mode == 2 then v.(mode := s.mode, pull := s.pull, speed := s.speed, otype := s.otype)
    else v.(mode := s.mode, pull := s.pull)
  }

  function PinRun(v: Pin, p: bv32, calls: seq<Config>): Pin
    requires p < 16
  {
    if calls == [] then v else PinStep(PinRun(v, p, calls[..|calls| - 1]), p, calls[|calls| - 1])
  }

  // ---- What a call does to the registers ----

  function SetPin(r: Regs, p: bv32, s: Setup): Regs
    requires p < 16
  {
    if Drives(s.mode) then
      Regs(Put2(r.moder, p, s.mode), Put2(r.ospeedr, p, s.speed), Put1(r.otyper, p, s.otype),
           Put2(r.pupdr, p, s.pull), r.afrl, r.afrh)
    else r.(moder := Put2(r.moder, p, s.mode), pupdr := Put2(r.pupdr, p, s.pull))
  }

  /** The first n turns of the loop. */
  function InitPins(r: Regs, s: Setup, n: bv32): Regs
    requires n <= 16
    decreases n
  {
    if n == 0 then r else
      var r' := InitPins(r, s, n - 1);
      if Selected(s.pins, n - 1) then SetPin(r', n - 1, s) else r'
  }

  function SetAF(r: Regs, p: bv32, af: bv32): Regs
    requires p < 16
  {
    if p < 8 then r.(afrl := Put(r.afrl, 4 * p, 4, af)) else r.(afrh := Put(r.afrh, 4 * (p - 8), 4, af))
  }

  function Step(r: Regs, c: Config): Regs {
    match c
    case Init(s) => InitPins(r, s, 16)
    case PinAF(pin, af) => SetAF(r, pin, af)
  }

  function Run(r: Regs, calls: seq<Config>): Regs {
    if calls == [] then r else Step(Run(r, calls[..|calls| - 1]), calls[|calls| - 1])
  }

  // ---- The registers refine sixteen independent pins ----

  lemma Bits1(x: bv32, p: bv32, v: bv32, q: bv32)
    requires p < 16 && q < 16 && v <= 1
    ensures Get1(Put1(x, p, v), q) == if q == p then v else Get1(x, q)
  {
    hide Get, Put;
    if q == p {
      GetPut(x, p, 1, v);
    } else {
      Frame(x, p, 1, v, q, 1);
    }
  }

  lemma Bits2(x: bv32, p: bv32, v: bv32, q: bv32)
    requires p < 16 && q < 16 && v <= 3
    ensures Get2(Put2(x, p, v), q) == if q == p then v else Get2(x, q)
  {
    hide Get, Put;
    if q == p {
      GetPut(x, 2 * p, 2, v);
    } else {
      Frame(x, 2 * p, 2, v, 2 * q, 2);
    }
  }

  lemma Bits4(x: bv32, p: bv32, v: bv32, q: bv32)
    requires p < 8 && v <= 15
    ensures q < 8 ==> Get(Put(x, 4 * p, 4, v), 4 * q, 4) == if q == p then v else Get(x, 4 * q, 4)
  {
    hide Get, Put;
    if q == p {
      GetPut(x, 4 * p, 4, v);
    } else if q < 8 {
      Frame(x, 4 * p, 4, v, 4 * q, 4);
    }
  }

  lemma SetPinPin(r: Regs, p: bv32, s: Setup, q: bv32)
    requires p < 16 && q < 16 && Allowed(Init(s))
    ensures PinOf(SetPin(r, p, s), q) == if q == p then Configured(PinOf(r, q), s) else PinOf(r, q)
  {
    hide PinOf, Put2, Put1;
    var r1 := r.(moder := Put2(r.moder, p, s.mode), pupdr := Put2(r.pupdr, p, s.pull));
    SetMode(r, p, s, q);
    if Drives(s.mode) {
      SetDrive(r1, p, s, q);
    }
  }

  lemma SetMode(r: Regs, p: bv32, s: Setup, q: bv32)
    requires p < 16 && q < 16 && s.mode <= 3 && s.pull <= 2
    ensures var r1 := r.(moder := Put2(r.moder, p, s.mode), pupdr := Put2(r.pupdr, p, s.pull));
            PinOf(r1, q) == if q == p then PinOf(r, q).(mode := s.mode, pull := s.pull) else PinOf(r, q)
  {
    hide Get1, Get2, Put1, Put2, Get;
    Bits2(r.moder, p, s.mode, q);
    Bits2(r.pupdr, p, s.pull, q);
  }

  lemma SetDrive(r: Regs, p: bv32, s: Setup, q: bv32)
    requires p < 16 && q < 16 && s.speed <= 3 && s.otype <= 1
    ensures var r1 := r.(ospeedr := Put2(r.ospeedr, p, s.speed), otyper := Put1(r.otyper, p, s.otype));
            PinOf(r1, q) == if q == p then PinOf(r, q).(speed := s.speed, otype := s.otype) else PinOf(r, q)
  {
    hide Get1, Get2, Put1, Put2, Get;
    Bits2(r.ospeedr, p, s.speed, q);
    Bits1(r.otyper, p, s.otype, q);
  }

  lemma SetAFPin(r: Regs, p: bv32, af: bv32, q: bv32)
    requires p < 16 && q < 16 && af <= 15
    ensures PinOf(SetAF(r, p, af), q) == if q == p then PinOf(r, q).(af := af) else PinOf(r, q)
  {
    hide Get, Put;
    if p < 8 {
      Bits4(r.afrl, p, af, q);
    } else {
      Bits4(r.afrh, p - 8, af, q - 8);
    }
  }

  /** The loop configures exactly the selected pins among those it has passed. */
  lemma {:induction false} InitPinsPin(r: Regs, s: Setup, n: bv32, q: bv32)
    requires n <= 16 && q < 16 && Allowed(Init(s))
    ensures PinOf(InitPins(r, s, n), q) == if q < n && Get1(s.pins, q) == 1 then Configured(PinOf(r, q), s) else PinOf(r, q)
    decreases n
  {
    hide PinOf, SetPin, Selected, Allowed, Get1;
    if n != 0 {
      InitPinsPin(r, s, n - 1, q);
      SelectedMeans(s.pins, n - 1);
      SetPinPin(InitPins(r, s, n - 1), n - 1, s, q);
    }
  }

  /** Over every sequence of calls each pin is what its own calls made of it: no call disturbs another pin. */
  lemma {:induction false} PinTable(r: Regs, calls: seq<Config>, p: bv32)
    requires p < 16
    ensures PinOf(Run(r, calls), p) == PinRun(PinOf(r, p), p, calls)
  {
    if calls != [] {
      hide PinOf, SetAF, Configured, Selected, InitPins, Get1;
      var r' := Run(r, calls[..|calls| - 1]);
      PinTable(r, calls[..|calls| - 1], p);
      match calls[|calls| - 1]
      case Init(s) => InitPinsPin(r', s, 16, p);
      case PinAF(pin, af) => SetAFPin(r', pin, af, p);
    }
  }

  // ---- The driver ----

  class Gpio {
    var moder: bv32
    var ospeedr: bv32
    var otyper: bv32
    var pupdr: bv32
    var afrl: bv32
    var afrh: bv32

    function R(): Regs
      reads this
    {
      Regs(moder, ospeedr, otyper, pupdr, afrl, afrh)
    }

    constructor (r: Regs)
      ensures R() == r
    {
      moder, ospeedr, otyper, pupdr, afrl, afrh := r.moder, r.ospeedr, r.otyper, r.pupdr, r.afrl, r.afrh;
    }

    /** GPIO_Init. */
    method Init(s: Setup)
      requires Allowed(Call.Init(s))
      modifies this
      ensures R() == Step(old(R()), Call.Init(s))
    {
      hide Get, Put, SetPin, Allowed, Selected;
      var pinpos: bv32 := 0;
      while pinpos < 16
        invariant pinpos <= 16
        invariant R() == InitPins(old(R()), s, pinpos)
        decreases 16 - pinpos
      {
        if Selected(s.pins, pinpos) {
          Configure(pinpos, s);
        }
        pinpos := pinpos + 1;
      }
    }

    /** The body of the loop for a selected pin. */
    method Configure(pinpos: bv32, s: Setup)
      requires pinpos < 16
      modifies this
      ensures R() == SetPin(old(R()), pinpos, s)
    {
      hide Get, Put, Ones;
      ClearMasks();
      moder := ClearThenSet(moder, MODER0, pinpos * 2, s.mode, 2);
      if s.mode == MODE_OUT || s.mode == MODE_AF {
        ospeedr := ClearThenSet(ospeedr, OSPEEDR0, pinpos * 2, s.speed, 2);
        otyper := ClearThenSet(otyper, OT_0, pinpos, s.otype, 1);
      }
      pupdr := ClearThenSet(pupdr, PUPDR0, pinpos * 2, s.pull, 2);
    }

    /** GPIO_PinAFConfig. */
    method PinAFConfig(pinSource: bv32, af: bv32)
      requires pinSource < 16 && af <= 15
      modifies this
      ensures R() == Step(old(R()), PinAF(pinSource, af))
    {
      hide Get, Put, Ones;
      ClearMasks();
      LowBits(pinSource);
      if pinSource >> 3 == 0 {
        afrl := ClearThenSet(afrl, AF_SET, (pinSource & 7) * 4, af, 4);
      } else {
        afrh := ClearThenSet(afrh, AF_SET, (pinSource & 7) * 4, af, 4);
      }
    }
  }

  /** AFR[pin >> 3], field (pin & 7) * 4. */
  lemma LowBits(p: bv32)
    requires p < 16
    ensures (p >> 3 == 0) == (p < 8)
    ensures (p & 7) * 4 == if p < 8 then 4 * p else 4 * (p - 8)
  {
  }
}
