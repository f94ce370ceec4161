/**
 The triggered modes over any run of clocks, GATE edges and count bytes: the retriggerable pulse (mode 1), the strobe
 started by software (mode 4) and the strobe started by GATE (mode 5).
 */
module PitTriggered {
  import opened Bits
  import opened Remainders
  import opened PitExact
  import opened PitCounting
  import opened PitPeriodic
  import opened PitInput

  /**
   The output as the datasheet tells it: `length` is the count taken at the last load, `age` the clocks counted since
   then, `fired` whether there has been a load and `pending` whether the next clock makes one.
   */
  datatype Pulse = Pulse(length: nat, age: nat, fired: bool, pending: bool, gate: bool, input: Input)

  /** The strobe's one low clock: as many clocks after the load as the count says, and once a modulus from then on. */
  predicate Strobing(p: Pulse, a: Setup) {
    p.fired && p.age >= p.length && (p.age - p.length) % (Modulus(a.bcd) + 1) == 0
  }

  predicate Level(p: Pulse, a: Setup) {
    if a.mode == 1 then p.age >= p.length else !Strobing(p, a)
  }

  /** GATE low stops mode 4, but not in the middle of its strobe. */
  predicate Counts(p: Pulse, a: Setup) {
    p.fired && (a.mode == 4 ==> p.gate || Strobing(p, a))
  }

  function PulseStep(p: Pulse, a: Setup, e: Event): Pulse {
    match e
    case Clock =>
      if p.pending then
        p.(length := Number(a.bcd, p.input.register), age := 0, fired := true, pending := false,
           input := Taken(p.input))
      else if Counts(p, a) then p.(age := p.age + 1)
      else p
    case Gate(high) => p.(pending := p.pending || (a.mode != 4 && high && !p.gate), gate := high)
    case Write(value) =>
      if Completes(p.input, a) then
        p.(input := CountIn(p.input, a, value), pending := p.pending || a.mode == 4 || p.input.torn)
      else p.(input := FirstByteIn(p.input, value))
  }

  function PulseRun(p: Pulse, a: Setup, es: seq<Event>): Pulse {
    if es == [] then p else PulseStep(PulseRun(p, a, es[..|es| - 1]), a, es[|es| - 1])
  }

  // ---- the counter behind it ----

  /** A loaded one-shot. */
  ghost predicate Timing(c: Channel, p: Pulse) {
    && c.core.state == Counting
    && (p.age < p.length ==>
          c.core.armed && Number(c.cfg.bcd, c.core.ce) == p.length - p.age)
  }

  /** A loaded strobe counter. */
  ghost predicate Approaching(c: Channel, p: Pulse) {
    var m := Modulus(c.cfg.bcd);
    if p.age < p.length then
      c.core.state == Counting && Number(c.cfg.bcd, c.core.ce) == p.length - p.age
    else
      var q := (p.age - p.length) % (m + 1);
      c.core.state == (if q == 0 then StrobeRecover else Counting)
      && Number(c.cfg.bcd, c.core.ce) == if q == 0 then m else m + 1 - q
  }

  ghost predicate Follows(c: Channel, p: Pulse) {
    && (c.cfg.mode == 1 || c.cfg.mode == 4 || c.cfg.mode == 5) && 1 <= c.cfg.rwMode <= 3 && Receiving(c, p.input)
    && !c.flags.initialLoad && c.gate == p.gate
    && c.core.output == Level(p, SetupOf(c))
    && (p.fired ==> p.length >= 1)
    && (!p.fired ==> p.length == 0 && p.age == 0)
    && (if p.pending then c.core.state == LoadNext && c.core.armed
        else if !p.fired then c.core.state == WaitTrigger
        else if c.cfg.mode == 1 then Timing(c, p) else Approaching(c, p))
  }

  /** The clock that loads. */
  lemma LoadClock(c: Channel, p: Pulse)
    requires Follows(c, p) && p.pending
    ensures Follows(Tick(c), PulseStep(p, SetupOf(c), Clock)) && Tick(c).cfg == c.cfg
  {
    hide Number;
    ReloadFacts(c.cfg.bcd, c.flags.countRegister);
  }

  lemma IdleClock(c: Channel, p: Pulse)
    requires Follows(c, p) && !p.pending && !Counts(p, SetupOf(c))
    ensures Follows(Tick(c), PulseStep(p, SetupOf(c), Clock)) && Tick(c).cfg == c.cfg
  {
    hide Number;
  }

  lemma PulseClock(c: Channel, p: Pulse)
    requires Follows(c, p) && !p.pending && p.fired && c.cfg.mode == 1
    ensures Follows(Tick(c), PulseStep(p, SetupOf(c), Clock)) && Tick(c).cfg == c.cfg
  {
    hide Number, DecrementValue, Receiving;
    Predecessor(c.cfg.bcd, c.core.ce);
    TickReceives(c, p.input);
  }

  lemma ApproachClock(c: Channel, p: Pulse)
    requires Follows(c, p) && !p.pending && Counts(p, SetupOf(c)) && c.cfg.mode != 1 && p.age < p.length
    ensures Follows(Tick(c), PulseStep(p, SetupOf(c), Clock)) && Tick(c).cfg == c.cfg
  {
    hide Number, DecrementValue, Receiving, Modulus;
    Predecessor(c.cfg.bcd, c.core.ce);
    TickReceives(c, p.input);
    RemainderUnique(0, Modulus(c.cfg.bcd) + 1, 0, 0);
    BackByOne(c.cfg.bcd, Number(c.cfg.bcd, c.core.ce));
  }

  lemma StrobeClock(c: Channel, p: Pulse)
    requires Follows(c, p) && !p.pending && Counts(p, SetupOf(c)) && c.cfg.mode != 1 && p.age >= p.length
    ensures Follows(Tick(c), PulseStep(p, SetupOf(c), Clock)) && Tick(c).cfg == c.cfg
  {
    hide Number, DecrementValue, Receiving, Modulus;
    var m := Modulus(c.cfg.bcd);
    Predecessor(c.cfg.bcd, c.core.ce);
    TickReceives(c, p.input);
    NextRemainder(p.age - p.length, m + 1);
    BackByOne(c.cfg.bcd, Number(c.cfg.bcd, c.core.ce));
  }

  lemma BackByOne(bcd: bool, x: nat)
    requires x >= 1
    ensures Modulus(bcd) > 2 && Back(bcd, x, 1) == if x == 1 then Modulus(bcd) else x - 1
  {
  }

  lemma FirstByte(c: Channel, p: Pulse, value: Byte)
    requires Follows(c, p) && !Completes(p.input, SetupOf(c))
    ensures Follows(DataWrite(c, value), PulseStep(p, SetupOf(c), Write(value)))
    ensures DataWrite(c, value).cfg == c.cfg
  {
    hide Number, Modulus;
  }

  lemma LastByte(c: Channel, p: Pulse, value: Byte)
    requires Follows(c, p) && Completes(p.input, SetupOf(c))
    ensures Follows(DataWrite(c, value), PulseStep(p, SetupOf(c), Write(value)))
    ensures DataWrite(c, value).cfg == c.cfg
  {
    hide Number, Modulus;
  }

  lemma GateStep(c: Channel, p: Pulse, high: bool)
    requires Follows(c, p)
    ensures Follows(SetGate(c, high), PulseStep(p, SetupOf(c), Gate(high)))
    ensures SetGate(c, high).cfg == c.cfg
  {
    hide Number;
  }

  lemma {:induction false} FollowsRun(c: Channel, p: Pulse, es: seq<Event>)
    requires Follows(c, p)
    ensures Follows(Run(c, es), PulseRun(p, SetupOf(c), es)) && Run(c, es).cfg == c.cfg
  {
    hide Number, Tick, DataWrite, SetGate, CountIn, Receiving, Timing, Approaching, Level, Counts;
    if es != [] {
      var init, e := es[..|es| - 1], es[|es| - 1];
      FollowsRun(c, p, init);
      var d, q := Run(c, init), PulseRun(p, SetupOf(c), init);
      match e {
        case Clock =>
          if q.pending {
            LoadClock(d, q);
          } else if !Counts(q, SetupOf(d)) {
            IdleClock(d, q);
          } else if d.cfg.mode == 1 {
            CountsFired(q, SetupOf(d));
            PulseClock(d, q);
          } else if q.age < q.length {
            ApproachClock(d, q);
          } else {
            StrobeClock(d, q);
          }
        case Gate(high) => GateStep(d, q, high);
        case Write(value) =>
          if Completes(q.input, SetupOf(d)) {
            LastByte(d, q, value);
          } else {
            FirstByte(d, q, value);
          }
      }
    }
  }

  lemma CountsFired(p: Pulse, a: Setup)
    ensures Counts(p, a) ==> p.fired
  {
  }

  /**
   Mode 1 from a trigger's load on: OUT is low until as many clocks after the last load as the count then taken says.
   A count written meanwhile waits for the next trigger and leaves the pulse in progress alone, unless a trigger's
   load takes it half-written: then its second byte starts a pulse of the full count at the next clock.
   */
  lemma RetriggerablePulse(c: Channel, es: seq<Event>)
    requires c.cfg.mode == 1 && 1 <= c.cfg.rwMode <= 3 && c.bus.writePhase == 0
    requires !c.flags.initialLoad && !c.flags.incompleteReload && c.core.state == LoadNext && c.core.armed
    ensures var p := PulseRun(LoadedPulse(c), SetupOf(c), es);
            Run(Tick(c), es).core.output <==> p.age >= p.length
  {
    hide PulseRun, Run;
    ReloadFacts(c.cfg.bcd, c.flags.countRegister);
    FollowsRun(Tick(c), LoadedPulse(c), es);
  }

  /** The pulse just loaded from a complete count register. */
  function LoadedPulse(c: Channel): Pulse {
    Pulse(N(c), 0, true, false, c.gate, Input(c.flags.countRegister, false, false))
  }

  /** Count 2, a trigger and its load, then the low byte 1 of a new count. */
  function HalfCounted(): Channel {
    var c := DataWrite(DataWrite(ProgramMode(ResetChannel(Pit8253), 0x32), 2), 0);
    DataWrite(Tick(SetGate(c, true)), 1)
  }

  lemma HalfCountedFacts()
    ensures var d := HalfCounted();
            && d.cfg.mode == 1 && d.cfg.rwMode == 3 && !d.cfg.bcd && d.gate && d.bus.writePhase == 1
            && d.core.state == Counting && d.flags.countRegister == 1 && !d.flags.initialLoad
  {
    var b := DataWrite(ProgramMode(ResetChannel(Pit8253), 0x32), 2);
    assert b.flags.countRegister == 2 && b.bus.writePhase == 1 && b.cfg.mode == 1 && b.cfg.rwMode == 3;
    var c := DataWrite(b, 0);
    assert c.flags.countRegister == 2 && c.core.state == WaitTrigger && c.bus.writePhase == 0;
  }

  /**
   A pulse without a trigger: a second trigger loads the half-written count and three clocks later OUT is high; the high
   byte 0 and one clock take it low with GATE untouched.
   */
  lemma TornTrigger()
    ensures var e := Ticks(SetGate(SetGate(HalfCounted(), false), true), 3);
            e.core.output && e.core.state == Counting && !Tick(DataWrite(e, 0)).core.output
  {
    hide HalfCounted;
    HalfCountedFacts();
    var f := SetGate(SetGate(HalfCounted(), false), true);
    assert f.core.state == LoadNext && f.core.armed && f.flags == HalfCounted().flags && f.bus == HalfCounted().bus;
    ThreeClocks(f);
  }

  lemma ThreeClocks(f: Channel)
    requires f.cfg.mode == 1 && f.cfg.rwMode == 3 && !f.cfg.bcd && f.core.state == LoadNext && f.core.armed
    requires f.flags.countRegister == 1 && !f.flags.initialLoad && f.bus.writePhase == 1
    ensures var e := Ticks(f, 3);
            e.core.output && e.core.state == Counting && !Tick(DataWrite(e, 0)).core.output
  {
    hide Ticks;
    var g := Tick(f);
    assert g.core.ce == 1 && g.core.state == Counting && g.flags.incompleteReload && g.core.armed && g.cfg == f.cfg;
    assert g.bus.writePhase == 1 && !g.flags.initialLoad;
    var h := Tick(g);
    assert h.core.output && h.core.state == Counting && h.flags == g.flags && h.cfg == f.cfg && h.bus.writePhase == 1;
    var e := Tick(h);
    ThirdTick(f);
    assert e.core.output && e.core.state == Counting && e.flags == g.flags && e.cfg == f.cfg && e.bus.writePhase == 1;
    var w := DataWrite(e, 0);
    assert w.core.state == LoadNext && w.cfg == f.cfg;
  }

  lemma ThirdTick(f: Channel)
    ensures Ticks(f, 3) == Tick(Tick(Tick(f)))
  {
    hide Tick;
    assert Ticks(f, 0) == f && Ticks(f, 1) == Tick(f) && Ticks(f, 2) == Tick(Tick(f));
  }
}
