/** From the control word on: what OUT does for every count a program can write. */
module PitProgram {
  import opened Bits
  import opened PitExact
  import opened PitCounting
  import opened PitPeriodic
  import opened PitOneShot
  import opened PitInput
  import G = PitGate
  import T = PitTriggered
  import W = PitWaves

  function ControlMode(control: Byte): Mode {
    CanonicalMode((control / 2) % 8)
  }

  function ControlAccess(control: Byte): Byte {
    (control / 0x10) % 4
  }

  predicate ControlBcd(control: Byte) {
    control % 2 == 1
  }

  /** Control word, then a complete count. */
  function Programmed(c: Channel, control: Byte, lsb: Byte, msb: Byte): Channel {
    WriteCount(ProgramMode(c, control), lsb, msb)
  }

  /** The divisor a program gets: zero means the maximum, and one is not available to the periodic modes. */
  function ProgrammedDivisor(control: Byte, lsb: Byte, msb: Byte): nat {
    Number(ControlBcd(control), LegalRegister(ControlMode(control), WrittenCount(ControlAccess(control), lsb, msb)))
  }

  /** Not the counter latch command. */
  predicate Selects(control: Byte) {
    ControlAccess(control) != 0
  }

  lemma AfterProgramming(c: Channel, control: Byte, lsb: Byte, msb: Byte)
    requires Selects(control)
    ensures var d := Programmed(c, control, lsb, msb);
            && d.cfg.chip == c.cfg.chip && d.cfg.mode == ControlMode(control) && d.cfg.bcd == ControlBcd(control)
            && d.gate == c.gate
            && N(d) == ProgrammedDivisor(control, lsb, msb)
            && !d.core.toggleOnReload
            && d.core.state == (if ControlMode(control) == 1 || ControlMode(control) == 5 then WaitTrigger else LoadNext)
            && (d.core.output <==> ControlMode(control) != 0) && d.core.armed
            && d.cfg.rwMode == ControlAccess(control) && d.bus.writePhase == 0
            && !d.flags.initialLoad && !d.flags.incompleteReload
            && d.flags.countRegister == LegalRegister(ControlMode(control), WrittenCount(ControlAccess(control), lsb, msb))
            && (ControlMode(control) == 2 || ControlMode(control) == 3 ==> N(d) >= 2)
  {
    hide Number, WriteCount;
    var p := ProgramMode(c, control);
    var w := WrittenCount(ControlAccess(control), lsb, msb);
    WriteCountEffect(p, lsb, msb);
    SmallNumbers(ControlBcd(control));
    ReloadFacts(ControlBcd(control), w);
    ReloadFacts(ControlBcd(control), LegalRegister(ControlMode(control), w));
    FirstWriteKeepsLow(c, control, lsb, msb);
  }

  lemma FirstWriteKeepsLow(c: Channel, control: Byte, lsb: Byte, msb: Byte)
    ensures ControlMode(control) == 0 ==> !Programmed(c, control, lsb, msb).core.output
  {
  }

  /** A square wave of the programmed divisor starts at the first clock after the count. */
  lemma ProgrammedSquareWave(c: Channel, control: Byte, lsb: Byte, msb: Byte, k: nat)
    requires ControlMode(control) == 3 && Selects(control) && c.gate
    ensures var n := ProgrammedDivisor(control, lsb, msb);
            n >= 2 && (Ticks(Tick(Programmed(c, control, lsb, msb)), k).core.output <==> k % n < (n + 1) / 2)
  {
    hide Programmed, Tick, ProgrammedDivisor, Ticks;
    AfterProgramming(c, control, lsb, msb);
    SquareWave(Programmed(c, control, lsb, msb), k);
  }

  lemma ProgrammedRateGenerator(c: Channel, control: Byte, lsb: Byte, msb: Byte, k: nat)
    requires ControlMode(control) == 2 && Selects(control) && c.gate
    ensures var n := ProgrammedDivisor(control, lsb, msb);
            n >= 2 && (Ticks(Tick(Programmed(c, control, lsb, msb)), k).core.output <==> k % n != n - 1)
  {
    hide Programmed, Tick, ProgrammedDivisor, Ticks;
    AfterProgramming(c, control, lsb, msb);
    RateGenerator(Programmed(c, control, lsb, msb), k);
  }

  lemma ProgrammedTerminalCount(c: Channel, control: Byte, lsb: Byte, msb: Byte, es: seq<Event>)
    requires ControlMode(control) == 0 && Selects(control) && PinsOnly(es)
    ensures var d := Programmed(c, control, lsb, msb);
            && !d.core.output
            && (Run(Tick(d), es).core.output <==> GatedClocks(c.gate, es) >= ProgrammedDivisor(control, lsb, msb))
  {
    hide Programmed, Tick, ProgrammedDivisor, Run, GatedClocks;
    AfterProgramming(c, control, lsb, msb);
    TerminalCount(Programmed(c, control, lsb, msb), es);
  }

  /** The periodic modes through any GATE edges, the count being written with GATE high or low. */
  lemma ProgrammedGatedWave(c: Channel, control: Byte, lsb: Byte, msb: Byte, es: seq<Event>)
    requires ControlMode(control) == 2 || ControlMode(control) == 3
    requires Selects(control) && PinsOnly(es)
    ensures var d := Programmed(c, control, lsb, msb);
            var s := G.Shape(ControlMode(control), ProgrammedDivisor(control, lsb, msb), Odd8254(d));
            Run(d, es).core.output <==> G.Level(G.WaveRun(G.FirstWave(c.gate), s, es), s)
  {
    hide Programmed, Tick, ProgrammedDivisor, Run, G.WaveRun;
    AfterProgramming(c, control, lsb, msb);
    G.GatedWave(Programmed(c, control, lsb, msb), es);
  }

  /**
   Modes 1, 4 and 5 from the control word on, through any clocks, GATE edges and further count bytes: mode 1 waits high
   for its first trigger, mode 5 for the trigger of its first strobe, and mode 4 loads at the next clock.
   */
  lemma ProgrammedTriggered(c: Channel, control: Byte, lsb: Byte, msb: Byte, es: seq<Event>)
    requires ControlMode(control) == 1 || ControlMode(control) == 4 || ControlMode(control) == 5
    requires Selects(control)
    ensures Run(Programmed(c, control, lsb, msb), es).core.output <==>
            T.Level(T.PulseRun(FirstPulse(c, control, lsb, msb), ControlledBy(c, control), es), ControlledBy(c, control))
  {
    hide Programmed, Tick, ProgrammedDivisor, Run, T.PulseRun, Number;
    AfterProgramming(c, control, lsb, msb);
    T.FollowsRun(Programmed(c, control, lsb, msb), FirstPulse(c, control, lsb, msb), es);
  }

  function ControlledBy(c: Channel, control: Byte): Setup {
    Setup(c.cfg.chip, ControlMode(control), ControlBcd(control), ControlAccess(control))
  }

  /** Nothing loaded yet; mode 4 is about to. */
  function FirstPulse(c: Channel, control: Byte, lsb: Byte, msb: Byte): T.Pulse {
    T.Pulse(0, 0, false, ControlMode(control) == 4, c.gate,
            Input(WrittenCount(ControlAccess(control), lsb, msb), false, false))
  }

  /** The periodic modes never run with a divisor of one: mode 2 uses two, mode 3 the maximum. */
  lemma DivisorOne(control: Byte, lsb: Byte, msb: Byte)
    requires WrittenCount(ControlAccess(control), lsb, msb) == 1
    ensures ControlMode(control) == 2 ==> ProgrammedDivisor(control, lsb, msb) == 2
    ensures ControlMode(control) == 3 ==> ProgrammedDivisor(control, lsb, msb) == Modulus(ControlBcd(control))
    ensures ControlMode(control) != 2 && ControlMode(control) != 3 ==> ProgrammedDivisor(control, lsb, msb) == 1
  {
    SmallNumbers(ControlBcd(control));
  }

  /**
   Modes 0, 2 and 3 from the control word alone, through any clocks, GATE edges and count bytes: OUT is that of a reference
   that knows only numbers of clocks and what has been written.
   */
  lemma ControlledWaves(c: Channel, control: Byte, es: seq<Event>)
    requires Selects(control)
    ensures var d, a := ProgramMode(c, control), ControlledBy(c, control);
            var out, i := Run(d, es).core.output, W.FirstInput(c);
            && (a.mode == 0 ==> (out <==> W.Reached(W.CountdownRun(W.Countdown(0, 0, false, false, c.gate, i), a, es))))
            && (a.mode == 2 ==> (out <==> W.RateRun(W.Rate(0, false, true, c.gate, i), a, es).left != 1))
            && (a.mode == 3 ==> (out <==> W.SquareRun(W.Square(0, true, false, false, true, c.gate, i), a, es).high))
  {
    hide Run, W.CountdownRun, W.RateRun, W.SquareRun;
    var d := ProgramMode(c, control);
    W.ControlIsFresh(c, control);
    if d.cfg.mode == 0 {
      W.TerminalCounts(d, es);
    } else if d.cfg.mode == 2 {
      W.Rated(d, es);
    } else if d.cfg.mode == 3 {
      W.Squared(d, es);
    }
  }
}
