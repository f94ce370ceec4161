/** Terminal count (mode 0) over any run of clock and GATE edges, and the strobes (modes 4 and 5) left alone. */
module PitOneShot {
  import opened Bits
  import opened PitExact
  import opened PitCounting
  import opened PitPeriodic

  /** A count write in the access mode that is programmed: low byte only, high byte only, or both. */
  function WriteCount(c: Channel, lsb: Byte, msb: Byte): Channel {
    if c.cfg.rwMode == 1 then DataWrite(c, lsb)
    else if c.cfg.rwMode == 2 then DataWrite(c, msb)
    else if c.cfg.rwMode == 3 then DataWrite(DataWrite(c, lsb), msb)
    else c
  }

  function WrittenCount(rwMode: Byte, lsb: Byte, msb: Byte): Word {
    if rwMode == 1 then lsb else if rwMode == 2 then 0x100 * msb else lsb + 0x100 * msb
  }

  /** What a complete count write does to everything but the counting element. */
  predicate CountWritten(c: Channel, d: Channel, lsb: Byte, msb: Byte) {
    && d.cfg == c.cfg && d.bus == c.bus && d.gate == c.gate
    && d.flags.countRegister == LegalRegister(c.cfg.mode, WrittenCount(c.cfg.rwMode, lsb, msb))
    && !d.flags.initialLoad
    && (d.flags.incompleteReload ==> c.flags.incompleteReload)
    && d.core.ce == c.core.ce && d.core.toggleOnReload == c.core.toggleOnReload && d.core.armed
    && (c.cfg.mode != 0 ==> d.core.output == c.core.output)
    && (c.cfg.mode == 0 && c.cfg.rwMode == 3 ==> !d.core.output)
    && (c.flags.initialLoad || c.flags.incompleteReload || c.cfg.mode == 0 || c.cfg.mode == 4 ==>
          d.core.state == if c.flags.initialLoad && (c.cfg.mode == 1 || c.cfg.mode == 5) then WaitTrigger else LoadNext)
    && (!c.flags.initialLoad && !c.flags.incompleteReload && c.cfg.mode != 0 && c.cfg.mode != 4 ==>
          d.core.state == c.core.state)
  }

  lemma WriteOneByte(c: Channel, lsb: Byte, msb: Byte)
    requires 1 <= c.cfg.rwMode <= 2 && c.bus.writePhase == 0
    ensures CountWritten(c, WriteCount(c, lsb, msb), lsb, msb)
  {
  }

  lemma WriteBothBytes(c: Channel, lsb: Byte, msb: Byte)
    requires c.cfg.rwMode == 3 && c.bus.writePhase == 0
    ensures CountWritten(c, WriteCount(c, lsb, msb), lsb, msb)
  {
  }

  lemma WriteCountEffect(c: Channel, lsb: Byte, msb: Byte)
    requires 1 <= c.cfg.rwMode <= 3 && c.bus.writePhase == 0
    ensures CountWritten(c, WriteCount(c, lsb, msb), lsb, msb)
  {
    hide WriteCount, WrittenCount;
    if c.cfg.rwMode == 3 {
      WriteBothBytes(c, lsb, msb);
    } else {
      WriteOneByte(c, lsb, msb);
    }
  }

  // ---- mode 0 ----

  /** GATE's level after a run, starting from `gate`. */
  function GateAfter(gate: bool, es: seq<Event>): bool {
    if es == [] then gate
    else match es[|es| - 1]
      case Gate(high) => high
      case _ => GateAfter(gate, es[..|es| - 1])
  }

  /** Clock edges of a run that find GATE high. */
  function GatedClocks(gate: bool, es: seq<Event>): nat {
    if es == [] then 0
    else
      var init := es[..|es| - 1];
      GatedClocks(gate, init) + (if es[|es| - 1].Clock? && GateAfter(gate, init) then 1 else 0)
  }

  /** `g` gated clocks after the load. */
  ghost predicate Mode0Phase(c: Channel, g: nat) {
    && c.cfg.mode == 0 && c.core.state == Counting
    && c.core.output == (g >= N(c))
    && (g < N(c) ==> Number(c.cfg.bcd, c.core.ce) == N(c) - g)
  }

  lemma Mode0Step(c: Channel, g: nat)
    requires Mode0Phase(c, g)
    ensures Mode0Phase(Tick(c), if c.gate then g + 1 else g)
    ensures Tick(c).gate == c.gate && Tick(c).cfg == c.cfg && N(Tick(c)) == N(c)
  {
    ReloadFacts(c.cfg.bcd, c.flags.countRegister);
    Predecessor(c.cfg.bcd, c.core.ce);
  }

  lemma {:induction false} Mode0Run(c: Channel, es: seq<Event>)
    requires Mode0Phase(c, 0) && PinsOnly(es)
    ensures Mode0Phase(Run(c, es), GatedClocks(c.gate, es))
    ensures Run(c, es).gate == GateAfter(c.gate, es) && N(Run(c, es)) == N(c)
  {
    hide Number, Tick;
    if es != [] {
      var init := es[..|es| - 1];
      Mode0Run(c, init);
      Mode0Step(Run(c, init), GatedClocks(c.gate, init));
    }
  }

  /** After the load OUT stays low for exactly N clocks with GATE high and then stays high. */
  lemma TerminalCount(c: Channel, es: seq<Event>)
    requires c.cfg.mode == 0 && c.core.state == LoadNext && PinsOnly(es)
    ensures Run(Tick(c), es).core.output <==> GatedClocks(c.gate, es) >= N(c)
  {
    ReloadFacts(c.cfg.bcd, c.flags.countRegister);
    Mode0Run(Tick(c), es);
  }

  // ---- modes 4 and 5 ----

  /**
   A strobe counter whose GATE does not block it: `q` ticks after the load while the count is still
   running down, then `q` ticks after the latest strobe.
   */
  ghost predicate StrobePhase(c: Channel, first: bool, q: nat) {
    && (c.cfg.mode == 5 || (c.cfg.mode == 4 && c.gate))
    && var n, m := N(c), Modulus(c.cfg.bcd);
       if first then
         && q < n && c.core.output && c.core.state == Counting
         && Number(c.cfg.bcd, c.core.ce) == n - q
       else
         && q <= m && c.core.output == (q != 0) && c.core.state == (if q == 0 then StrobeRecover else Counting)
         && Number(c.cfg.bcd, c.core.ce) == (if q == 0 then m else m + 1 - q)
  }

  lemma StrobeStep(c: Channel, first: bool, q: nat)
    requires StrobePhase(c, first, q)
    ensures if first then (if q + 1 == N(c) then StrobePhase(Tick(c), false, 0) else StrobePhase(Tick(c), true, q + 1))
            else StrobePhase(Tick(c), false, NextPhase(q, Modulus(c.cfg.bcd) + 1))
    ensures Tick(c).cfg == c.cfg && Tick(c).gate == c.gate && N(Tick(c)) == N(c)
  {
    hide Number;
    ReloadFacts(c.cfg.bcd, c.flags.countRegister);
    Predecessor(c.cfg.bcd, c.core.ce);
  }

  lemma {:induction false} StrobeRun(c: Channel, t: nat)
    requires StrobePhase(c, true, 0)
    ensures StrobePhase(Ticks(c, t), t < N(c), if t < N(c) then t else PhaseAt(t - N(c), Modulus(c.cfg.bcd) + 1))
    ensures N(Ticks(c, t)) == N(c) && Ticks(c, t).cfg == c.cfg
  {
    hide Number, Tick;
    if t > 0 {
      StrobeRun(c, t - 1);
      StrobeStep(Ticks(c, t - 1), t - 1 < N(c),
                 if t - 1 < N(c) then t - 1 else PhaseAt(t - 1 - N(c), Modulus(c.cfg.bcd) + 1));
    }
  }

  lemma StrobeLoad(c: Channel)
    requires (c.cfg.mode == 5 || (c.cfg.mode == 4 && c.gate)) && c.core.state == LoadNext
    ensures StrobePhase(Tick(c), true, 0) && N(Tick(c)) == N(c) && Tick(c).cfg == c.cfg
  {
    ReloadFacts(c.cfg.bcd, c.flags.countRegister);
  }

  /**
   The strobe is one clock wide and first falls N clocks after the load. The counter keeps counting, so
   it falls again: exactly every Modulus + 1 clocks, the extra one being the recovery clock.
   */
  lemma StrobeTrain(c: Channel, t: nat)
    requires (c.cfg.mode == 5 || (c.cfg.mode == 4 && c.gate)) && c.core.state == LoadNext
    ensures !Ticks(Tick(c), t).core.output <==> t >= N(c) && (t - N(c)) % (Modulus(c.cfg.bcd) + 1) == 0
  {
    hide Tick, Number;
    StrobeLoad(c);
    StrobeRun(Tick(c), t);
    if t >= N(c) {
      PhaseIsRemainder(t - N(c), Modulus(c.cfg.bcd) + 1);
    }
  }
}
