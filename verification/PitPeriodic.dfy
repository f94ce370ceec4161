/**
 The periodic modes: closed forms of OUT over unboundedly many ticks for the square wave (mode 3)
 and the rate generator (mode 2).
 */
module PitPeriodic {
  import opened Bits
  import opened Remainders
  import opened PitExact
  import opened PitCounting

  /** The divisor in force: binary or BCD, whatever the digits, zero meaning the maximum. */
  function N(c: Channel): nat {
    Number(c.cfg.bcd, c.flags.countRegister)
  }

  /** Gate high, and a periodic mode with divisor at least two. */
  predicate Running(c: Channel, mode: Mode) {
    c.cfg.mode == mode && c.gate && N(c) >= 2
  }

  function High(n: nat): nat {
    (n + 1) / 2
  }

  // ---- mode 3 ----

  predicate Odd8254(c: Channel) {
    c.cfg.chip == Pit8254 && c.flags.countRegister % 2 == 1
  }

  /** The number in the counting element `q` ticks into a half-cycle of divisor `n`. */
  function Mode3Number(c: Channel, n: nat, q: nat, high: bool): int {
    if Odd8254(c) then n - 1 - 2 * q
    else if n % 2 == 0 || q == 0 then n - 2 * q
    else if high then n + 1 - 2 * q
    else n - 1 - 2 * q
  }

  /** The channel is `p` ticks into its square-wave period. */
  ghost predicate Mode3Phase(c: Channel, p: nat) {
    && Running(c, 3)
    && p < N(c)
    && var n, h := N(c), High(N(c));
       var q := if p < h then p else p - h;
       var ending := Odd8254(c) && p == h - 1;
       && c.core.output == (p < h)
       && c.core.state == (if ending then ReloadNext else Counting)
       && c.core.toggleOnReload == ending
       && (!ending ==> Number(c.cfg.bcd, c.core.ce) == Mode3Number(c, n, q, p < h))
  }

  function NextPhase(p: nat, n: nat): nat {
    if p + 1 == n then 0 else p + 1
  }

  function PhaseAt(k: nat, n: nat): nat {
    if k == 0 then 0 else NextPhase(PhaseAt(k - 1, n), n)
  }

  lemma {:induction false} PhaseIsRemainder(k: nat, n: nat)
    requires n > 0
    ensures PhaseAt(k, n) == k % n
  {
    if k > 0 {
      PhaseIsRemainder(k - 1, n);
      NextRemainder(k - 1, n);
    } else {
      RemainderUnique(0, n, 0, 0);
    }
  }

  /** Where a load starts the wave: in the low half if it has to make up for a toggle put off at the end of the high one. */
  function LoadPhase(c: Channel): nat {
    if c.core.toggleOnReload && c.core.output then High(N(c)) else 0
  }

  lemma Mode3Load(c: Channel)
    requires Running(c, 3) && c.core.state == LoadNext
    ensures Mode3Phase(Tick(c), LoadPhase(c))
    ensures Tick(c).flags.countRegister == c.flags.countRegister && Tick(c).cfg == c.cfg
  {
    hide Number;
    ReloadFacts(c.cfg.bcd, c.flags.countRegister);
    if Odd8254(c) {
      DropLowBitFacts(c.cfg.bcd, c.flags.countRegister);
    }
  }

  lemma Mode3StepOdd8254(c: Channel, p: nat)
    requires Mode3Phase(c, p) && Odd8254(c)
    ensures Mode3Phase(Tick(c), NextPhase(p, N(c)))
  {
    hide Number, DecrementBy;
    var n := N(c);
    ReloadFacts(c.cfg.bcd, c.flags.countRegister);
    DropLowBitFacts(c.cfg.bcd, c.flags.countRegister);
    if p != High(n) - 1 {
      Predecessors(c.cfg.bcd, c.core.ce, 2);
    }
  }

  lemma Mode3StepEven(c: Channel, p: nat)
    requires Mode3Phase(c, p) && c.flags.countRegister % 2 == 0
    ensures Mode3Phase(Tick(c), NextPhase(p, N(c)))
  {
    hide Number, DecrementBy;
    ReloadFacts(c.cfg.bcd, c.flags.countRegister);
    Predecessors(c.cfg.bcd, c.core.ce, 2);
  }

  lemma HighStepOdd8253(c: Channel, p: nat)
    requires Mode3Phase(c, p) && c.flags.countRegister % 2 == 1 && c.cfg.chip == Pit8253 && c.core.output
    ensures Mode3Phase(Tick(c), NextPhase(p, N(c)))
  {
    hide Number, DecrementBy;
    var bcd := c.cfg.bcd;
    ReloadFacts(bcd, c.flags.countRegister);
    NumberFacts(bcd, c.core.ce);
    var s := if c.core.ce % 2 == 1 then 1 else 2;
    Predecessors(bcd, c.core.ce, s);
  }

  lemma LowStepOdd8253(c: Channel, p: nat)
    requires Mode3Phase(c, p) && c.flags.countRegister % 2 == 1 && c.cfg.chip == Pit8253 && !c.core.output
    ensures Mode3Phase(Tick(c), NextPhase(p, N(c)))
  {
    hide Number, DecrementBy;
    var bcd := c.cfg.bcd;
    ReloadFacts(bcd, c.flags.countRegister);
    NumberFacts(bcd, c.core.ce);
    var s := if c.core.ce % 2 == 1 then 3 else 2;
    Predecessors(bcd, c.core.ce, s);
  }

  lemma Mode3Step(c: Channel, p: nat)
    requires Mode3Phase(c, p)
    ensures Mode3Phase(Tick(c), NextPhase(p, N(c)))
    ensures Tick(c).flags.countRegister == c.flags.countRegister && Tick(c).cfg == c.cfg
  {
    if c.flags.countRegister % 2 == 0 {
      Mode3StepEven(c, p);
    } else if c.cfg.chip == Pit8253 {
      if c.core.output {
        HighStepOdd8253(c, p);
      } else {
        LowStepOdd8253(c, p);
      }
    } else {
      Mode3StepOdd8254(c, p);
    }
  }

  /** A phase is its own remainder. */
  lemma PhaseOf(p: nat, n: nat)
    requires p < n
    ensures PhaseAt(p, n) == p
  {
    PhaseIsRemainder(p, n);
    RemainderUnique(p, n, 0, p);
  }

  lemma {:induction false} Mode3Run(c: Channel, p: nat, k: nat)
    requires Mode3Phase(c, p)
    ensures Mode3Phase(Ticks(c, k), PhaseAt(p + k, N(c)))
    ensures Ticks(c, k).cfg == c.cfg && N(Ticks(c, k)) == N(c)
  {
    hide Number, Tick, Mode3Number;
    if k == 0 {
      PhaseOf(p, N(c));
    } else {
      Mode3Run(c, p, k - 1);
      Mode3Step(Ticks(c, k - 1), PhaseAt(p + k - 1, N(c)));
    }
  }

  /** OUT is high for the first ceil(N/2) ticks of every N and low for the other floor(N/2), forever. */
  lemma SquareWave(c: Channel, k: nat)
    requires Running(c, 3) && c.core.state == LoadNext
    ensures Ticks(Tick(c), k).core.output <==> (LoadPhase(c) + k) % N(c) < (N(c) + 1) / 2
  {
    hide Number, Tick, Mode3Number;
    Mode3Load(c);
    Mode3Run(Tick(c), LoadPhase(c), k);
    PhaseIsRemainder(LoadPhase(c) + k, N(c));
  }

  /**
   The two chips drive OUT identically, tick for tick, although an odd divisor enters their counting
   elements as different values.
   */
  lemma ChipsAgree(c: Channel, d: Channel, k: nat)
    requires Running(c, 3) && c.core.state == LoadNext
    requires c.cfg.chip == Pit8253 && d == c.(cfg := c.cfg.(chip := Pit8254))
    ensures Ticks(Tick(c), k).core.output == Ticks(Tick(d), k).core.output
    ensures Tick(c).core.ce != Tick(d).core.ce <==> c.flags.countRegister % 2 == 1
  {
    hide Tick, Number;
    SquareWave(c, k);
    SquareWave(d, k);
    LoadedElements(c, d);
  }

  lemma LoadedElements(c: Channel, d: Channel)
    requires c.cfg.mode == 3 && c.core.state == LoadNext
    requires c.cfg.chip == Pit8253 && d == c.(cfg := c.cfg.(chip := Pit8254))
    ensures Tick(c).core.ce != Tick(d).core.ce <==> c.flags.countRegister % 2 == 1
  {
  }

  // ---- mode 2 ----

  /** The channel is `p` ticks into its rate-generator period. */
  ghost predicate Mode2Phase(c: Channel, p: nat) {
    && Running(c, 2)
    && p < N(c)
    && c.core.output == (p < N(c) - 1)
    && c.core.state == (if p == N(c) - 1 then ReloadNext else Counting)
    && Number(c.cfg.bcd, c.core.ce) == N(c) - p
  }

  lemma Mode2Load(c: Channel)
    requires Running(c, 2) && (c.core.state == LoadNext || c.core.state == ReloadNext)
    ensures Mode2Phase(Tick(c), 0)
    ensures Tick(c).flags.countRegister == c.flags.countRegister && Tick(c).cfg == c.cfg
  {
    ReloadFacts(c.cfg.bcd, c.flags.countRegister);
  }

  lemma Mode2Step(c: Channel, p: nat)
    requires Mode2Phase(c, p)
    ensures Mode2Phase(Tick(c), NextPhase(p, N(c)))
    ensures Tick(c).flags.countRegister == c.flags.countRegister && Tick(c).cfg == c.cfg
  {
    ReloadFacts(c.cfg.bcd, c.flags.countRegister);
    Predecessor(c.cfg.bcd, c.core.ce);
    NumberFacts(c.cfg.bcd, DecrementValue(c.cfg.bcd, c.core.ce));
  }

  lemma {:induction false} Mode2Run(c: Channel, k: nat)
    requires Mode2Phase(c, 0)
    ensures Mode2Phase(Ticks(c, k), PhaseAt(k, N(c)))
    ensures Ticks(c, k).cfg == c.cfg && N(Ticks(c, k)) == N(c)
  {
    hide Number, Tick;
    if k > 0 {
      Mode2Run(c, k - 1);
      Mode2Step(Ticks(c, k - 1), PhaseAt(k - 1, N(c)));
    }
  }

  /** OUT is low for exactly the last tick of every N. */
  lemma RateGenerator(c: Channel, k: nat)
    requires Running(c, 2) && c.core.state == LoadNext
    ensures Ticks(Tick(c), k).core.output <==> k % N(c) != N(c) - 1
  {
    Mode2Load(c);
    Mode2Run(Tick(c), k);
    PhaseIsRemainder(k, N(c));
  }

  // ---- a count written in two bytes while mode 2 is running ----

  lemma {:induction false} TickFrame(c: Channel, m: nat)
    ensures var d := Ticks(c, m);
            && d.cfg == c.cfg && d.gate == c.gate
            && d.flags.countRegister == c.flags.countRegister && d.flags.initialLoad == c.flags.initialLoad
            && d.bus == c.bus.(outputLatch := d.bus.outputLatch)
            && (c.flags.incompleteReload ==> d.flags.incompleteReload)
  {
    hide CountCore, LoadCore;
    if m > 0 {
      TickFrame(c, m - 1);
    }
  }

  lemma {:induction false} TicksAdd(c: Channel, a: nat, b: nat)
    ensures Ticks(c, a + b) == Ticks(Ticks(c, a), b)
    decreases b
  {
    if b > 0 {
      TicksAdd(c, a, b - 1);
    }
  }

  lemma BlindStep(c: Channel, e: Channel, p: nat)
    requires Mode2Phase(c, p) && p + 1 < N(c)
    requires e.cfg == c.cfg && e.gate == c.gate && e.core == c.core.(armed := e.core.armed)
    ensures Tick(e).core == Tick(c).core.(armed := e.core.armed)
    ensures Tick(e).flags == e.flags
  {
  }

  /** A running period does not look at the count register, and loads nothing before it ends. */
  lemma {:induction false} FinishPeriod(c: Channel, e: Channel, p: nat, m: nat)
    requires Mode2Phase(c, p) && p + m < N(c)
    requires e.cfg == c.cfg && e.gate == c.gate && e.core == c.core.(armed := e.core.armed)
    ensures Ticks(e, m).core == Ticks(c, m).core.(armed := e.core.armed)
    ensures Ticks(e, m).flags == e.flags
    ensures Mode2Phase(Ticks(c, m), p + m) && N(Ticks(c, m)) == N(c)
  {
    hide Number, Tick;
    if m > 0 {
      FinishPeriod(c, e, p, m - 1);
      Mode2Step(Ticks(c, m - 1), p + m - 1);
      TickFrame(c, m - 1);
      TickFrame(e, m - 1);
      BlindStep(Ticks(c, m - 1), Ticks(e, m - 1), p + m - 1);
    }
  }

  /** Until the running period ends, a half-written count changes neither CE nor OUT. */
  lemma HalfWritten(c: Channel, lsb: Byte, p: nat, m: nat)
    requires Mode2Phase(c, p) && c.cfg.rwMode == 3 && c.bus.writePhase == 0 && !c.flags.incompleteReload
    requires p + m < N(c)
    ensures Ticks(DataWrite(c, lsb), m).core == Ticks(c, m).core
    ensures !Ticks(DataWrite(c, lsb), m).flags.incompleteReload
    ensures Mode2Phase(Ticks(c, m), p + m) && N(Ticks(c, m)) == N(c)
  {
    hide Number, Tick;
    FinishPeriod(c, DataWrite(c, lsb), p, m);
    FinishPeriod(c, c, p, m);
  }

  lemma ReloadMarks(d: Channel)
    requires d.core.state == ReloadNext && d.cfg.rwMode == 3 && d.bus.writePhase == 1
    ensures Tick(d).flags.incompleteReload
  {
  }

  /** The period that ends between the two bytes loads a partial count and remembers it. */
  lemma PartialLoadRemembered(c: Channel, lsb: Byte, p: nat, m: nat)
    requires Mode2Phase(c, p) && c.cfg.rwMode == 3 && c.bus.writePhase == 0 && !c.flags.incompleteReload
    requires p + m >= N(c)
    ensures Ticks(DataWrite(c, lsb), m).flags.incompleteReload
  {
    hide Number, Tick;
    var left := N(c) - 1 - p;
    var d := DataWrite(c, lsb);
    HalfWritten(c, lsb, p, left);
    TickFrame(d, left);
    ReloadMarks(Ticks(d, left));
    assert Ticks(d, left + 1) == Tick(Ticks(d, left));
    TicksAdd(d, left + 1, m - left - 1);
    TickFrame(Ticks(d, left + 1), m - left - 1);
  }

  /** The state after the second byte of a torn write. */
  function TornWrite(c: Channel, lsb: Byte, msb: Byte, m: nat): Channel {
    DataWrite(Ticks(DataWrite(c, lsb), m), msb)
  }

  lemma TornWriteRegisters(c: Channel, lsb: Byte, msb: Byte, m: nat)
    requires Running(c, 2) && c.cfg.rwMode == 3 && c.bus.writePhase == 0 && !c.flags.initialLoad
    ensures var e := TornWrite(c, lsb, msb, m);
            && e.flags.countRegister == LegalRegister(2, lsb + 0x100 * msb)
            && e.cfg == c.cfg && e.gate == c.gate
            && !e.flags.incompleteReload
            && Running(e, 2)
            && (Ticks(DataWrite(c, lsb), m).flags.incompleteReload ==> e.core.state == LoadNext)
            && (!Ticks(DataWrite(c, lsb), m).flags.incompleteReload ==>
                  e.core == Ticks(DataWrite(c, lsb), m).core.(armed := e.core.armed))
  {
    hide Number, Tick;
    TickFrame(DataWrite(c, lsb), m);
    ReloadFacts(c.cfg.bcd, lsb + 0x100 * msb);
    SmallNumbers(c.cfg.bcd);
  }

  lemma SmallNumbers(bcd: bool)
    ensures Number(bcd, 1) == 1 && Number(bcd, 2) == 2
  {
  }

  /** Before the running period ends, a count written in two bytes leaves the period as it was. */
  lemma TornWriteEarly(c: Channel, lsb: Byte, msb: Byte, p: nat, m: nat, t: nat)
    requires Mode2Phase(c, p) && c.cfg.rwMode == 3 && c.bus.writePhase == 0
    requires !c.flags.incompleteReload && !c.flags.initialLoad
    requires p + m + t < N(c)
    ensures var f := Ticks(TornWrite(c, lsb, msb, m), t);
            f.core.output == (p + m + t < N(c) - 1)
            && f.core.state == (if p + m + t == N(c) - 1 then ReloadNext else Counting)
  {
    hide Number, Tick, DataWrite;
    TornWriteRegisters(c, lsb, msb, m);
    HalfWritten(c, lsb, p, m);
    TickFrame(c, m);
    FinishPeriod(Ticks(c, m), TornWrite(c, lsb, msb, m), p + m, t);
  }

  /**
   A count written as two bytes, m ticks apart. If the running period ends in between, the tick after
   the second byte starts a period of the full new count at once; otherwise the running period is
   completed unchanged and the next one is the new count.
   */
  lemma TornWriteRepaired(c: Channel, lsb: Byte, msb: Byte, p: nat, m: nat)
    requires Mode2Phase(c, p) && c.cfg.rwMode == 3 && c.bus.writePhase == 0
    requires !c.flags.incompleteReload && !c.flags.initialLoad
    ensures var e := TornWrite(c, lsb, msb, m);
            && e.flags.countRegister == LegalRegister(2, lsb + 0x100 * msb)
            && (p + m >= N(c) ==> Mode2Phase(Tick(e), 0) && N(Tick(e)) == N(e))
            && (p + m < N(c) ==>
                  && Mode2Phase(Tick(Ticks(e, N(c) - 1 - p - m)), 0)
                  && N(Tick(Ticks(e, N(c) - 1 - p - m))) == N(e)
                  && forall t: nat :: t < N(c) - p - m ==> Ticks(e, t).core.output == (p + m + t < N(c) - 1))
  {
    hide Number, Tick, DataWrite;
    var e := TornWrite(c, lsb, msb, m);
    TornWriteRegisters(c, lsb, msb, m);
    if p + m >= N(c) {
      PartialLoadRemembered(c, lsb, p, m);
      Mode2Load(e);
    } else {
      forall t: nat | t < N(c) - p - m
        ensures Ticks(e, t).core.output == (p + m + t < N(c) - 1)
      {
        TornWriteEarly(c, lsb, msb, p, m, t);
      }
      var rest := N(c) - 1 - p - m;
      TornWriteEarly(c, lsb, msb, p, m, rest);
      TickFrame(e, rest);
      Mode2Load(Ticks(e, rest));
    }
  }
}
