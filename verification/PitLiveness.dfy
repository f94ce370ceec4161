/**
 Whether a mode 3 half-cycle ends at all. Counts written while it runs change the step the counter
 uses, so the question is about every state, not only those a full load produces.
 */
module PitLiveness {
  import opened Bits
  import opened PitExact
  import opened PitCounting
  import opened PitPeriodic
  import L = PitLatch

  /** Steps of two keep parity, whatever digits the element holds. */
  lemma TwoStepsKeepParity(bcd: bool, v: Count)
    ensures DecrementBy(bcd, v, 2) % 2 == v % 2
  {
    OneStepFlipsParity(bcd, v);
    OneStepFlipsParity(bcd, DecrementValue(bcd, v));
    assert DecrementBy(bcd, v, 2) == DecrementBy(bcd, DecrementValue(bcd, v), 1)
                                  == DecrementBy(bcd, DecrementValue(bcd, DecrementValue(bcd, v)), 0);
  }

  lemma OneStepFlipsParity(bcd: bool, v: Count)
    ensures DecrementValue(bcd, v) % 2 != v % 2
  {
  }

  /** An 8254 square-wave counter whose element has been loaded holds an even value. */
  ghost predicate Even8254(c: Channel) {
    c.cfg.chip == Pit8254 && c.cfg.mode == 3 && c.core.ce % 2 == 0
    && c.core.state != WaitTrigger && c.core.state != StrobeRecover
  }

  lemma LoadIsEven(c: Channel)
    requires c.cfg.chip == Pit8254 && c.cfg.mode == 3
    ensures Even8254(Load(c))
  {
  }

  lemma TickKeepsEven(c: Channel)
    requires Even8254(c)
    ensures Even8254(Tick(c))
  {
    hide DecrementBy;
    TwoStepsKeepParity(c.cfg.bcd, c.core.ce);
    LoadIsEven(c);
  }

  lemma EventKeepsEven(h: L.History, e: L.Access)
    requires Even8254(h.channel)
    ensures Even8254(L.Perform(h, e).channel)
  {
    hide Tick;
    TickKeepsEven(h.channel);
  }

  /** After a load the element is even in every reachable state, whatever counts are written when. */
  lemma {:induction false} AlwaysEven(c: Channel, es: seq<L.Access>)
    requires c.cfg.chip == Pit8254 && c.cfg.mode == 3 && c.core.state == LoadNext
    ensures Even8254(L.Session(L.History(Tick(c), [], []), es).channel)
  {
    hide L.Perform;
    if es == [] {
      LoadIsEven(c.(clocks := (c.clocks + 1) % CLOCK_MODULUS));
    } else {
      AlwaysEven(c, es[..|es| - 1]);
      EventKeepsEven(L.Session(L.History(Tick(c), [], []), es[..|es| - 1]), es[|es| - 1]);
    }
  }

  /** A half-cycle in progress with GATE high. */
  ghost predicate Halfway(c: Channel) {
    c.cfg.mode == 3 && c.gate && c.core.state == Counting
  }

  /** The half-cycle is over: OUT has toggled, or the 8254 has put the toggle off to the next clock. */
  predicate Ended(before: Channel, after: Channel) {
    after.core.output != before.core.output || after.core.state == ReloadNext
  }

  /** Clocks left in a half-cycle that holds an even number. */
  function Remaining(c: Channel): nat {
    Number(c.cfg.bcd, c.core.ce) / 2
  }

  lemma EvenStep(c: Channel)
    requires Halfway(c) && c.core.ce % 2 == 0
    ensures Remaining(c) >= 1
    ensures Remaining(c) == 1 ==> Ended(c, Tick(c))
    ensures Remaining(c) > 1 ==>
              && Halfway(Tick(c)) && Tick(c).core.ce % 2 == 0 && Remaining(Tick(c)) == Remaining(c) - 1
              && Tick(c).core.output == c.core.output
  {
    hide Number, DecrementBy;
    NumberFacts(c.cfg.bcd, c.core.ce);
    Predecessors(c.cfg.bcd, c.core.ce, 2);
    TwoStepsKeepParity(c.cfg.bcd, c.core.ce);
  }

  /** From an even element terminal count comes after exactly half the held number, and not before. */
  lemma {:induction false} EvenHalfCycle(c: Channel, t: nat)
    requires Halfway(c) && c.core.ce % 2 == 0 && t <= Remaining(c)
    ensures t < Remaining(c) ==>
              && Halfway(Ticks(c, t)) && Ticks(c, t).core.ce % 2 == 0 && Remaining(Ticks(c, t)) == Remaining(c) - t
              && Ticks(c, t).core.output == c.core.output
    ensures t == Remaining(c) ==> Ended(c, Ticks(c, t))
  {
    hide Number, Tick;
    if t == 0 {
      EvenStep(c);
    } else {
      EvenHalfCycle(c, t - 1);
      EvenStep(Ticks(c, t - 1));
    }
  }

  /** The state from which no half-cycle ends: an odd element that only steps by two. */
  predicate Skips(c: Channel) {
    c.core.ce % 2 == 1 && !(c.cfg.chip == Pit8253 && c.flags.countRegister % 2 == 1)
  }

  lemma SkipStep(c: Channel)
    requires Halfway(c) && Skips(c)
    ensures Halfway(Tick(c)) && Skips(Tick(c)) && Tick(c).core.output == c.core.output
  {
    hide Number, DecrementBy;
    Predecessors(c.cfg.bcd, c.core.ce, 2);
    TwoStepsKeepParity(c.cfg.bcd, c.core.ce);
  }

  lemma {:induction false} SkipForever(c: Channel, t: nat)
    requires Halfway(c) && Skips(c)
    ensures Halfway(Ticks(c, t)) && Skips(Ticks(c, t)) && Ticks(c, t).core.output == c.core.output
  {
    hide Number, Tick;
    if t > 0 {
      SkipForever(c, t - 1);
      SkipStep(Ticks(c, t - 1));
    }
  }

  /** The first step of an odd 8253 element under an odd count. */
  function OddStep(c: Channel): nat {
    if c.core.output then 1 else 3
  }

  /** Clocks to the end of a half-cycle that has one, read off the counting element. */
  function EndTime(c: Channel): nat {
    var x := Number(c.cfg.bcd, c.core.ce);
    if c.core.ce % 2 == 0 then x / 2
    else if x == OddStep(c) then 1
    else 1 + Back(c.cfg.bcd, x, OddStep(c)) / 2
  }

  lemma OddFirstStep(c: Channel)
    requires Halfway(c) && c.core.ce % 2 == 1 && !Skips(c)
    ensures var x := Number(c.cfg.bcd, c.core.ce);
            if x == OddStep(c) then Ended(c, Tick(c))
            else Halfway(Tick(c)) && Tick(c).core.ce % 2 == 0 && Tick(c).core.output == c.core.output
                 && Remaining(Tick(c)) == Back(c.cfg.bcd, x, OddStep(c)) / 2 && Tick(c).cfg == c.cfg
  {
    hide Number, DecrementBy;
    var s := OddStep(c);
    Predecessors(c.cfg.bcd, c.core.ce, s);
    OddStepMakesEven(c.cfg.bcd, c.core.ce, s);
  }

  lemma OddStepMakesEven(bcd: bool, v: Count, s: nat)
    requires (s == 1 || s == 3) && v % 2 == 1
    ensures DecrementBy(bcd, v, s) % 2 == 0
  {
    var w := DecrementValue(bcd, v);
    OneStepFlipsParity(bcd, v);
    TwoStepsKeepParity(bcd, w);
    assert DecrementBy(bcd, v, 1) == DecrementBy(bcd, w, 0) == w;
    assert DecrementBy(bcd, v, 3) == DecrementBy(bcd, w, 2);
  }

  /** An odd element: one short step, then steps of two. */
  lemma OddHalfCycle(c: Channel, t: nat)
    requires Halfway(c) && c.core.ce % 2 == 1 && !Skips(c)
    requires t <= EndTime(c)
    ensures t < EndTime(c) ==> !Ended(c, Ticks(c, t))
    ensures t == EndTime(c) ==> Ended(c, Ticks(c, t))
  {
    hide Number, Tick, Back;
    OddFirstStep(c);
    var d := Tick(c);
    if t > 0 {
      assert Ticks(c, 0) == c && Ticks(c, 1) == d;
      TicksAdd(c, 1, t - 1);
      if Number(c.cfg.bcd, c.core.ce) != OddStep(c) {
        EvenHalfCycle(d, t - 1);
      }
    }
  }

  /**
   With GATE high and no further writes a half-cycle ends, after exactly the clocks read off the counting
   element, if and only if the element is even or is an odd 8253 element under an odd count; otherwise never.
   */
  lemma HalfCycleEnds(c: Channel)
    requires Halfway(c)
    ensures !Skips(c) ==> Ended(c, Ticks(c, EndTime(c))) && forall t: nat :: t < EndTime(c) ==> !Ended(c, Ticks(c, t))
    ensures Skips(c) ==> forall t: nat :: !Ended(c, Ticks(c, t))
  {
    hide Number, Tick, Back;
    if Skips(c) {
      forall t: nat ensures !Ended(c, Ticks(c, t)) {
        SkipForever(c, t);
      }
    } else {
      forall t: nat | t <= EndTime(c) ensures Ended(c, Ticks(c, t)) <==> t == EndTime(c) {
        if c.core.ce % 2 == 0 {
          EvenHalfCycle(c, t);
        } else {
          OddHalfCycle(c, t);
        }
      }
    }
  }

  // ---- how a half-cycle is stalled ----

  /** The count register after a data byte; the first byte of two replaces the low half at once. */
  function WrittenRegister(c: Channel, value: Byte): Word {
    var r := c.flags.countRegister;
    if CompletesCount(c) then
      LegalRegister(c.cfg.mode, if c.cfg.rwMode == 1 then value
                                else if c.cfg.rwMode == 2 then value * 0x100
                                else r % 0x100 + value * 0x100)
    else if c.cfg.rwMode == 3 then r - r % 0x100 + value
    else r
  }

  /** The byte makes the next clock load: it completes the first count, or one that a load has taken half-written. */
  predicate Reloads(c: Channel) {
    CompletesCount(c) && (c.flags.initialLoad || c.flags.incompleteReload)
  }

  lemma WrittenFacts(c: Channel, value: Byte)
    requires Halfway(c) && c.cfg.rwMode <= 3 && c.bus.writePhase <= 1
    ensures var d := DataWrite(c, value);
            && d.flags.countRegister == WrittenRegister(c, value) && d.cfg == c.cfg && d.gate
            && (if Reloads(c) then d.core.state == LoadNext else Halfway(d))
            && d.core.ce == c.core.ce && d.core.output == c.core.output && d.core.toggleOnReload == c.core.toggleOnReload
  {
  }

  /** A load is followed by a half-cycle that ends. */
  lemma LoadEnds(c: Channel) returns (t: nat)
    requires c.cfg.mode == 3 && c.gate && c.core.state == LoadNext
    ensures Ended(c, Ticks(c, t))
  {
    hide Number, Tick, EndTime, Halfway, Skips;
    var d := Tick(c);
    assert Ticks(c, 0) == c && Ticks(c, 1) == d;
    if d.core.output != c.core.output {
      t := 1;
    } else {
      LoadedParity(c);
      HalfCycleEnds(d);
      t := EndTime(d) + 1;
      TicksAdd(c, 1, EndTime(d));
    }
  }

  lemma LoadedParity(c: Channel)
    requires c.cfg.mode == 3 && c.gate && c.core.state == LoadNext
    ensures Halfway(Tick(c)) && !Skips(Tick(c))
  {
  }

  /**
   A data byte stalls a half-cycle for ever if and only if the element is odd, no load follows, and what the byte leaves
   in the register is even, or the chip an 8254. The first byte of a two-byte count does so as well as the last.
   */
  lemma WriteStalls(c: Channel, value: Byte)
    requires Halfway(c) && c.cfg.rwMode <= 3 && c.bus.writePhase <= 1
    ensures var d := DataWrite(c, value);
            (forall t: nat :: !Ended(d, Ticks(d, t))) <==>
              && c.core.ce % 2 == 1 && !Reloads(c)
              && !(c.cfg.chip == Pit8253 && WrittenRegister(c, value) % 2 == 1)
  {
    hide Number, Tick, EndTime, WrittenRegister, DataWrite;
    var d := DataWrite(c, value);
    WrittenFacts(c, value);
    if Reloads(c) {
      var t := LoadEnds(d);
    } else {
      HalfCycleEnds(d);
    }
  }

  /** It happens: count 5 in a square wave, then count 4 before the first half-cycle ends, and OUT stays high. */
  lemma StallIsReachable(t: nat)
    ensures var c := SetGate(ResetChannel(Pit8253), true);
            var d := Tick(DataWrite(ProgramMode(c, 0x16), 5));
            var e := DataWrite(d, 4);
            Halfway(d) && Skips(e) && Ticks(e, t).core.output
  {
    var c := SetGate(ResetChannel(Pit8253), true);
    var e := DataWrite(Tick(DataWrite(ProgramMode(c, 0x16), 5)), 4);
    SkipForever(e, t);
  }

  /** And with half a count: 5 in two bytes, one clock, and the low byte 4 alone. */
  lemma HalfCountStalls(t: nat)
    ensures var c := SetGate(ResetChannel(Pit8253), true);
            var d := Tick(DataWrite(DataWrite(ProgramMode(c, 0x36), 5), 0));
            var e := DataWrite(d, 4);
            Halfway(d) && !CompletesCount(d) && Skips(e) && Ticks(e, t).core.output
  {
    var c := SetGate(ResetChannel(Pit8253), true);
    var f := DataWrite(ProgramMode(c, 0x36), 5);
    assert f.flags.countRegister == 5 && f.bus.writePhase == 1;
    var e := DataWrite(Tick(DataWrite(f, 0)), 4);
    SkipForever(e, t);
  }

  /** So an 8254 never stalls after a load: its half-cycle always ends after exactly half the held number. */
  lemma Live8254(c: Channel, es: seq<L.Access>)
    requires c.cfg.chip == Pit8254 && c.cfg.mode == 3 && c.core.state == LoadNext
    requires Halfway(L.Session(L.History(Tick(c), [], []), es).channel)
    ensures var d := L.Session(L.History(Tick(c), [], []), es).channel;
            && Ended(d, Ticks(d, Remaining(d)))
            && forall t: nat :: t < Remaining(d) ==> !Ended(d, Ticks(d, t))
  {
    AlwaysEven(c, es);
    var d := L.Session(L.History(Tick(c), [], []), es).channel;
    EvenHalfCycle(d, Remaining(d));
    forall t: nat | t < Remaining(d) ensures !Ended(d, Ticks(d, t)) {
      EvenHalfCycle(d, t);
    }
  }

  // ---- a new count in a running wave ----

  /** Where in the period of the count register the wave is when a half-cycle has ended. */
  function EndPhase(before: Channel, after: Channel): nat {
    if !before.core.output then 0
    else if Odd8254(after) then High(N(after)) - 1
    else High(N(after))
  }

  /** The clock on which the element reaches zero reloads it from the count register as it is now. */
  lemma LastStep(c: Channel)
    requires Halfway(c) && !c.core.toggleOnReload && N(c) >= 2 && Ended(c, Tick(c))
    ensures Mode3Phase(Tick(c), EndPhase(c, Tick(c))) && N(Tick(c)) == N(c)
  {
    hide Number, DecrementBy;
    ReloadFacts(c.cfg.bcd, c.flags.countRegister);
    if Odd8254(c) {
      DropLowBitFacts(c.cfg.bcd, c.flags.countRegister);
    }
  }

  lemma {:induction false} StaysHalfway(c: Channel, t: nat)
    requires Halfway(c) && !c.core.toggleOnReload && forall u: nat :: u <= t ==> !Ended(c, Ticks(c, u))
    ensures var d := Ticks(c, t);
            Halfway(d) && !d.core.toggleOnReload && N(d) == N(c) && d.cfg == c.cfg && d.core.output == c.core.output
  {
    hide Number, Tick;
    if t > 0 {
      StaysHalfway(c, t - 1);
      assert !Ended(c, Ticks(c, t));
      StillHalfway(Ticks(c, t - 1));
    }
  }

  lemma StillHalfway(c: Channel)
    requires Halfway(c) && !c.core.toggleOnReload && !Ended(c, Tick(c))
    ensures var d := Tick(c);
            Halfway(d) && !d.core.toggleOnReload && N(d) == N(c) && d.cfg == c.cfg
  {
    hide Number, DecrementBy;
  }

  /**
   Whatever count is in the register when a half-cycle is under way, written in the middle of it or not: the half-cycle
   ends after what it had left, and from then on OUT is the square wave of that count, entered at the other half.
   */
  lemma WaveTakesOver(c: Channel, k: nat)
    requires Halfway(c) && !c.core.toggleOnReload && N(c) >= 2 && !Skips(c)
    ensures var d := Ticks(c, EndTime(c));
            && (forall t: nat :: t < EndTime(c) ==> Ticks(c, t).core.output == c.core.output)
            && Mode3Phase(d, EndPhase(c, d)) && N(d) == N(c)
            && (Ticks(d, k).core.output <==> (EndPhase(c, d) + k) % N(c) < High(N(c)))
  {
    hide Number, Tick, Mode3Number, Skips;
    HalfCycleEnds(c);
    var e := EndTime(c);
    assert e > 0 by {
      assert Ticks(c, 0) == c;
    }
    StaysHalfway(c, e - 1);
    var last := Ticks(c, e - 1);
    LastStep(last);
    var d := Ticks(c, e);
    Mode3Run(d, EndPhase(c, d), k);
    PhaseIsRemainder(EndPhase(c, d) + k, N(c));
  }
}
