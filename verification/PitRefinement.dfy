/**
 The event-driven counter refines the tick-by-tick one: loaded at the same moment with GATE high, it
 drives OUT to the same level at every instant and calls the OUT handler at the very clocks at which
 the exact counter's OUT changes.
 */
module PitRefinement {
  import opened Remainders
  import opened PitExact
  import opened PitCounting
  import opened PitPeriodic
  import O = PitOneShot
  import F = PitFast

  /** The instant of clock `k` after a load at `start`, with `pitConst` time units to a clock. */
  function At(start: nat, pitConst: nat, k: nat): nat {
    start + k * pitConst
  }

  lemma AtOrder(start: nat, pitConst: nat, a: nat, b: nat)
    requires pitConst > 0
    ensures a < b <==> At(start, pitConst, a) < At(start, pitConst, b)
    ensures a <= b <==> At(start, pitConst, a) <= At(start, pitConst, b)
  {
    var d := b - a;
    assert b * pitConst - a * pitConst == d * pitConst;
    if d >= 1 {
      F.Product(d, pitConst);
    } else if d <= -1 {
      F.Product(-d, pitConst);
      assert (-d) * pitConst == -(d * pitConst);
    }
  }

  lemma AtAdd(start: nat, pitConst: nat, a: nat, b: nat)
    ensures At(start, pitConst, a) + b * pitConst == At(start, pitConst, a + b)
  {
  }

  /** Two counters about to load the same binary count in the same mode, GATE high; modes 2 and 3 do not load a one. */
  ghost predicate Aligned(f: F.Fast, c: Channel) {
    && (c.cfg.mode == 0 || c.cfg.mode == 2 || c.cfg.mode == 3)
    && !c.cfg.bcd && c.gate && (c.cfg.mode == 0 || c.flags.countRegister != 1)
    && c.core.state == LoadNext && !c.core.toggleOnReload
    && f.setup.m == c.cfg.mode && f.setup.l == c.flags.countRegister
    && f.setup.gate && f.setup.usingTimer && f.setup.pitConst > 0
    && f.progress.initial
  }

  /** The calls the OUT handler should see: one for each change, and in mode 2 a down-up pair for each fall. */
  function ExpectedCalls(x: Channel, start: nat, pitConst: nat, u: nat): seq<F.Call> {
    if u == 0 then []
    else
      var before, after := Ticks(x, u - 1).core.output, Ticks(x, u).core.output;
      var at := At(start, pitConst, u);
      ExpectedCalls(x, start, pitConst, u - 1) +
      (if x.cfg.mode == 2 then
         (if before && !after then [F.Call(at, false, true), F.Call(at, true, false)] else [])
       else if before != after then [F.Call(at, after, before)] else [])
  }

  /** The fast counter is running and its next event is due at clock `d`. */
  ghost predicate Armed(f: F.Fast, start: nat, d: nat) {
    && f.setup.gate && f.setup.usingTimer && f.setup.pitConst > 0 && (f.setup.m == 0 || f.setup.l != 1)
    && !f.progress.disabled && f.progress.enabled
    && f.timer.on && f.timer.deadline == At(start, f.setup.pitConst, d)
  }

  /** Where the fast counter stands after `u` clocks, `p` clocks into the exact counter's period. */
  ghost predicate FastPhase(f: F.Fast, start: nat, u: nat, p: nat, d: nat) {
    var n := F.Length(f.setup.l);
    && Armed(f, start, d) && d > u
    && match f.setup.m
       case 0 => f.pin.out == (u >= n) && f.progress.thit == (u >= n) && (u < n ==> d == n)
       case 2 => f.pin.out && p < n && d == (if p < n - 1 then u + n - 1 - p else u + n)
       case 3 => p < n && f.pin.out == (p < High(n)) && d == u + (if p < High(n) then High(n) else n) - p
       case _ => false
  }

  /** The exact counter after `u` clocks. */
  ghost predicate ExactPhase(x: Channel, u: nat, p: nat) {
    match x.cfg.mode
    case 0 => O.Mode0Phase(x, u) && x.gate
    case 2 => Mode2Phase(x, p)
    case 3 => Mode3Phase(x, p)
    case _ => false
  }

  lemma {:induction false} RunUntilCompose(f: F.Fast, t: nat, later: nat)
    requires f.setup.pitConst > 0 && t <= later
    ensures F.RunUntil(f, t).setup == f.setup
    ensures F.RunUntil(F.RunUntil(f, t), later) == F.RunUntil(f, later)
    decreases if f.timer.on && f.timer.deadline <= t then t + 1 - f.timer.deadline else 0, if f.pin.out then 1 else 0
  {
    hide F.Over;
    if f.timer.on && f.timer.deadline <= t {
      F.OverAdvances(f);
      RunUntilCompose(F.Fire(f), t, later);
    }
  }

  /** Nothing due: nothing happens. */
  lemma NotDue(f: F.Fast, start: nat, d: nat, t: nat)
    requires Armed(f, start, d) && t < At(start, f.setup.pitConst, d)
    ensures F.RunUntil(f, t) == f
  {
  }

  /** The overflow handler moves the fast counter to its next event, `step` clocks on. */
  lemma FireStep(f: F.Fast, start: nat, u: nat, p: nat, d: nat) returns (e: nat)
    requires FastPhase(f, start, u, p, d) && d == u + 1
    ensures FastPhase(F.Fire(f), start, u + 1, NextPhase(p, F.Length(f.setup.l)), e)
    ensures F.Fire(f).setup == f.setup
    ensures var at := At(start, f.setup.pitConst, d);
            F.Fire(f).pin.calls == f.pin.calls +
              (if f.setup.m == 2 then [F.Call(at, false, true), F.Call(at, true, false)]
               else if F.Fire(f).pin.out != f.pin.out then [F.Call(at, !f.pin.out, f.pin.out)] else [])
  {
    var n, pc := F.Length(f.setup.l), f.setup.pitConst;
    match f.setup.m {
      case 0 =>
        e := d + 0xffff;
        AtAdd(start, pc, d, 0xffff);
      case 2 =>
        e := d + n;
        AtAdd(start, pc, d, n);
        assert f.pin.calls + [F.Call(At(start, pc, d), false, true)] + [F.Call(At(start, pc, d), true, false)]
            == f.pin.calls + [F.Call(At(start, pc, d), false, true), F.Call(At(start, pc, d), true, false)];
      case 3 =>
        if f.pin.out {
          e := d + n / 2;
          AtAdd(start, pc, d, n / 2);
        } else {
          e := d + (n + 1) / 2;
          AtAdd(start, pc, d, (n + 1) / 2);
        }
    }
  }

  /** One clock of the fast counter: its event, if one is due, and nothing else. */
  lemma FastClock(f: F.Fast, start: nat, u: nat, p: nat, d: nat) returns (e: nat)
    requires FastPhase(f, start, u, p, d)
    ensures var g := F.RunUntil(f, At(start, f.setup.pitConst, u + 1));
            && g.setup == f.setup
            && FastPhase(g, start, u + 1, NextPhase(p, F.Length(f.setup.l)), e)
            && g.pin.calls == f.pin.calls +
                 (if f.setup.m == 2 then
                    (if d == u + 1 then [F.Call(At(start, f.setup.pitConst, d), false, true),
                                         F.Call(At(start, f.setup.pitConst, d), true, false)] else [])
                  else if g.pin.out != f.pin.out then [F.Call(At(start, f.setup.pitConst, u + 1), g.pin.out, f.pin.out)]
                  else [])
  {
    hide F.Fire, At, High;
    var pc := f.setup.pitConst;
    AtOrder(start, pc, u + 1, d);
    if d > u + 1 {
      NotDue(f, start, d, At(start, pc, u + 1));
      e := d;
      assert f.pin.calls + [] == f.pin.calls;
      QuietClock(f, start, u, p, d);
    } else {
      e := FireStep(f, start, u, p, d);
      AtOrder(start, pc, u + 1, e);
      F.OverAdvances(f);
      NotDue(F.Fire(f), start, e, At(start, pc, u + 1));
    }
  }

  lemma QuietClock(f: F.Fast, start: nat, u: nat, p: nat, d: nat)
    requires FastPhase(f, start, u, p, d) && d > u + 1
    ensures FastPhase(f, start, u + 1, NextPhase(p, F.Length(f.setup.l)), d)
  {
  }

  lemma ExactClock(x: Channel, u: nat, p: nat)
    requires ExactPhase(x, u, p)
    ensures ExactPhase(Tick(x), u + 1, NextPhase(p, N(x)))
    ensures Tick(x).cfg == x.cfg && Tick(x).flags.countRegister == x.flags.countRegister
  {
    hide Number, Tick, Mode3Number;
    match x.cfg.mode {
      case 0 => O.Mode0Step(x, u); TickFrame(x, 1); assert Ticks(x, 0) == x && Ticks(x, 1) == Tick(x);
      case 2 => Mode2Step(x, p);
      case 3 => Mode3Step(x, p);
    }
  }

  /** The levels the two phases imply. */
  lemma PhasesAgree(f: F.Fast, x: Channel, start: nat, u: nat, p: nat, d: nat)
    requires FastPhase(f, start, u, p, d) && ExactPhase(x, u, p)
    requires f.setup.m == x.cfg.mode && f.setup.l == x.flags.countRegister && !x.cfg.bcd
    ensures x.cfg.mode != 2 ==> f.pin.out == x.core.output
    ensures x.cfg.mode == 2 ==> f.pin.out && x.core.output == (p < N(x) - 1) && N(x) == F.Length(f.setup.l)
                                && p < N(x) && N(x) >= 2 && d == (if p < N(x) - 1 then u + N(x) - 1 - p else u + N(x))
    ensures N(x) == F.Length(f.setup.l)
  {
  }

  lemma TickKeepsConfig(c: Channel)
    ensures Tick(c).cfg == c.cfg
  {
  }

  lemma LoadKeepsSetup(f: F.Fast, start: nat)
    ensures F.Load(f, start).setup == f.setup
  {
  }

  lemma BothLoad(f: F.Fast, c: Channel, start: nat) returns (d: nat)
    requires Aligned(f, c)
    ensures FastPhase(F.Load(f, start), start, 0, 0, d) && ExactPhase(Tick(c), 0, 0)
    ensures F.Load(f, start).setup == f.setup
    ensures Tick(c).cfg == c.cfg && Tick(c).flags.countRegister == c.flags.countRegister
  {
    var n := F.Length(f.setup.l);
    d := if c.cfg.mode == 0 then n else if c.cfg.mode == 2 then n - 1 else High(n);
    match c.cfg.mode {
      case 0 => ReloadFacts(false, c.flags.countRegister);
      case 2 => Mode2Load(c);
      case 3 => Mode3Load(c);
    }
  }

  lemma {:induction false} Lockstep(f: F.Fast, c: Channel, start: nat, u: nat) returns (d: nat)
    requires Aligned(f, c)
    ensures var pc := f.setup.pitConst;
            var g := F.RunUntil(F.Load(f, start), At(start, pc, u));
            var x := Ticks(Tick(c), u);
            && FastPhase(g, start, u, PhaseAt(u, N(c)), d) && ExactPhase(x, u, PhaseAt(u, N(c)))
            && g.setup == f.setup && x.cfg == c.cfg && x.flags.countRegister == c.flags.countRegister
            && g.pin.calls == F.Load(f, start).pin.calls + ExpectedCalls(Tick(c), start, pc, u)
  {
    hide F.Load, F.Fire, Tick, FastPhase, ExactPhase, At, F.Length, Number;
    var pc := f.setup.pitConst;
    if u == 0 {
      d := BothLoad(f, c, start);
      StartQuiet(F.Load(f, start), start, d);
      assert F.Load(f, start).pin.calls + [] == F.Load(f, start).pin.calls;
      NoCallsYet(Tick(c), start, pc);
    } else {
      var before := Lockstep(f, c, start, u - 1);
      d := LockstepNext(f, c, start, u - 1, before);
    }
  }

  lemma NoCallsYet(x: Channel, start: nat, pc: nat)
    ensures ExpectedCalls(x, start, pc, 0) == []
  {
  }

  lemma StartQuiet(g: F.Fast, start: nat, d: nat)
    requires FastPhase(g, start, 0, 0, d)
    ensures F.RunUntil(g, At(start, g.setup.pitConst, 0)) == g
  {
    AtOrder(start, g.setup.pitConst, 0, d);
    NotDue(g, start, d, At(start, g.setup.pitConst, 0));
  }

  lemma LockstepNext(f: F.Fast, c: Channel, start: nat, u: nat, d: nat) returns (e: nat)
    requires Aligned(f, c)
    requires var pc := f.setup.pitConst;
             var g := F.RunUntil(F.Load(f, start), At(start, pc, u));
             var x := Ticks(Tick(c), u);
             && FastPhase(g, start, u, PhaseAt(u, N(c)), d) && ExactPhase(x, u, PhaseAt(u, N(c)))
             && g.setup == f.setup && x.cfg == c.cfg && x.flags.countRegister == c.flags.countRegister
             && g.pin.calls == F.Load(f, start).pin.calls + ExpectedCalls(Tick(c), start, pc, u)
    ensures var pc := f.setup.pitConst;
            var g := F.RunUntil(F.Load(f, start), At(start, pc, u + 1));
            var x := Ticks(Tick(c), u + 1);
            && FastPhase(g, start, u + 1, PhaseAt(u + 1, N(c)), e) && ExactPhase(x, u + 1, PhaseAt(u + 1, N(c)))
            && g.setup == f.setup && x.cfg == c.cfg && x.flags.countRegister == c.flags.countRegister
            && g.pin.calls == F.Load(f, start).pin.calls + ExpectedCalls(Tick(c), start, pc, u + 1)
  {
    hide F.Load, F.Fire, Tick, FastPhase, ExactPhase, At, F.Length, Number, F.RunUntil;
    var pc := f.setup.pitConst;
    var p := PhaseAt(u, N(c));
    LoadKeepsSetup(f, start);
    var g0 := F.Load(f, start);
    var g, x := F.RunUntil(g0, At(start, pc, u)), Ticks(Tick(c), u);
    PhasesAgree(g, x, start, u, p, d);
    e := FastClock(g, start, u, p, d);
    ExactClock(x, u, p);
    AtOrder(start, pc, u, u + 1);
    RunUntilCompose(g0, At(start, pc, u), At(start, pc, u + 1));
    var h, y := F.RunUntil(g0, At(start, pc, u + 1)), Ticks(Tick(c), u + 1);
    PhasesAgree(h, y, start, u + 1, NextPhase(p, N(c)), e);
    TickKeepsConfig(c);
    assert ExpectedCalls(Tick(c), start, pc, u + 1) ==
           ExpectedCalls(Tick(c), start, pc, u) +
           (if c.cfg.mode == 2 then
              (if x.core.output && !y.core.output then
                 [F.Call(At(start, pc, u + 1), false, true), F.Call(At(start, pc, u + 1), true, false)] else [])
            else if x.core.output != y.core.output then
              [F.Call(At(start, pc, u + 1), y.core.output, x.core.output)] else []);
    assert c.cfg.mode == 2 ==> (x.core.output && !y.core.output <==> d == u + 1);
  }

  /**
   Modes 0 and 3: at every instant the event-driven OUT is the level the exact counter has reached by
   the last whole clock.
   */
  lemma SameLevel(f: F.Fast, c: Channel, start: nat, t: nat)
    requires Aligned(f, c) && c.cfg.mode != 2 && t >= start
    ensures F.RunUntil(F.Load(f, start), t).pin.out
         == Ticks(Tick(c), (t - start) / f.setup.pitConst).core.output
  {
    hide F.Load, F.Fire, Tick, FastPhase, ExactPhase, At, F.Length, Number, F.RunUntil;
    LoadKeepsSetup(f, start);
    var u, d := SettledBy(f, c, start, t);
    var p := PhaseAt(u, N(c));
    PhasesAgree(F.RunUntil(F.Load(f, start), t), Ticks(Tick(c), u), start, u, p, d);
  }

  /** Between two clocks nothing happens, so a run to `t` is a run to the last clock before it. */
  lemma SettledBy(f: F.Fast, c: Channel, start: nat, t: nat) returns (u: nat, d: nat)
    requires Aligned(f, c) && t >= start
    ensures u == (t - start) / f.setup.pitConst
    ensures F.RunUntil(F.Load(f, start), t) == F.RunUntil(F.Load(f, start), At(start, f.setup.pitConst, u))
    ensures FastPhase(F.RunUntil(F.Load(f, start), t), start, u, PhaseAt(u, N(c)), d)
    ensures ExactPhase(Ticks(Tick(c), u), u, PhaseAt(u, N(c)))
    ensures F.RunUntil(F.Load(f, start), t).setup == f.setup
    ensures Ticks(Tick(c), u).cfg == c.cfg && Ticks(Tick(c), u).flags.countRegister == c.flags.countRegister
    ensures F.RunUntil(F.Load(f, start), t).pin.calls ==
            F.Load(f, start).pin.calls + ExpectedCalls(Tick(c), start, f.setup.pitConst, u)
  {
    hide F.Load, F.Fire, Tick, ExactPhase, F.Length, Number, F.RunUntil;
    var pc := f.setup.pitConst;
    LoadKeepsSetup(f, start);
    u := (t - start) / pc;
    d := Lockstep(f, c, start, u);
    var g := F.RunUntil(F.Load(f, start), At(start, pc, u));
    WithinClock(start, pc, t, u);
    AtOrder(start, pc, u + 1, d);
    NotDue(g, start, d, t);
    RunUntilCompose(F.Load(f, start), At(start, pc, u), t);
  }

  lemma WithinClock(start: nat, pc: nat, t: nat, u: nat)
    requires pc > 0 && t >= start && u == (t - start) / pc
    ensures At(start, pc, u) <= t < At(start, pc, u + 1)
  {
    assert t - start == pc * u + (t - start) % pc;
    assert (u + 1) * pc == u * pc + pc;
  }

  /**
   All three modes: up to any instant the OUT handler has been called exactly for the exact counter's
   transitions, at the times of their clocks. In mode 2 each call pair marks one falling edge.
   */
  lemma SameEvents(f: F.Fast, c: Channel, start: nat, t: nat)
    requires Aligned(f, c) && t >= start
    ensures F.RunUntil(F.Load(f, start), t).pin.calls ==
            F.Load(f, start).pin.calls
            + ExpectedCalls(Tick(c), start, f.setup.pitConst, (t - start) / f.setup.pitConst)
  {
    hide F.Load, F.Fire, Tick, F.RunUntil;
    var u, d := SettledBy(f, c, start, t);
  }

  /** The pulses of mode 2 mark the clocks k * N - 1: there the exact counter falls, and nowhere else. */
  lemma PulseClocks(c: Channel, u: nat)
    requires c.cfg.mode == 2 && Running(c, 2) && c.core.state == LoadNext && u > 0
    ensures (Ticks(Tick(c), u - 1).core.output && !Ticks(Tick(c), u).core.output) <==> (u + 1) % N(c) == 0
  {
    RateGenerator(c, u - 1);
    RateGenerator(c, u);
    NextRemainder(u - 1, N(c));
    NextRemainder(u, N(c));
  }
}
