/** The periodic modes under GATE: OUT over any run of clocks and GATE edges. */
module PitGate {
  import opened PitExact
  import opened PitCounting
  import opened PitPeriodic

  /**
   A periodic counter as the datasheet tells it: stopped with OUT high while GATE is low, loading at the next clock
   after GATE rises, or `p` clocks into its period. `late` is the one thing the datasheet does not tell: the wave
   was stopped while an 8254 with an odd count owed the toggle that ends its high half.
   */
  datatype Wave = Stopped(late: bool) | Starting(late: bool) | At(p: nat)

  datatype Shape = Shape(mode: Mode, n: nat, odd8254: bool)

  function WaveStep(w: Wave, s: Shape, e: Event): Wave {
    match e
    case Clock => (match w
                   case Stopped(_) => w
                   case Starting(late) => At(if late then High(s.n) else 0)
                   case At(p) => At(NextPhase(p, s.n)))
    case Gate(high) =>
      if high then (if w.Stopped? then Starting(w.late) else w)
      else (match w
            case Stopped(_) => w
            case Starting(late) => Stopped(late)
            case At(p) => Stopped(s.mode == 3 && s.odd8254 && p == High(s.n) - 1))
    case Write(_) => w
  }

  function WaveRun(w: Wave, s: Shape, es: seq<Event>): Wave {
    if es == [] then w else WaveStep(WaveRun(w, s, es[..|es| - 1]), s, es[|es| - 1])
  }

  predicate Level(w: Wave, s: Shape) {
    match w
    case Stopped(_) => true
    case Starting(_) => true
    case At(p) => if s.mode == 2 then p != s.n - 1 else p < High(s.n)
  }

  function ShapeOf(c: Channel): Shape {
    Shape(c.cfg.mode, N(c), Odd8254(c))
  }

  /** A periodic counter under GATE. */
  ghost predicate Gated(c: Channel, w: Wave) {
    && (c.cfg.mode == 2 || c.cfg.mode == 3) && N(c) >= 2
    && (c.gate <==> !w.Stopped?)
    && match w
       case Stopped(late) =>
         c.core.output && (c.cfg.mode == 3 ==> c.core.toggleOnReload == late)
         && (c.core.state == WaitGate || (c.core.state == LoadNext && !late && !c.core.toggleOnReload))
       case Starting(late) => c.core.state == LoadNext && c.core.output && (c.cfg.mode == 3 ==> c.core.toggleOnReload == late)
       case At(p) => if c.cfg.mode == 2 then Mode2Phase(c, p) else Mode3Phase(c, p)
  }

  predicate LateIsMode3(w: Wave, s: Shape) {
    !w.At? && w.late ==> s.mode == 3
  }

  /** A clock with GATE low: nothing happens, or the first count goes in and the wave stays stopped. */
  lemma StoppedClock(c: Channel, w: Wave)
    requires Gated(c, w) && w.Stopped?
    ensures Gated(Tick(c), w) && ShapeOf(Tick(c)) == ShapeOf(c)
  {
    hide Number, Mode3Number, CountCore;
  }

  lemma ClockStep(c: Channel, w: Wave)
    requires Gated(c, w) && LateIsMode3(w, ShapeOf(c))
    ensures Gated(Tick(c), WaveStep(w, ShapeOf(c), Clock)) && ShapeOf(Tick(c)) == ShapeOf(c)
  {
    hide Number, Mode3Number, CountCore, LoadCore;
    match w {
      case Stopped(_) => StoppedClock(c, w);
      case Starting(_) =>
        if c.cfg.mode == 2 {
          Mode2Load(c);
        } else {
          Mode3Load(c);
        }
      case At(p) =>
        if c.cfg.mode == 2 {
          Mode2Step(c, p);
        } else {
          Mode3Step(c, p);
        }
    }
    TickFrame(c, 1);
    assert Ticks(c, 0) == c && Ticks(c, 1) == Tick(c);
  }

  lemma GateStep(c: Channel, w: Wave, high: bool)
    requires Gated(c, w)
    ensures Gated(SetGate(c, high), WaveStep(w, ShapeOf(c), Gate(high))) && ShapeOf(SetGate(c, high)) == ShapeOf(c)
  {
    hide Number, Mode3Number;
  }

  lemma {:induction false} GatedRun(c: Channel, w: Wave, es: seq<Event>)
    requires Gated(c, w) && LateIsMode3(w, ShapeOf(c)) && PinsOnly(es)
    ensures var d, v := Run(c, es), WaveRun(w, ShapeOf(c), es);
            Gated(d, v) && LateIsMode3(v, ShapeOf(c)) && ShapeOf(d) == ShapeOf(c)
  {
    hide Number, Mode3Number, Tick, SetGate, Gated, ShapeOf, High;
    if es != [] {
      var init, e := es[..|es| - 1], es[|es| - 1];
      GatedRun(c, w, init);
      match e {
        case Clock => ClockStep(Run(c, init), WaveRun(w, ShapeOf(c), init));
        case Gate(high) => GateStep(Run(c, init), WaveRun(w, ShapeOf(c), init), high);
        case Write(_) =>
      }
    }
  }

  /**
   Modes 2 and 3 with a count written, whatever the level of GATE, through any clocks and GATE edges: OUT is high while
   GATE is low and until the clock after it rises, and then follows the wave from its start.
   */
  lemma GatedWave(c: Channel, es: seq<Event>)
    requires (c.cfg.mode == 2 || c.cfg.mode == 3) && N(c) >= 2
    requires c.core.state == LoadNext && c.core.output && !c.core.toggleOnReload && PinsOnly(es)
    ensures Run(c, es).core.output <==> Level(WaveRun(FirstWave(c.gate), ShapeOf(c), es), ShapeOf(c))
  {
    hide Number, Mode3Number, WaveRun, Run;
    GatedRun(c, FirstWave(c.gate), es);
  }

  /** A count has been written and nothing loaded yet. */
  function FirstWave(gate: bool): Wave {
    if gate then Starting(false) else Stopped(false)
  }

  /**
   A GATE pulse at phase `p`, low for `m` clocks, restarts the square wave with OUT high if and only if it does not
   come on the last high tick of an 8254 with an odd count; there it restarts with the low half.
   */
  lemma GateRestartsSquareWave(c: Channel, p: nat, m: nat, k: nat)
    requires Mode3Phase(c, p)
    ensures var d := SetGate(Ticks(SetGate(c, false), m), true);
            var start := if Odd8254(c) && p == High(N(c)) - 1 then High(N(c)) else 0;
            && Mode3Phase(Tick(d), start)
            && (Ticks(Tick(d), k).core.output <==> (start + k) % N(c) < High(N(c)))
  {
    hide Number, Mode3Number, Tick;
    WaitsForGate(SetGate(c, false), m);
    var d := SetGate(Ticks(SetGate(c, false), m), true);
    Mode3Load(d);
    SquareWave(d, k);
  }

  lemma GateRestartsRateGenerator(c: Channel, p: nat, m: nat, k: nat)
    requires Mode2Phase(c, p)
    ensures var d := SetGate(Ticks(SetGate(c, false), m), true);
            && Mode2Phase(Tick(d), 0)
            && (Ticks(Tick(d), k).core.output <==> k % N(c) != N(c) - 1)
  {
    hide Number, Tick;
    WaitsForGate(SetGate(c, false), m);
    var d := SetGate(Ticks(SetGate(c, false), m), true);
    Mode2Load(d);
    RateGenerator(d, k);
  }

  lemma {:induction false} WaitsForGate(c: Channel, m: nat)
    requires c.core.state == WaitGate
    ensures var d := Ticks(c, m); d.core == c.core && d.cfg == c.cfg && d.gate == c.gate && d.flags == c.flags
  {
    if m > 0 {
      WaitsForGate(c, m - 1);
    }
  }
}
