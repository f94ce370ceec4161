/** What the outside world can do to the controller pair, and what none of it changes. */
module PicSteps {
  import opened Bits
  import opened PicSpec

  /**
   `Edge` and `Level` are the two request APIs; `AckWhole` is a whole acknowledge, `AckByte` half of one. `Refresh`
   is the timer callback through which boards that do not refresh on a mask write may do so later.
   */
  datatype Step =
    | Edge(num: set<int>, up: bool)
    | Level(num: set<int>, up: bool, was: bool)
    | Imr(chip: Which, value: Byte)
    | Ocw2(chip: Which, value: Byte)
    | Ocw3(chip: Which, value: Byte)
    | Refresh
    | AckWhole
    | AckByte

  /** The configuration, which only initialisation words change. */
  predicate Fixed(p: Pics, q: Pics) {
    && q.board == p.board && q.master.icw == p.master.icw && q.slave.icw == p.slave.icw
    && |q.master.lines| == |p.master.lines| && |q.slave.lines| == |p.slave.lines|
  }

  lemma UpdateFixed(p: Pics)
    ensures Fixed(p, UpdatePending(p))
  {
    hide Best, CascadeLine;
  }

  lemma ActionFixed(p: Pics, w: Which, j: int, eoi: bool, rotate: bool)
    requires -1 <= j < 8
    ensures Fixed(p, Action(p, w, j, eoi, rotate))
  {
    hide UpdatePending;
    if j != -1 {
      UpdateFixed(Put(p, w, Get(p, w).(reg := ActionReg(Get(p, w).reg, j, eoi, rotate))));
    }
  }

  lemma AutoEoiFixed(p: Pics, w: Which)
    ensures Fixed(p, AutoEoi(p, w))
  {
    hide Action, Bit, NonSpecific;
    ActionFixed(p, w, NonSpecific(Get(p, w)), true, Get(p, w).ctl.autoEoiRotate);
  }

  lemma CommandFixed(p: Pics, w: Which, v: Byte)
    ensures Fixed(p, WriteOcw2(p, w, v))
  {
    hide Action, Bit, NonSpecific;
    var c := OnBus(Get(p, w), v);
    var q := Put(p, w, c.(ctl := c.ctl.(ocw2 := v)));
    assert Fixed(p, q);
    ActionFixed(q, w, v % 8, Bit(v, 5), Bit(v, 7));
    ActionFixed(q, w, NonSpecific(Get(q, w)), true, Bit(v, 7));
  }

  lemma ImrFixed(p: Pics, w: Which, v: Byte)
    ensures Fixed(p, WriteImr(p, w, v))
  {
    hide UpdatePending, MaskOf;
    var c := OnBus(Get(p, w), v);
    UpdateFixed(Put(p, w, c.(reg := c.reg.(imr := MaskOf(v)))));
  }

  lemma Ocw3Fixed(p: Pics, w: Which, v: Byte)
    ensures Fixed(p, WriteOcw3(p, w, v))
  {
    hide Bit;
  }

  lemma DriveFixed(p: Pics, num: set<int>, up: bool)
    ensures Fixed(p, Drive(p, num, up))
  {
    hide UpdatePending;
    UpdateFixed(Pics(Request(p.master, LowLines(num), up), Request(p.slave, HighLines(num), up), p.board));
  }

  lemma LevelFixed(p: Pics, num: set<int>, up: bool, was: bool)
    requires Wired(p)
    ensures Fixed(p, PicIntLevel(p, num, up, was))
  {
    hide Drive, Counted, Touches, Reachable, Routed, TouchedLines;
    var r := Routed(p, num);
    var q := if was != up then LevelLines(p, r, up) else p;
    assert Fixed(p, q);
    DriveFixed(q, Reachable(p, TouchedLines(p, r, up, was)), up);
  }

  lemma AckChipFixed(p: Pics, w: Which, phase: nat)
    requires Wired(p)
    ensures Fixed(p, AckChip(p, w, phase))
  {
    hide AutoEoi, Bit, AcknowledgeReg, MasterVector, Vector, CallLow, I86;
    var c := Get(p, w);
    if phase != 0 && I86(c) {
      AutoEoiFixed(Put(p, w, OnBus(NotPending(c), if w == Master then MasterVector(p.board, c) else Vector(c))), w);
    } else if phase == 2 {
      AutoEoiFixed(Put(p, w, OnBus(NotPending(c), c.icw.icw2)), w);
    }
  }

  lemma FixedWired(p: Pics, q: Pics)
    requires Wired(p) && Fixed(p, q)
    ensures Wired(q)
  {
  }

  lemma AckReadFixed(p: Pics, phase: nat)
    requires Wired(p)
    ensures Fixed(p, AckRead(p, phase))
  {
    hide AutoEoi, Bit, AcknowledgeReg, AckChip, I86;
    var m := p.master;
    if !m.out.interrupt.slave {
      AckChipFixed(p, Master, phase);
    } else if phase == 0 {
      FixedWired(p, p.(master := Freeze(p.board, m)));
      AckChipFixed(p.(master := Freeze(p.board, m)), Slave, 0);
    } else if I86(m) || phase == 2 {
      FixedWired(p, p.(master := NotPending(m)));
      AckChipFixed(p.(master := NotPending(m)), Slave, phase);
      var q := AckChip(p.(master := NotPending(m)), Slave, phase);
      AutoEoiFixed(q.(master := OnBus(q.master, q.slave.out.dataBus)), Master);
    } else {
      AckChipFixed(p, Slave, 1);
    }
  }

  lemma AckCycleFixed(p: Pics)
    requires Wired(p)
    ensures Fixed(p, AckCycle(p))
  {
    hide AckRead, UpdatePending, Bit, I86, Wired;
    var q := AckRead(p, p.master.out.ackBytes);
    AckReadFixed(p, p.master.out.ackBytes);
    var n := (q.master.out.ackBytes + 1) % (if I86(q.master) then 2 else 3);
    var r := q.(master := q.master.(out := q.master.out.(ackBytes := n)));
    UpdateFixed(r.(slave := if r.master.out.interrupt.slave then Idle(r.slave) else r.slave, master := Idle(r.master)));
  }

  lemma BeginFixed(p: Pics)
    ensures Fixed(p, BeginInterrupt(p)) && Fixed(p, BeginAck(p))
  {
    hide SlaveOn;
  }

  /** The state after the first cycle of a whole acknowledge. */
  function FirstCycle(p: Pics): (q: Pics)
    requires Wired(p)
    ensures Wired(q) && Fixed(p, q)
  {
    BeginFixed(p);
    FixedWired(p, BeginInterrupt(p));
    AckCycleFixed(BeginInterrupt(p));
    FixedWired(BeginInterrupt(p), AckCycle(BeginInterrupt(p)));
    AckCycle(BeginInterrupt(p))
  }

  function BothCycles(p: Pics): (q: Pics)
    requires Wired(p)
    ensures Wired(q) && Fixed(p, q)
  {
    AckCycleFixed(FirstCycle(p));
    FixedWired(p, AckCycle(FirstCycle(p)));
    AckCycle(FirstCycle(p))
  }

  /** A byte-wise acknowledge; where the source would stop the machine the state stays. */
  function ByteCycle(p: Pics): (q: Pics)
    requires Wired(p)
    ensures Wired(q) && Fixed(p, q)
  {
    BeginFixed(p);
    FixedWired(p, BeginAck(p));
    AckCycleFixed(BeginAck(p));
    FixedWired(p, AckCycle(BeginAck(p)));
    if AckFatal(p) then p else AckCycle(BeginAck(p))
  }

  function DoPlain(p: Pics, s: Step): Pics
    requires Wired(p)
  {
    match s
    case Edge(num, up) => PicInt(p, num, up)
    case Level(num, up, was) => PicIntLevel(p, num, up, was)
    case Imr(w, v) => WriteImr(p, w, v)
    case Ocw2(w, v) => WriteOcw2(p, w, v)
    case Ocw3(w, v) => WriteOcw3(p, w, v)
    case Refresh => UpdatePending(p)
    case AckWhole => BothCycles(p)
    case AckByte => ByteCycle(p)
  }

  lemma StepFixed(p: Pics, s: Step)
    requires Wired(p)
    ensures Fixed(p, DoPlain(p, s))
  {
    hide Wired, Fixed, PicIntLevel, WriteImr, WriteOcw2, WriteOcw3, BothCycles, ByteCycle, Drive, Routed, Reachable,
      UpdatePending;
    match s
    case Edge(num, up) => DriveFixed(p, Reachable(p, Routed(p, num)), up);
    case Level(num, up, was) => LevelFixed(p, num, up, was);
    case Imr(w, v) => ImrFixed(p, w, v);
    case Ocw2(w, v) => CommandFixed(p, w, v);
    case Ocw3(w, v) => Ocw3Fixed(p, w, v);
    case Refresh => UpdateFixed(p);
    case _ =>
  }

  function Do(p: Pics, s: Step): (q: Pics)
    requires Wired(p)
    ensures Wired(q) && Fixed(p, q)
  {
    StepFixed(p, s);
    FixedWired(p, DoPlain(p, s));
    DoPlain(p, s)
  }

  function Run(p: Pics, steps: seq<Step>): (q: Pics)
    requires Wired(p)
    ensures Wired(q) && Fixed(p, q)
  {
    if steps == [] then p else Do(Run(p, steps[..|steps| - 1]), steps[|steps| - 1])
  }
}
