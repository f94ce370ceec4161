/**
 What every step keeps on a board with one controller or two: the outputs are coherent while no acknowledge is
 under way, and on two chips the master's request bit 2 and the slave's pending flag tell the same story.
 */
module PicCascade {
  import opened Bits
  import opened PicSpec
  import opened PicSteps

  /** Both chips initialised for an 8086 cascade: master slave-map 04h, slave identity 2. */
  predicate CascadeWired(p: Pics) {
    && p.master.icw.icw3 == 4 && p.slave.icw.icw3 == 2
    && p.master.icw.isMaster && Cascaded(p.master) && I86(p.slave) && p.slave.icw.state == 0
  }

  /** A board ready for use: one chip, or two in cascade. */
  predicate Configured(p: Pics) {
    Wired(p) && I86(p.master) && p.master.icw.state == 0 && (p.board.at ==> CascadeWired(p))
  }

  predicate Frozen(p: Pics) {
    p.master.out.interrupt.frozen
  }

  /** What holds of the two chips of a cascade when no acknowledge is under way. */
  predicate Joined(p: Pics) {
    && !p.slave.out.interrupt.slave && !p.slave.out.interrupt.frozen
    && (2 in p.master.reg.irr <==> p.slave.out.intPending)
    && p.slave.out.intPending == !p.slave.out.interrupt.none
    && (p.master.out.intPending && p.master.out.interrupt.line == 2 ==> 2 in p.master.reg.irr)
  }

  /** What holds when no acknowledge is under way. */
  predicate Settled(p: Pics) {
    && p.master.out.ackBytes == 0 && !p.master.out.interrupt.slave
    && p.master.out.intPending == !p.master.out.interrupt.none
    && (p.board.at ==> Joined(p))
  }

  /** What holds between the two acknowledge bytes. */
  predicate Midway(p: Pics) {
    && p.master.out.ackBytes == 1
    && (p.master.out.interrupt.slave ==> p.board.at && p.master.out.interrupt.line == 2)
    && (p.board.at ==> !p.slave.out.interrupt.slave && p.slave.out.interrupt.frozen == p.master.out.interrupt.slave)
  }

  predicate Coherent(p: Pics) {
    if Frozen(p) then Midway(p) else Settled(p)
  }

  /** Everything but the poll command. */
  predicate Plain(s: Step) {
    s.Ocw3? ==> !Bit(s.value, 2)
  }

  /** The lines that can be raised and lowered are never the cascade input. */
  lemma CascadeBits(j: nat)
    ensures Bit(4, j) <==> j == 2
  {
    assert Bit(4, j) == (if j == 0 then false else Bit(2, j - 1));
    if j >= 1 {
      assert Bit(2, j - 1) == (if j == 1 then false else Bit(1, j - 2));
      if j >= 3 {
        assert Bit(1, j - 2) == Bit(0, j - 3);
        ZeroHasNoBits(0, j - 3);
      }
    }
  }

  // ---- updating ----

  /** An update while unfrozen settles the outputs, whatever they were. */
  lemma UpdateSettles(p: Pics)
    requires Configured(p) && !Frozen(p) && p.master.out.ackBytes == 0
    ensures var q := UpdatePending(p); !Frozen(q) && Settled(q)
  {
    hide Best, Wired, Bit;
    var s := WithBest(p.slave);
    var line := CascadeLine(s);
    var m := p.master.(reg := p.master.reg.(irr := if s.out.intPending then p.master.reg.irr + line else p.master.reg.irr - line));
    BestRequested(m);
  }

  lemma BestRequested(c: Chip)
    ensures Best(c) != -1 ==> Requested(c, Best(c))
  {
    hide Requested, At;
    BestFromRequested(c, 0);
  }

  lemma {:induction false} BestFromRequested(c: Chip, i: nat)
    ensures var j := FindFrom(c, i); j != -1 ==> 0 <= j < 8 && Requested(c, j)
    decreases 8 - i
  {
    hide Requested, At;
    if i < 8 {
      BestFromRequested(c, i + 1);
    }
  }

  // ---- steps other than acknowledges ----

  /** Same outputs, up to the data bus. */
  predicate SameOuts(p: Pics, r: Pics) {
    && r.master.out.(dataBus := 0) == p.master.out.(dataBus := 0)
    && r.slave.out.(dataBus := 0) == p.slave.out.(dataBus := 0)
  }

  predicate SameRegs(p: Pics, r: Pics) {
    r.master.reg == p.master.reg && r.slave.reg == p.slave.reg
  }

  predicate IsAck(s: Step) {
    s.AckWhole? || s.AckByte?
  }

  lemma Ocw2Step(p: Pics, w: Which, v: Byte) returns (r: Pics, updated: bool)
    ensures Fixed(p, r) && SameOuts(p, r) && (updated || SameRegs(p, r))
    ensures WriteOcw2(p, w, v) == if updated then UpdatePending(r) else r
  {
    hide UpdatePending, Bit, NonSpecific;
    var c := OnBus(Get(p, w), v);
    var q := Put(p, w, c.(ctl := c.ctl.(ocw2 := v)));
    if Bit(v, 6) || Bit(v, 5) {
      var j := if Bit(v, 6) then v % 8 else NonSpecific(Get(q, w));
      updated := j != -1;
      r := if updated then Put(q, w, Get(q, w).(reg := ActionReg(Get(q, w).reg, j, Bit(v, 5), Bit(v, 7)))) else q;
    } else {
      r, updated := WriteOcw2(p, w, v), false;
    }
  }

  lemma DriveStep(p: Pics, num: set<int>, up: bool) returns (r: Pics, updated: bool)
    ensures Fixed(p, r) && SameOuts(p, r) && (updated || r == p)
    ensures Drive(p, num, up) == if updated then UpdatePending(r) else r
  {
    hide UpdatePending;
    updated := num != {};
    r := if updated then Pics(Request(p.master, LowLines(num), up), Request(p.slave, HighLines(num), up), p.board) else p;
  }

  lemma LevelStep(p: Pics, num: set<int>, up: bool, was: bool) returns (r: Pics, updated: bool)
    requires Wired(p)
    ensures Fixed(p, r) && SameOuts(p, r) && (updated || SameRegs(p, r))
    ensures PicIntLevel(p, num, up, was) == if updated then UpdatePending(r) else r
  {
    hide UpdatePending, Counted, Touches, Reachable, Routed, TouchedLines, Drive;
    var n := Routed(p, num);
    if n == {} {
      r, updated := p, false;
    } else {
      r, updated := DriveStep(if was != up then LevelLines(p, n, up) else p, Reachable(p, TouchedLines(p, n, up, was)), up);
    }
  }

  /** Any other step is a change behind the outputs, followed by a refresh or by none. */
  lemma OtherStep(p: Pics, s: Step) returns (r: Pics, updated: bool)
    requires Wired(p) && Plain(s) && !IsAck(s)
    ensures Fixed(p, r) && SameOuts(p, r) && Do(p, s) == if updated then UpdatePending(r) else r
    ensures !updated ==> r.master.reg.irr == p.master.reg.irr
    ensures !updated && (s.Imr? ==> p.board.imrUpdates) ==> SameRegs(p, r)
  {
    hide UpdatePending, Bit, Wired, PicIntLevel, Drive, WriteOcw2, MaskOf, Routed, Reachable;
    match s
    case Edge(num, up) => r, updated := DriveStep(p, Reachable(p, Routed(p, num)), up);
    case Level(num, up, was) => r, updated := LevelStep(p, num, up, was);
    case Imr(w, v) =>
      var c := OnBus(Get(p, w), v);
      r, updated := Put(p, w, c.(reg := c.reg.(imr := MaskOf(v)))), p.board.imrUpdates;
    case Ocw2(w, v) => r, updated := Ocw2Step(p, w, v);
    case Ocw3(w, v) => r, updated := WriteOcw3(p, w, v), false;
    case Refresh => r, updated := p, true;
    case _ =>
  }

  lemma OtherStepCoherent(p: Pics, s: Step)
    requires Configured(p) && Coherent(p) && Plain(s) && !IsAck(s)
    ensures Coherent(Do(p, s)) && (Frozen(p) ==> SameOuts(p, Do(p, s)))
  {
    hide Do, UpdatePending, Wired, Bit;
    var r, updated := OtherStep(p, s);
    if updated {
      FrozenUpdate(r);
      if !Frozen(p) {
        FixedBoard(p, r);
        UpdateSettles(r);
      }
    }
  }

  lemma FrozenUpdate(p: Pics)
    ensures Frozen(p) ==> UpdatePending(p) == p
  {
  }

  lemma FixedBoard(p: Pics, r: Pics)
    requires Configured(p) && Fixed(p, r)
    ensures Configured(r)
  {
    FixedWired(p, r);
  }

  // ---- acknowledges ----

  /** With coherence the slave is entered exactly when the master offers its line, and then it has a request. */
  lemma SlaveOnIff(p: Pics)
    requires Configured(p) && Settled(p) && !Frozen(p)
    ensures SlaveOn(p.master) <==> p.board.at && p.master.out.intPending && p.master.out.interrupt.line == 2
    ensures SlaveOn(p.master) ==> p.slave.out.intPending
    ensures !AckFatal(p)
  {
    hide Bit;
    CascadeBits(p.master.out.interrupt.line);
  }

  /** A cycle may start: the slave is marked only if the master offers its line. */
  predicate Begun(b: Pics) {
    && !Frozen(b) && b.master.out.ackBytes == 0
    && (b.board.at ==> !b.slave.out.interrupt.slave && !b.slave.out.interrupt.frozen)
    && (b.master.out.interrupt.slave ==> b.board.at && b.master.out.interrupt.line == 2)
  }

  /** The first acknowledge byte: the offered line goes into service, on the slave too when it is marked. */
  function FirstState(b: Pics): Pics
    requires Wired(b)
  {
    var m := OnBus(Freeze(b.board, b.master), 0xff);
    Pics(m.(out := m.out.(ackBytes := 1)),
         if b.master.out.interrupt.slave then OnBus(Freeze(b.board, b.slave), 0xff) else b.slave,
         b.board)
  }

  lemma FirstAck(b: Pics)
    requires Configured(b) && Begun(b)
    ensures AckCycle(b) == FirstState(b) && Midway(FirstState(b)) && Frozen(FirstState(b))
  {
    hide AcknowledgeReg, UpdatePending, Bit, Cascaded;
  }

  predicate SameRequests(p: Pics, r: Pics) {
    && r.master.reg.irr == p.master.reg.irr && r.slave.reg.irr == p.slave.reg.irr
    && r.master.lines == p.master.lines && r.slave.lines == p.slave.lines
  }

  /** An automatic end of interrupt while frozen touches only the in-service and priority registers. */
  lemma FrozenAutoEoi(p: Pics, w: Which)
    requires Frozen(p)
    ensures var q := AutoEoi(p, w);
            && q.board == p.board && Frozen(q) && SameOuts(p, q) && Fixed(p, q)
            && q.master.out == p.master.out && q.slave.out == p.slave.out
            && (!Bit(Get(p, w).icw.icw4, 1) ==> q == p) && SameRequests(p, q)
  {
    hide UpdatePending, Bit, NonSpecific;
    var c := Get(p, w);
    var j := NonSpecific(c);
    if j != -1 {
      FrozenUpdate(Put(p, w, c.(reg := ActionReg(c.reg, j, true, c.ctl.autoEoiRotate))));
    }
  }

  predicate Automatic(p: Pics) {
    Bit(p.master.icw.icw4, 1) || (p.board.at && Bit(p.slave.icw.icw4, 1))
  }

  /** The byte a second acknowledge puts on the bus. */
  function OfferedVector(p: Pics): Byte
    requires Wired(p)
  {
    if p.master.out.interrupt.slave then Vector(p.slave) else MasterVector(p.board, p.master)
  }

  lemma SecondRead(m: Pics) returns (q: Pics)
    requires Configured(m) && Midway(m) && Frozen(m)
    ensures q == AckRead(m, 1) && Fixed(m, q) && SameRequests(m, q)
    ensures q.master.out.ackBytes == 1 && q.master.out.interrupt == m.master.out.interrupt
    ensures q.slave.out.interrupt == m.slave.out.interrupt
    ensures !Automatic(m) ==> SameRegs(m, q) && q.master.ctl == m.master.ctl && q.slave.ctl == m.slave.ctl
    ensures q.master.out.dataBus == OfferedVector(m)
  {
    hide AutoEoi, Bit, MasterVector, Vector, Cascaded;
    q := AckRead(m, 1);
    if !m.master.out.interrupt.slave {
      FrozenAutoEoi(m.(master := OnBus(NotPending(m.master), MasterVector(m.board, m.master))), Master);
    } else {
      var p := m.(master := NotPending(m.master));
      var s := p.(slave := OnBus(NotPending(p.slave), Vector(p.slave)));
      FrozenAutoEoi(s, Slave);
      var t := AutoEoi(s, Slave);
      FixedWired(m, p);
      assert t == AckChip(p, Slave, 1);
      FrozenAutoEoi(t.(master := OnBus(t.master, t.slave.out.dataBus)), Master);
    }
  }

  /** The second acknowledge byte ends the freeze and refreshes. */
  lemma SecondAck(m: Pics) returns (r: Pics)
    requires Configured(m) && Midway(m) && Frozen(m)
    ensures AckCycle(m) == UpdatePending(r) && AckValue(m) == OfferedVector(m)
    ensures Fixed(m, r) && !Frozen(r) && r.master.out.ackBytes == 0 && SameRequests(m, r)
    ensures !Automatic(m) ==> SameRegs(m, r) && r.master.ctl == m.master.ctl && r.slave.ctl == m.slave.ctl
  {
    hide AckRead, UpdatePending, Bit, OfferedVector, Automatic, Wired, Cascaded;
    var q := SecondRead(m);
    var n := q.(master := q.master.(out := q.master.out.(ackBytes := 0)));
    r := n.(slave := if n.master.out.interrupt.slave then Idle(n.slave) else n.slave, master := Idle(n.master));
  }

  lemma SecondSettles(m: Pics)
    requires Configured(m) && Midway(m) && Frozen(m)
    ensures var q := AckCycle(m); !Frozen(q) && Settled(q)
  {
    hide UpdatePending, AckCycle, Bit, Wired;
    var r := SecondAck(m);
    FixedBoard(m, r);
    UpdateSettles(r);
  }

  lemma BeginsAck(p: Pics)
    requires Configured(p) && Settled(p) && !Frozen(p)
    ensures Configured(BeginInterrupt(p)) && Begun(BeginInterrupt(p))
    ensures Configured(BeginAck(p)) && Begun(BeginAck(p))
  {
    hide SlaveOn, Bit, Wired;
    SlaveOnIff(p);
    BeginFixed(p);
    FixedBoard(p, BeginInterrupt(p));
    FixedBoard(p, BeginAck(p));
  }

  lemma MidwayBegin(p: Pics)
    requires Midway(p)
    ensures BeginAck(p) == p && !AckFatal(p)
  {
  }

  lemma AckStepCoherent(p: Pics, s: Step)
    requires Configured(p) && Coherent(p) && IsAck(s) && (s.AckWhole? ==> !Frozen(p))
    ensures Coherent(Do(p, s))
  {
    hide AckCycle, Bit, Wired, BeginInterrupt, BeginAck, FirstState, SlaveOn;
    if Frozen(p) {
      MidwayBegin(p);
      SecondSettles(p);
    } else {
      BeginsAck(p);
      SlaveOnIff(p);
      FirstAck(BeginInterrupt(p));
      FirstAck(BeginAck(p));
      if s.AckWhole? {
        FixedBoard(p, FirstCycle(p));
        SecondSettles(FirstCycle(p));
      }
    }
  }

  // ---- runs ----

  /** A processor that acknowledges byte by byte does not start a whole acknowledge in between; nobody polls. */
  predicate Allowed(p: Pics, s: Step) {
    Plain(s) && (s.AckWhole? ==> !Frozen(p))
  }

  predicate Legal(p: Pics, steps: seq<Step>)
    requires Wired(p)
  {
    steps == [] ||
    (Legal(p, steps[..|steps| - 1]) && Allowed(Run(p, steps[..|steps| - 1]), steps[|steps| - 1]))
  }

  lemma StepCoherent(p: Pics, s: Step)
    requires Configured(p) && Coherent(p) && Allowed(p, s)
    ensures Configured(Do(p, s)) && Coherent(Do(p, s))
  {
    hide Coherent, Wired, Bit, DoPlain;
    FixedBoard(p, Do(p, s));
    if IsAck(s) {
      AckStepCoherent(p, s);
    } else {
      OtherStepCoherent(p, s);
    }
  }

  /** A board that has been initialised and refreshed once. */
  predicate Ready(p: Pics) {
    Configured(p) && !Frozen(p) && Settled(p)
  }

  lemma {:induction false} RunCoherent(p: Pics, steps: seq<Step>)
    requires Ready(p) && Legal(p, steps)
    ensures Configured(Run(p, steps)) && Coherent(Run(p, steps))
  {
    hide Settled, Midway, Allowed, Bit, Cascaded;
    if steps != [] {
      RunCoherent(p, steps[..|steps| - 1]);
      StepCoherent(Run(p, steps[..|steps| - 1]), steps[|steps| - 1]);
    }
  }

  /**
   In every unfrozen state of every run of a cascade the master's request bit 2 is the slave's pending flag, so
   the acknowledge never finds a cascade request without a slave behind it: the byte-wise form never stops the
   machine and the whole form never invents a slave interrupt. With one chip the slave is never entered.
   */
  lemma CascadeCoherence(p: Pics, steps: seq<Step>)
    requires Ready(p) && Legal(p, steps)
    ensures var q := Run(p, steps);
            && (!Frozen(q) && q.board.at ==> (2 in q.master.reg.irr <==> q.slave.out.intPending))
            && !AckFatal(q)
            && (!Frozen(q) ==> BeginInterrupt(q).slave == q.slave)
            && (!Frozen(q) ==>
                  (SlaveOn(q.master) <==> q.board.at && q.master.out.intPending && q.master.out.interrupt.line == 2))
  {
    hide Run, Wired, Bit, SlaveOn;
    RunCoherent(p, steps);
    var q := Run(p, steps);
    if Frozen(q) {
      MidwayBegin(q);
    } else {
      SlaveOnIff(q);
    }
  }
}
