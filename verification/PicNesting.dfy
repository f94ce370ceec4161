/**
 Fully nested operation: with fixed priorities, no special mask mode, no automatic and no specific end of
 interrupt, and no acknowledge without a request, the in-service register is a stack.
 */
module PicNesting {
  import opened Bits
  import opened PicSpec
  import opened PicSteps
  import opened PicPriority
  import opened PicCascade
  import opened PicDelivery

  /** The pair with the lines each chip has acknowledged and not yet retired, oldest first. */
  datatype History = History(p: Pics, master: seq<Line>, slave: seq<Line>)

  predicate NonSpecificEoi(v: Byte) {
    v / 0x20 == 1
  }

  /** OCW2 values that neither retire a named line nor move the priorities. */
  predicate Harmless(v: Byte) {
    v / 0x20 == 0 || v / 0x20 == 2 || v / 0x20 == 4
  }

  /** A byte OCW3 may hold: no poll, and special mask mode is not entered. */
  predicate Unmasked(v: Byte) {
    !Bit(v, 2) && !(Bit(v, 6) && Bit(v, 5))
  }

  predicate Nested(p: Pics, s: Step) {
    match s
    case Ocw2(_, v) => NonSpecificEoi(v) || Harmless(v)
    case Ocw3(_, v) => Unmasked(v)
    case Refresh => true
    case AckWhole => !Frozen(p) && p.master.out.intPending
    case AckByte => Frozen(p) || p.master.out.intPending
    case _ => true
  }

  function Pop(s: seq<Line>): seq<Line> {
    if s == [] then [] else s[..|s| - 1]
  }

  predicate Acknowledges(p: Pics, s: Step) {
    IsAck(s) && !Frozen(p)
  }

  /** Acknowledges push the offered lines, non-specific ends of interrupt pop. */
  function Follow(h: History, s: Step): History
    requires Wired(h.p)
  {
    var q := Do(h.p, s);
    if Acknowledges(h.p, s) then
      var j := h.p.master.out.interrupt.line;
      History(q, h.master + [j], if q.board.at && j == 2 then h.slave + [h.p.slave.out.interrupt.line] else h.slave)
    else if s.Ocw2? && NonSpecificEoi(s.value) then
      if s.chip == Master then History(q, Pop(h.master), h.slave) else History(q, h.master, Pop(h.slave))
    else History(q, h.master, h.slave)
  }

  /** The in-service register is exactly the stack, each entry of strictly higher priority than those under it. */
  ghost predicate Stacked(c: Chip, s: seq<Line>) {
    && (forall j: Line :: j in c.reg.isr <==> j in s)
    && (forall a, b :: 0 <= a < b < |s| ==> Rank(c, s[b]) < Rank(c, s[a]))
  }

  /** What a chip offers outranks all it has in service. */
  predicate Outranks(c: Chip) {
    c.out.intPending ==> forall k: Line :: k in c.reg.isr ==> Rank(c, c.out.interrupt.line) < Rank(c, k)
  }

  ghost predicate Inv(h: History) {
    && Configured(h.p) && Coherent(h.p) && !Automatic(h.p)
    && !h.p.master.ctl.specialMask && !h.p.slave.ctl.specialMask
    && Stacked(h.p.master, h.master) && Stacked(h.p.slave, h.slave)
    && (!Frozen(h.p) ==> Outranks(h.p.master) && (h.p.board.at ==> Outranks(h.p.slave)))
  }

  // ---- one chip ----

  lemma RankDepends(c: Chip, d: Chip)
    requires c.reg.priority == d.reg.priority
    ensures forall j: Line :: Rank(c, j) == Rank(d, j)
  {
  }

  lemma SameStack(c: Chip, d: Chip, s: seq<Line>)
    requires Stacked(c, s) && d.reg.isr == c.reg.isr && d.reg.priority == c.reg.priority
    ensures Stacked(d, s)
  {
    RankDepends(c, d);
  }

  lemma SameOutranks(c: Chip, d: Chip)
    requires Outranks(c) && d.reg.isr == c.reg.isr && d.reg.priority == c.reg.priority
    requires d.out.intPending == c.out.intPending && d.out.interrupt == c.out.interrupt
    ensures Outranks(d)
  {
    RankDepends(c, d);
  }

  lemma PushStack(c: Chip, d: Chip, s: seq<Line>, j: Line)
    requires Stacked(c, s) && d.reg.isr == c.reg.isr + {j} && d.reg.priority == c.reg.priority
    requires forall k: Line :: k in c.reg.isr ==> Rank(c, j) < Rank(c, k)
    ensures Stacked(d, s + [j]) && j !in c.reg.isr
  {
    hide Rank;
    RankDepends(c, d);
    assert Rank(c, j) == Rank(c, j);
    forall k: Line ensures k in d.reg.isr <==> k in s + [j] {
    }
    forall a, b | 0 <= a < b < |s + [j]| ensures Rank(d, (s + [j])[b]) < Rank(d, (s + [j])[a]) {
      assert s[a] in s;
    }
  }

  /** The top of the stack is what a non-specific end of interrupt finds. */
  lemma TopRetires(c: Chip, s: seq<Line>)
    requires Stacked(c, s) && !c.ctl.specialMask
    ensures NonSpecific(c) == if s == [] then -1 else s[|s| - 1]
  {
    hide Rank, NonSpecific;
    NonSpecificRetires(c, if s == [] then 0 else s[|s| - 1]);
    if s == [] {
      assert forall k: Line :: k !in s;
    } else {
      var j := s[|s| - 1];
      forall k: Line | k in c.reg.isr ensures Rank(c, j) <= Rank(c, k) {
        var a :| 0 <= a < |s| && s[a] == k;
      }
      assert j in s;
      assert Retires(c, j);
    }
  }

  lemma PopStack(c: Chip, d: Chip, s: seq<Line>)
    requires s != [] && Stacked(c, s)
    requires d.reg.isr == c.reg.isr - {s[|s| - 1]} && d.reg.priority == c.reg.priority
    ensures Stacked(d, Pop(s)) && s[|s| - 1] in c.reg.isr
  {
    hide Rank;
    RankDepends(c, d);
    var j := s[|s| - 1];
    assert j in s;
    forall k: Line ensures k in d.reg.isr <==> k in Pop(s) {
      if k in c.reg.isr {
        var a :| 0 <= a < |s| && s[a] == k;
      }
      if k in Pop(s) {
        var a :| 0 <= a < |Pop(s)| && Pop(s)[a] == k;
        assert s[a] == k && Rank(c, j) < Rank(c, k);
      }
    }
  }

  // ---- one step ----

  /** Same registers as far as nesting is concerned. */
  predicate SameService(c: Chip, d: Chip) {
    && d.reg.isr == c.reg.isr && d.reg.priority == c.reg.priority
    && (!c.ctl.specialMask ==> !d.ctl.specialMask)
  }

  lemma BestOutranks(c: Chip)
    ensures Outranks(WithBest(c))
  {
    hide Rank, Requested, Best;
    var d := WithBest(c);
    RankDepends(c, d);
    if Best(c) != -1 {
      BestWins(c, Best(c));
    }
  }

  lemma UpdateNests(p: Pics)
    requires Configured(p)
    ensures var q := UpdatePending(p);
            && SameService(p.master, q.master) && SameService(p.slave, q.slave)
            && (!Frozen(p) ==> Outranks(q.master) && (p.board.at ==> Outranks(q.slave)))
  {
    hide Rank, Best, Wired, Bit, Cascaded, Outranks;
    BestOutranks(p.slave);
    BestOutranks(p.master);
    var s := WithBest(p.slave);
    var line := CascadeLine(s);
    var irr := if s.out.intPending then p.master.reg.irr + line else p.master.reg.irr - line;
    BestOutranks(p.master.(reg := p.master.reg.(irr := irr)));
  }

  lemma DriveNests(p: Pics, num: set<int>, up: bool)
    requires Configured(p)
    ensures var q := Drive(p, num, up); SameService(p.master, q.master) && SameService(p.slave, q.slave)
  {
    hide UpdatePending, Bit, Cascaded;
    var r := Pics(Request(p.master, LowLines(num), up), Request(p.slave, HighLines(num), up), p.board);
    FixedBoard(p, r);
    UpdateNests(r);
  }

  lemma LevelNests(p: Pics, num: set<int>, up: bool, was: bool)
    requires Configured(p)
    ensures var q := PicIntLevel(p, num, up, was); SameService(p.master, q.master) && SameService(p.slave, q.slave)
  {
    hide Counted, Touches, Reachable, Routed, TouchedLines, Drive, Bit, Cascaded;
    var n := Routed(p, num);
    var t := if was != up then LevelLines(p, n, up) else p;
    FixedBoard(p, t);
    DriveNests(t, Reachable(p, TouchedLines(p, n, up, was)), up);
  }

  lemma OtherNests(p: Pics, s: Step)
    requires Configured(p) && Nested(p, s) && !IsAck(s) && !s.Ocw2?
    ensures var q := Do(p, s); SameService(p.master, q.master) && SameService(p.slave, q.slave)
  {
    hide UpdatePending, Wired, Bit, Cascaded, Drive, PicIntLevel, Routed, Reachable, MaskOf;
    match s
    case Edge(num, up) => DriveNests(p, Reachable(p, Routed(p, num)), up);
    case Level(num, up, was) => LevelNests(p, num, up, was);
    case Imr(w, v) =>
      var c := OnBus(Get(p, w), v);
      var q := Put(p, w, c.(reg := c.reg.(imr := MaskOf(v))));
      FixedBoard(p, q);
      UpdateNests(q);
    case Ocw3(w, v) =>
    case Refresh => UpdateNests(p);
    case _ =>
  }

  lemma BitStep(v: nat, k: nat)
    ensures Bit(v, k) == if k == 0 then v % 2 == 1 else Bit(v / 2, k - 1)
  {
  }

  /** Bit `k` is bit `k - 5` of the value shifted right by five. */
  lemma Shifted(v: nat, k: nat)
    requires k >= 5
    ensures Bit(v, k) == Bit(v / 0x20, k - 5)
  {
    hide Bit;
    var a := v / 2;
    var b := a / 2;
    var c := b / 2;
    var d := c / 2;
    BitStep(v, k);
    BitStep(a, k - 1);
    BitStep(b, k - 2);
    BitStep(c, k - 3);
    BitStep(d, k - 4);
    assert d / 2 == v / 0x20;
  }

  lemma TopBits(v: Byte)
    ensures Bit(v, 5) <==> (v / 0x20) % 2 == 1
    ensures Bit(v, 6) <==> (v / 0x20 / 2) % 2 == 1
    ensures Bit(v, 7) <==> (v / 0x20 / 2 / 2) % 2 == 1
  {
    hide Bit;
    var t := v / 0x20;
    Shifted(v, 5);
    Shifted(v, 6);
    Shifted(v, 7);
    BitStep(t, 0);
    BitStep(t, 1);
    BitStep(t / 2, 0);
    BitStep(t, 2);
    BitStep(t / 2, 1);
    BitStep(t / 2 / 2, 0);
  }

  /** The commands allowed here retire the non-specific choice or nothing. */
  lemma CommandNests(p: Pics, w: Which, v: Byte)
    requires Configured(p) && (NonSpecificEoi(v) || Harmless(v))
    ensures var q := WriteOcw2(p, w, v);
            var c, d, j := Get(p, w), Get(q, w), NonSpecific(Get(p, w));
            && d.reg.isr == (if NonSpecificEoi(v) && j != -1 then c.reg.isr - {j} else c.reg.isr)
            && d.reg.priority == c.reg.priority && d.ctl.specialMask == c.ctl.specialMask
            && SameService(Get(p, Other(w)), Get(q, Other(w)))
  {
    hide UpdatePending, Wired, Bit, Cascaded, NonSpecific;
    TopBits(v);
    var c := OnBus(Get(p, w), v);
    var q := Put(p, w, c.(ctl := c.ctl.(ocw2 := v)));
    NonSpecificDepends(Get(p, w), Get(q, w));
    if Bit(v, 6) || Bit(v, 5) {
      var j := if Bit(v, 6) then v % 8 else NonSpecific(Get(q, w));
      if j != -1 {
        var r := Put(q, w, Get(q, w).(reg := ActionReg(Get(q, w).reg, j, Bit(v, 5), Bit(v, 7))));
        FixedBoard(p, r);
        UpdateMasks(r);
        UpdateNests(r);
      }
    }
  }

  function Other(w: Which): Which {
    if w == Master then Slave else Master
  }

  lemma UpdateMasks(p: Pics)
    ensures UpdatePending(p).master.ctl == p.master.ctl && UpdatePending(p).slave.ctl == p.slave.ctl
  {
    hide Best;
  }

  lemma NonSpecificDepends(c: Chip, d: Chip)
    requires c.reg == d.reg && c.ctl.specialMask == d.ctl.specialMask
    ensures NonSpecific(c) == NonSpecific(d)
  {
    NonSpecificFromDepends(c, d, 0);
  }

  lemma {:induction false} NonSpecificFromDepends(c: Chip, d: Chip, i: nat)
    requires c.reg == d.reg && c.ctl.specialMask == d.ctl.specialMask
    ensures NonSpecificFrom(c, i) == NonSpecificFrom(d, i)
    decreases 8 - i
  {
    if i < 8 {
      NonSpecificFromDepends(c, d, i + 1);
    }
  }

  // ---- the invariant ----

  lemma NestedAllowed(p: Pics, s: Step)
    requires Nested(p, s)
    ensures Allowed(p, s)
  {
    hide Bit;
  }

  lemma Framed(h: History, s: Step)
    requires Inv(h) && Nested(h.p, s)
    ensures var q := Do(h.p, s); Configured(q) && Coherent(q) && !Automatic(q)
  {
    hide Nested, Bit, Wired, Cascaded, Coherent, Rank, Outranks, Stacked, DoPlain;
    NestedAllowed(h.p, s);
    StepCoherent(h.p, s);
  }

  /** A refresh, or no change to what is offered, leaves the offers above the lines in service. */
  lemma OtherOutranks(p: Pics, s: Step)
    requires Configured(p) && Nested(p, s) && !IsAck(s) && Coherent(p)
    requires !Frozen(p) ==> Outranks(p.master) && (p.board.at ==> Outranks(p.slave))
    requires s.Ocw2? || (SameService(p.master, Do(p, s).master) && SameService(p.slave, Do(p, s).slave))
    ensures var q := Do(p, s); !Frozen(q) ==> Outranks(q.master) && (q.board.at ==> Outranks(q.slave))
  {
    hide UpdatePending, Do, Bit, Wired, Cascaded, Outranks, Settled, Midway, Coherent, Nested;
    NestedAllowed(p, s);
    var r, updated := OtherStep(p, s);
    if updated {
      FixedBoard(p, r);
      FrozenUpdate(r);
      UpdateNests(r);
    } else if !Frozen(p) {
      SameOutranks(p.master, r.master);
      if p.board.at {
        SameOutranks(p.slave, r.slave);
      }
    }
  }

  lemma OtherStepNests(h: History, s: Step)
    requires Inv(h) && Nested(h.p, s) && !IsAck(s) && !s.Ocw2?
    ensures Inv(Follow(h, s))
  {
    hide Do, Bit, Wired, Cascaded, Outranks, Coherent, Nested, Stacked, Automatic;
    Framed(h, s);
    OtherNests(h.p, s);
    OtherOutranks(h.p, s);
    var q := Do(h.p, s);
    SameStack(h.p.master, q.master, h.master);
    SameStack(h.p.slave, q.slave, h.slave);
  }

  lemma CommandStepNests(h: History, s: Step)
    requires Inv(h) && Nested(h.p, s) && s.Ocw2?
    ensures Inv(Follow(h, s))
  {
    hide Bit, Wired, Cascaded, Outranks, Coherent, Stacked, Automatic, NonSpecific, WriteOcw2;
    var w, v := s.chip, s.value;
    Framed(h, s);
    CommandNests(h.p, w, v);
    OtherOutranks(h.p, s);
    var q := Do(h.p, s);
    var st := if w == Master then h.master else h.slave;
    var other := if w == Master then h.slave else h.master;
    SameStack(Get(h.p, Other(w)), Get(q, Other(w)), other);
    TopRetires(Get(h.p, w), st);
    if NonSpecificEoi(v) && st != [] {
      PopStack(Get(h.p, w), Get(q, w), st);
    } else {
      SameStack(Get(h.p, w), Get(q, w), st);
    }
  }

  lemma FirstByteNests(h: History)
    requires Inv(h) && !Frozen(h.p) && h.p.master.out.intPending
    ensures var p, q := h.p, FirstCycle(h.p);
            var j, k := p.master.out.interrupt.line, p.slave.out.interrupt.line;
            && Stacked(q.master, h.master + [j])
            && Stacked(q.slave, if p.board.at && j == 2 then h.slave + [k] else h.slave)
            && q.master.ctl == p.master.ctl && q.slave.ctl == p.slave.ctl
            && j !in p.master.reg.isr && (p.board.at && j == 2 ==> k !in p.slave.reg.isr)
  {
    hide Bit, Wired, Cascaded, Stacked, Automatic, FirstCycle, LevelTriggered;
    FirstCycleState(h.p);
    var q := FirstCycle(h.p);
    PushStack(h.p.master, q.master, h.master, h.p.master.out.interrupt.line);
    if h.p.board.at && h.p.master.out.interrupt.line == 2 {
      PushStack(h.p.slave, q.slave, h.slave, h.p.slave.out.interrupt.line);
    }
  }

  lemma SecondByteNests(m: Pics, a: seq<Line>, b: seq<Line>)
    requires Configured(m) && Midway(m) && Frozen(m) && !Automatic(m)
    requires Stacked(m.master, a) && Stacked(m.slave, b)
    ensures var q := AckCycle(m);
            && Stacked(q.master, a) && Stacked(q.slave, b)
            && q.master.ctl == m.master.ctl && q.slave.ctl == m.slave.ctl
            && Outranks(q.master) && (q.board.at ==> Outranks(q.slave))
  {
    hide Bit, Wired, Cascaded, Stacked, Automatic, AckCycle, UpdatePending, Outranks;
    var r := SecondAck(m);
    FixedBoard(m, r);
    UpdateFixed(r);
    UpdateNests(r);
    UpdateMasks(r);
    SameStack(m.master, AckCycle(m).master, a);
    SameStack(m.slave, AckCycle(m).slave, b);
  }

  lemma AckStepNests(h: History, s: Step)
    requires Inv(h) && Nested(h.p, s) && IsAck(s)
    ensures Inv(Follow(h, s))
  {
    hide Bit, Wired, Cascaded, Stacked, Automatic, AckCycle, Outranks, FirstState;
    Framed(h, s);
    if Frozen(h.p) {
      MidwayBegin(h.p);
      SecondByteNests(h.p, h.master, h.slave);
    } else {
      FirstCycleState(h.p);
      FirstByteNests(h);
      if s.AckWhole? {
        AutomaticFixed(h.p, FirstCycle(h.p));
        SecondByteNests(FirstCycle(h.p), Follow(h, s).master, Follow(h, s).slave);
      }
    }
  }

  lemma AutomaticFixed(p: Pics, q: Pics)
    requires Fixed(p, q)
    ensures Automatic(p) == Automatic(q)
  {
  }

  // ---- runs ----

  function Track(h: History, steps: seq<Step>): (t: History)
    requires Wired(h.p)
    ensures Wired(t.p)
  {
    if steps == [] then h else Follow(Track(h, steps[..|steps| - 1]), steps[|steps| - 1])
  }

  predicate NestedRun(h: History, steps: seq<Step>)
    requires Wired(h.p)
  {
    steps == [] ||
    (NestedRun(h, steps[..|steps| - 1]) && Nested(Track(h, steps[..|steps| - 1]).p, steps[|steps| - 1]))
  }

  /** Initialised for fully nested operation with nothing in service. */
  predicate Clean(p: Pics) {
    && Ready(p) && !Automatic(p) && !p.master.ctl.specialMask && !p.slave.ctl.specialMask
    && p.master.reg.isr == {} && p.slave.reg.isr == {}
  }

  lemma {:induction false} RunNests(h: History, steps: seq<Step>)
    requires Inv(h) && NestedRun(h, steps)
    ensures Inv(Track(h, steps))
  {
    hide Bit, Cascaded, Coherent, Outranks, Stacked, Automatic, Nested, Follow;
    if steps != [] {
      var t, s := Track(h, steps[..|steps| - 1]), steps[|steps| - 1];
      RunNests(h, steps[..|steps| - 1]);
      if IsAck(s) {
        AckStepNests(t, s);
      } else if s.Ocw2? {
        CommandStepNests(t, s);
      } else {
        OtherStepNests(t, s);
      }
    }
  }

  /**
   After any run the in-service register of each chip holds exactly the acknowledged and not yet retired
   lines, in strictly increasing priority from the oldest to the newest.
   */
  lemma InServiceIsStack(p: Pics, steps: seq<Step>)
    requires Clean(p) && NestedRun(History(p, [], []), steps)
    ensures var t := Track(History(p, [], []), steps);
            Inv(t) && Stacked(t.p.master, t.master) && Stacked(t.p.slave, t.slave)
  {
    hide Bit, Wired, Cascaded, Coherent, Automatic;
    StartCoherent(p);
    RunNests(History(p, [], []), steps);
  }

  lemma StartCoherent(p: Pics)
    requires Ready(p)
    ensures Coherent(p)
  {
  }

  /** Every acknowledge, in one piece or by its first byte, adds a line above everything already in service. */
  lemma AcknowledgeNests(p: Pics, steps: seq<Step>, s: Step)
    requires Clean(p) && NestedRun(History(p, [], []), steps)
    requires var t := Track(History(p, [], []), steps); IsAck(s) && Nested(t.p, s) && !Frozen(t.p)
    ensures var t := Track(History(p, [], []), steps);
            var q, j, k, c := Do(t.p, s), t.p.master.out.interrupt.line, t.p.slave.out.interrupt.line, t.p.board.at;
            && j !in t.p.master.reg.isr && q.master.reg.isr == t.p.master.reg.isr + {j}
            && (forall i: Line :: i in t.p.master.reg.isr ==> Rank(t.p.master, j) < Rank(t.p.master, i))
            && (c && j == 2 ==> k !in t.p.slave.reg.isr && q.slave.reg.isr == t.p.slave.reg.isr + {k})
            && (c && j == 2 ==> forall i: Line :: i in t.p.slave.reg.isr ==> Rank(t.p.slave, k) < Rank(t.p.slave, i))
            && (!(c && j == 2) ==> q.slave.reg.isr == t.p.slave.reg.isr)
  {
    hide Bit, Wired, Cascaded, Automatic, Rank, Track, Do, AckCycle;
    InServiceIsStack(p, steps);
    var t := Track(History(p, [], []), steps);
    AckStepNests(t, s);
    FirstByteNests(t);
    var f := Follow(t, s);
    if t.p.board.at && t.p.master.out.interrupt.line == 2 {
      PendingSlave(t.p);
    }
    forall i: Line ensures i in f.p.master.reg.isr <==> i in t.master + [t.p.master.out.interrupt.line] {
    }
    forall i: Line ensures i in f.p.slave.reg.isr <==> i in f.slave {
    }
  }

  lemma PendingSlave(p: Pics)
    requires Configured(p) && Coherent(p) && !Frozen(p) && p.board.at
    requires p.master.out.intPending && p.master.out.interrupt.line == 2
    ensures p.slave.out.intPending
  {
  }

  /** A non-specific end of interrupt always retires the most recently acknowledged line of its chip. */
  lemma EoiRetiresNewest(p: Pics, steps: seq<Step>, w: Which, v: Byte)
    requires Clean(p) && NestedRun(History(p, [], []), steps) && NonSpecificEoi(v)
    ensures var t := Track(History(p, [], []), steps);
            var st := if w == Master then t.master else t.slave;
            Get(WriteOcw2(t.p, w, v), w).reg.isr ==
              (if st == [] then {} else Get(t.p, w).reg.isr - {st[|st| - 1]})
  {
    hide Bit, Wired, Cascaded, Automatic, Rank, Track, WriteOcw2, NonSpecific;
    InServiceIsStack(p, steps);
    var t := Track(History(p, [], []), steps);
    var st := if w == Master then t.master else t.slave;
    CommandNests(t.p, w, v);
    TopRetires(Get(t.p, w), st);
  }
}
