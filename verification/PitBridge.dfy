/**
 The bridge of src/pit.c between the pin-clocked core and the rest of the machine: a timer toggles the
 clock every half period, a falling edge ticks the core, and OUT changes are reported to a callback.
 */
module PitBridge {
  import opened Bits
  import opened Remainders
  import opened PitExact
  import opened PitCounting
  import opened PitPeriodic
  import D = PitDevice

  /** The count register and its two back-up copies. */
  datatype Loaded = Loaded(l: Word, lback: Word, lback2: Word)

  /** The public copy of a counter's state (`ctr_t`). */
  datatype Counter = Counter(
    ctrl: Byte, m: Mode, bcd: bool, l: Loaded, count: Count, nullCount: bool, gate: bool, state: State,
    rm: Byte, wm: Byte, rl: Word, latched: Byte, readStatus: Byte, doReadStatus: bool, incomplete: bool,
    out: bool, clock: bool, usingTimer: bool)

  /** One call of the OUT handler. */
  datatype Report = Report(newOut: bool, oldOut: bool)

  predicate Rising(r: Report) {
    r.newOut && !r.oldOut
  }

  /** The public copy that belongs to a core channel. */
  function Mirror(x: Channel, k: Counter): Counter {
    Counter(x.cfg.control, x.cfg.mode, x.cfg.bcd,
            Loaded(x.flags.countRegister, x.flags.countRegister, x.flags.countRegister), x.core.ce, x.flags.nullCount, x.gate,
            x.core.state,
            x.cfg.rwMode % 0x80 + (if x.bus.readPhase != 0 then 0x80 else 0),
            x.cfg.rwMode % 0x80 + (if x.bus.writePhase != 0 then 0x80 else 0),
            x.bus.outputLatch,
            if !x.bus.countLatched then 0 else if x.cfg.rwMode == 3 && x.bus.readPhase == 0 then 2 else 1,
            x.bus.statusLatch, x.bus.statusLatched, x.flags.incompleteReload,
            x.core.output, k.clock, k.usingTimer)
  }

  /** One call of the load handler: the mode and the effective divisor. */
  datatype Notice = Notice(mode: Mode, count: nat)

  /** A core channel, its public copy and the calls made so far. */
  datatype Line = Line(x: Channel, k: Counter, reports: seq<Report>, loads: seq<Notice>)

  function Sync(s: Line): Line {
    Line(s.x, Mirror(s.x, s.k),
         if s.k.out != s.x.core.output then s.reports + [Report(s.x.core.output, s.k.out)] else s.reports, s.loads)
  }

  function ClockEdge(s: Line, clock: bool): Line {
    var t := s.(k := s.k.(clock := clock));
    if s.k.usingTimer && s.k.clock && !clock then Sync(t.(x := Tick(s.x))) else t
  }

  ghost predicate Synced(s: Line) {
    s.k.usingTimer && s.k.out == s.x.core.output
  }

  /** The divisor a BCD register stands for, as the load handler is told it. */
  function BcdCount(value: Word): nat {
    if value == 0 then 10000
    else (value / 0x1000) % 0x10 * 1000 + (value / 0x100) % 0x10 * 100 + (value / 0x10) % 0x10 * 10 + value % 0x10
  }

  function NoticeOf(x: Channel): Notice {
    Notice(x.cfg.mode, if x.cfg.bcd then BcdCount(x.flags.countRegister) else ReloadValue(x.flags.countRegister))
  }

  /** The load handler is told the divisor the counter uses. */
  lemma NoticeIsDivisor(x: Channel)
    ensures NoticeOf(x).count == N(x)
  {
  }

  /** What can reach counter `i` through the bridge. */
  datatype Call =
    | Level(high: bool)    // its clock pin
    | Direct               // a clock from a caller that counts for itself
    | Control(value: Byte)
    | Data(value: Byte)
    | Gate(high: bool)
    | Read

  function Reach(s: Line, chip: ChipType, i: nat, a: Call): Line {
    match a
    case Level(high) => ClockEdge(s, high)
    case Direct => if s.k.usingTimer then s else Sync(s.(x := Tick(s.x)))
    case Control(value) => Sync(s.(x := ControlChannel(chip, s.x, i, value)))
    case Data(value) =>
      var t := Sync(s.(x := DataWrite(s.x, value)));
      if CompletesCount(s.x) then t.(loads := t.loads + [NoticeOf(t.x)]) else t
    case Gate(high) => Sync(s.(x := SetGate(s.x, high)))
    case Read => Sync(s.(x := s.x.(bus := DataRead(s.x).bus)))
  }

  function ReachAll(s: Line, chip: ChipType, i: nat, es: seq<Call>): Line {
    if es == [] then s else Reach(ReachAll(s, chip, i, es[..|es| - 1]), chip, i, es[|es| - 1])
  }

  /** The core alone under the same accesses, with the level of its clock pin. */
  datatype Pinned = Pinned(x: Channel, clock: bool)

  function Drive(p: Pinned, usingTimer: bool, chip: ChipType, i: nat, a: Call): Pinned {
    match a
    case Level(high) => Pinned(if usingTimer && p.clock && !high then Tick(p.x) else p.x, high)
    case Direct => if usingTimer then p else p.(x := Tick(p.x))
    case Control(value) => p.(x := ControlChannel(chip, p.x, i, value))
    case Data(value) => p.(x := DataWrite(p.x, value))
    case Gate(high) => p.(x := SetGate(p.x, high))
    case Read => p.(x := p.x.(bus := DataRead(p.x).bus))
  }

  function DriveAll(p: Pinned, usingTimer: bool, chip: ChipType, i: nat, es: seq<Call>): Pinned {
    if es == [] then p else Drive(DriveAll(p, usingTimer, chip, i, es[..|es| - 1]), usingTimer, chip, i, es[|es| - 1])
  }

  /** The OUT changes of the core over a run of accesses. */
  function Changes(p: Pinned, usingTimer: bool, chip: ChipType, i: nat, es: seq<Call>): seq<Report> {
    if es == [] then []
    else
      var before := DriveAll(p, usingTimer, chip, i, es[..|es| - 1]).x.core.output;
      var after := DriveAll(p, usingTimer, chip, i, es).x.core.output;
      Changes(p, usingTimer, chip, i, es[..|es| - 1]) + (if before != after then [Report(after, before)] else [])
  }

  lemma SyncFacts(s: Line)
    ensures var t := Sync(s);
            && t.x == s.x && t.k.out == s.x.core.output && t.k.clock == s.k.clock && t.k.usingTimer == s.k.usingTimer
            && t.reports == s.reports + if s.k.out != s.x.core.output then [Report(s.x.core.output, s.k.out)] else []
  {
  }

  /** `t` is what an access that leaves the core at `x` and its clock pin at `clock` makes of `s`. */
  ghost predicate Reported(s: Line, x: Channel, clock: bool, t: Line) {
    && t.x == x && t.k.out == x.core.output && t.k.clock == clock && t.k.usingTimer == s.k.usingTimer
    && t.reports == s.reports + if x.core.output != s.x.core.output then [Report(x.core.output, s.x.core.output)] else []
  }

  lemma SyncReports(s: Line, x: Channel, clock: bool)
    requires s.k.out == s.x.core.output
    ensures Reported(s, x, clock, Sync(Line(x, s.k.(clock := clock), s.reports, s.loads)))
  {
    hide Mirror;
    SyncFacts(Line(x, s.k.(clock := clock), s.reports, s.loads));
  }

  lemma ReachReports(s: Line, chip: ChipType, i: nat, a: Call)
    requires s.k.out == s.x.core.output
    ensures var p := Drive(Pinned(s.x, s.k.clock), s.k.usingTimer, chip, i, a);
            Reported(s, p.x, p.clock, Reach(s, chip, i, a))
  {
    hide Tick, ControlChannel, DataWrite, SetGate, DataRead, NoticeOf, CompletesCount, Sync, Mirror;
    var p := Drive(Pinned(s.x, s.k.clock), s.k.usingTimer, chip, i, a);
    SyncReports(s, p.x, p.clock);
    assert s.k.(clock := s.k.clock) == s.k;
  }

  /**
   Through clocks, control words, count bytes, GATE edges and reads in any order the core runs as it would alone, and
   the OUT handler is called exactly for its OUT changes, each once, with the new and the old level.
   */
  lemma {:induction false} BridgeReports(s: Line, chip: ChipType, i: nat, es: seq<Call>)
    requires s.k.out == s.x.core.output
    ensures var t, p := ReachAll(s, chip, i, es), Pinned(s.x, s.k.clock);
            && t.k.out == t.x.core.output && t.k.usingTimer == s.k.usingTimer
            && Pinned(t.x, t.k.clock) == DriveAll(p, s.k.usingTimer, chip, i, es)
            && t.reports == s.reports + Changes(p, s.k.usingTimer, chip, i, es)
  {
    hide Reach, Drive;
    if es != [] {
      BridgeReports(s, chip, i, es[..|es| - 1]);
      ReachReports(ReachAll(s, chip, i, es[..|es| - 1]), chip, i, es[|es| - 1]);
    }
  }

  class Bridge {
    const exact: D.PitDevice
    const pitConst: nat
    var clock: bool
    var deadline: nat
    var counters: seq<Counter>
    /** Every call of each counter's OUT handler and load handler, in order. */
    ghost var reports: seq<seq<Report>>
    ghost var loads: seq<seq<Notice>>

    constructor (chip: ChipType, pitConst: nat, now: nat)
      ensures Valid() && fresh(exact) && fresh(exact.channel) && !clock && deadline == now + pitConst / 2
      ensures this.pitConst == pitConst
      ensures forall i :: 0 <= i < 3 ==>
                View(i) == Line(ResetChannel(chip), Mirror(ResetChannel(chip), counters[i]), [], []) && Synced(View(i))
    {
      exact := new D.PitDevice(chip);
      this.pitConst := pitConst;
      clock, deadline := false, now + pitConst / 2;
      var x := ResetChannel(chip);
      var k := Counter(0, 0, false, Loaded(0, 0, 0), 0, true, false, WaitCount, 1, 1, 0, 0, 0, false, false, false, false, true);
      counters := [k, k, k];
      reports, loads := [[], [], []], [[], [], []];
    }

    ghost predicate Valid()
      reads this
    {
      exact.Valid() && |counters| == 3 && |reports| == 3 && |loads| == 3
    }

    ghost function View(i: nat): Line
      requires Valid() && i < 3
      reads this, exact.channel[i]
    {
      Line(exact.channel[i].View(), counters[i], reports[i], loads[i])
    }

    method SetOut(i: nat, out: bool)
      requires Valid() && i < 3
      modifies this`counters, this`reports
      ensures Valid()
      ensures counters == old(counters)[i := old(counters)[i].(out := out)]
      ensures reports == old(reports)[i := old(reports)[i] + [Report(out, old(counters)[i].out)]]
    {
      reports := reports[i := reports[i] + [Report(out, counters[i].out)]];
      counters := counters[i := counters[i].(out := out)];
    }

    method SyncChannel(i: nat)
      requires Valid() && i < 3
      modifies this`counters, this`reports
      ensures Valid()
      ensures View(i) == Sync(old(View(i)))
      ensures forall j :: 0 <= j < 3 && j != i ==> View(j) == old(View(j))
    {
      var x := exact.channel[i].View();
      var newOut := x.core.output;
      var oldOut := counters[i].out;
      counters := counters[i := Mirror(x, counters[i]).(out := oldOut)];
      if oldOut != newOut {
        SetOut(i, newOut);
      }
    }

    method CtrTick(i: nat)
      requires Valid() && i < 3
      modifies this`counters, this`reports, exact.channel[i]
      ensures Valid()
      ensures View(i) == Sync(old(View(i)).(x := Tick(old(View(i)).x)))
      ensures forall j :: 0 <= j < 3 && j != i ==> View(j) == old(View(j))
    {
      exact.channel[i].TickChannel();
      SyncChannel(i);
    }

    method SetClockCommon(i: nat, level: bool)
      requires Valid() && i < 3
      modifies this`counters, this`reports, exact.channel[i]
      ensures Valid()
      ensures View(i) == ClockEdge(old(View(i)), level)
      ensures forall j :: 0 <= j < 3 && j != i ==> View(j) == old(View(j))
    {
      var was := counters[i].clock;
      counters := counters[i := counters[i].(clock := level)];
      if counters[i].usingTimer && was && !level {
        CtrTick(i);
      }
    }

    /** The half-period timer callback. */
    method TimerOver()
      requires Valid()
      modifies this, exact.channel
      ensures Valid() && clock == !old(clock) && deadline == old(deadline) + pitConst / 2
      ensures forall i :: 0 <= i < 3 ==> View(i) == ClockEdge(old(View(i)), clock)
    {
      clock := !clock;
      for i := 0 to 3
        invariant Valid() && clock == !old(clock) && deadline == old(deadline)
        invariant forall j :: 0 <= j < i ==> View(j) == ClockEdge(old(View(j)), clock)
        invariant forall j :: i <= j < 3 ==> View(j) == old(View(j))
      {
        SetClockCommon(i, clock);
      }
      deadline := deadline + pitConst / 2;
    }

    /** A clock from a caller that counts for itself. */
    method CtrClock(i: nat)
      requires Valid() && i < 3
      modifies this`counters, this`reports, exact.channel[i]
      ensures Valid()
      ensures View(i) == Reach(old(View(i)), exact.chip, i, Direct)
      ensures forall j :: 0 <= j < 3 && j != i ==> View(j) == old(View(j))
    {
      if counters[i].usingTimer {
        return;
      }
      CtrTick(i);
    }

    method SetGateLevel(i: nat, high: bool)
      requires Valid() && i < 3
      modifies this`counters, this`reports, exact.channel[i]
      ensures Valid()
      ensures View(i) == Reach(old(View(i)), exact.chip, i, Call.Gate(high))
      ensures forall j :: 0 <= j < 3 && j != i ==> View(j) == old(View(j))
    {
      exact.channel[i].ChangeGate(high);
      SyncChannel(i);
    }

    ghost method LogLoad(i: nat)
      requires Valid() && i < 3
      modifies this`loads
      ensures Valid()
      ensures View(i) == old(View(i)).(loads := old(View(i)).loads + [NoticeOf(old(View(i)).x)])
      ensures forall j :: 0 <= j < 3 && j != i ==> View(j) == old(View(j))
    {
      hide NoticeOf;
      loads := loads[i := loads[i] + [NoticeOf(exact.channel[i].View())]];
    }

    /** A count byte; a completed count is passed on to the load handler. */
    method WriteData(i: nat, value: Byte)
      requires Valid() && i < 3
      modifies this`counters, this`reports, this`loads, exact.channel[i]
      ensures Valid()
      ensures View(i) == Reach(old(View(i)), exact.chip, i, Data(value))
      ensures forall j :: 0 <= j < 3 && j != i ==> View(j) == old(View(j))
    {
      hide DataWrite, NoticeOf, Sync;
      var completes := CompletesCount(exact.channel[i].View());
      exact.channel[i].WriteData(value);
      SyncChannel(i);
      if completes {
        LogLoad(i);
      }
    }

    method ReadData(i: nat) returns (value: Byte)
      requires Valid() && i < 3
      modifies this`counters, this`reports, exact.channel[i]
      ensures Valid() && value == DataRead(old(View(i)).x).value
      ensures View(i) == Reach(old(View(i)), exact.chip, i, Read)
      ensures forall j :: 0 <= j < 3 && j != i ==> View(j) == old(View(j))
    {
      value := exact.channel[i].ReadData();
      SyncChannel(i);
    }

    /** A control word reaches all three counters. */
    method WriteControl(value: Byte)
      requires Valid()
      modifies this`counters, this`reports, exact, exact.channel
      ensures Valid()
      ensures forall i :: 0 <= i < 3 ==> View(i) == Reach(old(View(i)), exact.chip, i, Control(value))
    {
      hide ControlChannel, Sync;
      exact.WriteControl(value);
      label written:
      ghost var lines := [View(0), View(1), View(2)];
      for i := 0 to 3
        invariant Valid()
        invariant forall j :: 0 <= j < i ==> View(j) == Sync(lines[j])
        invariant forall j :: i <= j < 3 ==> View(j) == lines[j]
      {
        SyncChannel(i);
      }
    }
  }

  /** `n` timer callbacks, the first one setting the clock to `level`. */
  function Callbacks(s: Line, level: bool, n: nat): Line {
    if n == 0 then s else ClockEdge(Callbacks(s, level, n - 1), if n % 2 == 1 then level else !level)
  }

  /** The OUT changes of `n` ticks. */
  function Edges(x: Channel, n: nat): seq<Report> {
    if n == 0 then []
    else
      var before, after := Ticks(x, n - 1).core.output, Ticks(x, n).core.output;
      Edges(x, n - 1) + (if before != after then [Report(after, before)] else [])
  }

  /** Two callbacks make one tick, and every OUT change is reported once, with its old and new level. */
  lemma {:induction false} ReportsAreEdges(s: Line, n: nat)
    requires Synced(s)
    ensures var t := Callbacks(s, !s.k.clock, 2 * n);
            && Synced(t) && t.x == Ticks(s.x, n) && t.k.clock == s.k.clock
            && t.reports == s.reports + Edges(s.x, n)
  {
    hide Tick, ClockEdge, Mirror;
    if n > 0 {
      ReportsAreEdges(s, n - 1);
      var t := Callbacks(s, !s.k.clock, 2 * n - 2);
      assert Callbacks(s, !s.k.clock, 2 * n - 1) == ClockEdge(t, !s.k.clock);
      TwoCallbacks(t);
    }
  }

  lemma TwoCallbacks(t: Line)
    requires Synced(t)
    ensures var u := ClockEdge(ClockEdge(t, !t.k.clock), t.k.clock);
            && Synced(u) && u.x == Tick(t.x) && u.k.clock == t.k.clock
            && u.reports == t.reports + if t.x.core.output != u.x.core.output
                                        then [Report(u.x.core.output, t.x.core.output)] else []
  {
    hide Tick;
  }

  function RisingCount(r: seq<Report>): nat {
    if r == [] then 0 else RisingCount(r[..|r| - 1]) + (if Rising(r[|r| - 1]) then 1 else 0)
  }

  lemma EdgeCount(x: Channel, n: nat)
    requires n > 0
    ensures RisingCount(Edges(x, n)) ==
            RisingCount(Edges(x, n - 1)) + if Ticks(x, n).core.output && !Ticks(x, n - 1).core.output then 1 else 0
  {
    hide Ticks;
    var before, after := Ticks(x, n - 1).core.output, Ticks(x, n).core.output;
    var r, e := Edges(x, n - 1), Report(after, before);
    if before != after {
      assert (r + [e])[..|r|] == r;
    } else {
      assert r + [] == r;
    }
  }

  lemma NextRound(n: nat, total: nat, rounds: nat, q: nat)
    requires q < n && total == n * rounds + q
    ensures total + 1 == n * (if q + 1 == n then rounds + 1 else rounds) + NextPhase(q, n)
  {
    assert n * (rounds + 1) == n * rounds + n;
  }

  lemma {:induction false} Mode2Rises(x: Channel, p: nat, n: nat) returns (q: nat)
    requires Mode2Phase(x, p)
    ensures Mode2Phase(Ticks(x, n), q) && N(Ticks(x, n)) == N(x)
    ensures p + n == N(x) * RisingCount(Edges(x, n)) + q
  {
    hide Number, Tick, Edges;
    if n == 0 {
      q := p;
      assert Edges(x, 0) == [] by { EdgesStart(x); }
    } else {
      var before := Mode2Rises(x, p, n - 1);
      Mode2Step(Ticks(x, n - 1), before);
      q := NextPhase(before, N(x));
      EdgeCount(x, n);
      NextRound(N(x), p + n - 1, RisingCount(Edges(x, n - 1)), before);
    }
  }

  lemma EdgesStart(x: Channel)
    ensures Edges(x, 0) == []
  {
  }

  lemma {:induction false} Mode3Rises(x: Channel, p: nat, n: nat) returns (q: nat)
    requires Mode3Phase(x, p)
    ensures Mode3Phase(Ticks(x, n), q) && N(Ticks(x, n)) == N(x)
    ensures p + n == N(x) * RisingCount(Edges(x, n)) + q
  {
    hide Number, Tick, Edges, Mode3Number;
    if n == 0 {
      q := p;
      assert Edges(x, 0) == [] by { EdgesStart(x); }
    } else {
      var before := Mode3Rises(x, p, n - 1);
      Mode3Step(Ticks(x, n - 1), before);
      q := NextPhase(before, N(x));
      EdgeCount(x, n);
      NextRound(N(x), p + n - 1, RisingCount(Edges(x, n - 1)), before);
    }
  }

  /**
   A running periodic counter, at whatever point of its period and whichever clock level: any 2 * N * j
   half-period callbacks report exactly j rising edges of OUT.
   */
  lemma OneRisePerPeriod(s: Line, p: nat, n: nat, j: nat)
    requires Synced(s) && (Mode2Phase(s.x, p) || Mode3Phase(s.x, p))
    requires n == N(s.x) * j
    ensures RisingCount(Callbacks(s.(reports := []), !s.k.clock, 2 * n).reports) == j
  {
    hide Number, Tick, Mode3Number, Callbacks, Edges;
    ReportsAreEdges(s.(reports := []), n);
    assert [] + Edges(s.x, n) == Edges(s.x, n);
    var q: nat;
    if Mode2Phase(s.x, p) {
      q := Mode2Rises(s.x, p, n);
    } else {
      q := Mode3Rises(s.x, p, n);
    }
    RemainderUnique(p + n, N(s.x), j, p);
    RemainderUnique(p + n, N(s.x), RisingCount(Edges(s.x, n)), q);
  }
}
