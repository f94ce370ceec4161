/**
 Shared level-triggered lines: whatever the devices and the processor do, the sharing counter of a line is
 the number of devices that assert it, and its request bit is up exactly when that number is positive.
 */
module PicLines {
  import opened Bits
  import opened PicSpec
  import opened PicSteps
  import opened PicCascade

  /** The pair and the `irq_state` of every device on the line. */
  datatype Shared = Shared(p: Pics, devices: seq<bool>)

  /** A device changes its state through the level API, or something else happens. */
  datatype Event = Device(who: nat, num: set<int>, up: bool) | Outside(step: Step)

  function Asserting(devices: seq<bool>): (n: nat)
    ensures n <= |devices|
  {
    if devices == [] then 0 else Asserting(devices[1..]) + (if devices[0] then 1 else 0)
  }

  /** The lines of a board: on two chips all but the cascade input, on one chip its eight. */
  predicate IsLine(b: Board, n: int) {
    if b.at then 0 <= n < 16 && n != 2 else 0 <= n < 8
  }

  /** A device on line `n` addresses it, perhaps among others; on an AT IRQ 9 may go by IRQ 2. Nothing else does. */
  predicate Permitted(s: Shared, n: int, e: Event) {
    match e
    case Device(d, num, _) => d < |s.devices| && n in Routed(s.p, num)
    case Outside(Edge(num, _)) => n !in Routed(s.p, num)
    case Outside(Level(num, _, _)) => n !in Routed(s.p, num)
    case Outside(step) => Allowed(s.p, step)
  }

  function Happen(s: Shared, e: Event): (t: Shared)
    requires Wired(s.p)
    ensures Wired(t.p) && t.p.board == s.p.board
  {
    match e
    case Outside(step) => s.(p := Do(s.p, step))
    case Device(d, num, up) =>
      if d < |s.devices| then
        Shared(Do(s.p, Level(num, up, s.devices[d])),
               s.devices[d := IrqStateAfter(s.p, num, up, s.devices[d])])
      else s
  }

  function RunAll(s: Shared, es: seq<Event>): (t: Shared)
    requires Wired(s.p)
    ensures Wired(t.p) && t.p.board == s.p.board
  {
    if es == [] then s else Happen(RunAll(s, es[..|es| - 1]), es[|es| - 1])
  }

  predicate PermittedRun(s: Shared, n: int, es: seq<Event>)
    requires Wired(s.p)
  {
    es == [] || (PermittedRun(s, n, es[..|es| - 1]) && Permitted(RunAll(s, es[..|es| - 1]), n, es[|es| - 1]))
  }

  /** The counter and the request bit tell how many devices assert the line. */
  predicate Faithful(s: Shared, n: int)
    requires Wired(s.p) && IsLine(s.p.board, n)
  {
    var c, b, k := ChipOf(s.p, n), n % 8, Asserting(s.devices);
    && LevelTriggered(s.p.board, c.icw, b)
    && c.lines[b] == k && (b in c.reg.irr <==> k > 0)
  }

  // ---- what leaves the line alone ----

  predicate SameLine(p: Pics, q: Pics, n: int)
    requires Wired(p) && Wired(q) && IsLine(p.board, n)
  {
    var c, d, b := ChipOf(p, n), ChipOf(q, n), n % 8;
    d.icw == c.icw && d.lines[b] == c.lines[b] && (b in d.reg.irr <==> b in c.reg.irr)
  }

  lemma UpdateLine(p: Pics, n: int)
    requires Configured(p) && IsLine(p.board, n)
    ensures Fixed(p, UpdatePending(p)) && Wired(UpdatePending(p)) && SameLine(p, UpdatePending(p), n)
  {
    hide Best, Bit, Cascaded;
  }

  lemma UpdateLines(p: Pics)
    ensures UpdatePending(p).master.lines == p.master.lines && UpdatePending(p).slave.lines == p.slave.lines
  {
    hide Best;
  }

  lemma DriveLine(p: Pics, num: set<int>, up: bool, n: int)
    requires Configured(p) && IsLine(p.board, n)
    ensures Fixed(p, Drive(p, num, up)) && Wired(Drive(p, num, up))
    ensures var c, d, b := ChipOf(p, n), ChipOf(Drive(p, num, up), n), n % 8;
            && d.icw == c.icw && d.lines == c.lines
            && (b in d.reg.irr <==> if n in num then up else b in c.reg.irr)
  {
    hide UpdatePending, Bit, Cascaded;
    if num != {} {
      var r := Pics(Request(p.master, LowLines(num), up), Request(p.slave, HighLines(num), up), p.board);
      FixedBoard(p, r);
      UpdateLine(r, n);
      UpdateLines(r);
    }
  }

  lemma MaskedLine(p: Pics, w: Which, v: Byte, n: int)
    requires Configured(p) && IsLine(p.board, n)
    ensures Fixed(p, WriteImr(p, w, v)) && Wired(WriteImr(p, w, v)) && SameLine(p, WriteImr(p, w, v), n)
  {
    hide UpdatePending, MaskOf, Bit, Cascaded;
    var c := OnBus(Get(p, w), v);
    var q := Put(p, w, c.(reg := c.reg.(imr := MaskOf(v))));
    FixedBoard(p, q);
    UpdateLine(q, n);
  }

  /** A change of one chip's registers other than its requests. */
  lemma PutLine(p: Pics, w: Which, c: Chip, n: int)
    requires Configured(p) && IsLine(p.board, n)
    requires c.icw == Get(p, w).icw && c.lines == Get(p, w).lines && c.reg.irr == Get(p, w).reg.irr
    ensures Fixed(p, Put(p, w, c)) && Wired(Put(p, w, c)) && SameLine(p, Put(p, w, c), n)
  {
    hide Bit, Cascaded;
    FixedBoard(p, Put(p, w, c));
  }

  lemma SameLineChain(p: Pics, q: Pics, r: Pics, n: int)
    requires Wired(p) && Wired(q) && Wired(r) && IsLine(p.board, n) && IsLine(q.board, n)
    requires SameLine(p, q, n) && SameLine(q, r, n)
    ensures SameLine(p, r, n)
  {
  }

  lemma CommandLine(p: Pics, w: Which, v: Byte, n: int)
    requires Configured(p) && IsLine(p.board, n)
    ensures Fixed(p, WriteOcw2(p, w, v)) && Wired(WriteOcw2(p, w, v)) && SameLine(p, WriteOcw2(p, w, v), n)
  {
    hide UpdatePending, Bit, Cascaded, NonSpecific, SameLine;
    var c := OnBus(Get(p, w), v);
    var d := c.(ctl := c.ctl.(ocw2 := v));
    var q := Put(p, w, d);
    PutLine(p, w, d, n);
    FixedBoard(p, q);
    if Bit(v, 6) || Bit(v, 5) {
      var j := if Bit(v, 6) then v % 8 else NonSpecific(Get(q, w));
      if j != -1 {
        var e := Get(q, w).(reg := ActionReg(Get(q, w).reg, j, Bit(v, 5), Bit(v, 7)));
        PutLine(q, w, e, n);
        FixedBoard(q, Put(q, w, e));
        UpdateLine(Put(q, w, e), n);
        SameLineChain(q, Put(q, w, e), WriteOcw2(p, w, v), n);
        SameLineChain(p, q, WriteOcw2(p, w, v), n);
      }
    } else {
      PutLine(p, w, d.(ctl := d.ctl.(autoEoiRotate := Bit(v, 7))), n);
    }
  }

  /** A level call on other lines: its counters and request bits are elsewhere. */
  lemma OtherLevelLine(p: Pics, num: set<int>, up: bool, was: bool, n: int)
    requires Configured(p) && IsLine(p.board, n) && n !in Routed(p, num)
    ensures Fixed(p, PicIntLevel(p, num, up, was)) && Wired(PicIntLevel(p, num, up, was))
    ensures SameLine(p, PicIntLevel(p, num, up, was), n)
  {
    hide Drive, Counted, Routed, Bit, Cascaded, Touches;
    var r := Routed(p, num);
    var q := if was != up then LevelLines(p, r, up) else p;
    FixedBoard(p, q);
    DriveLine(q, Reachable(p, TouchedLines(p, r, up, was)), up, n);
  }

  lemma OutsideLine(p: Pics, s: Step, n: int)
    requires Configured(p) && IsLine(p.board, n) && !IsAck(s)
    requires s.Edge? || s.Level? ==> n !in Routed(p, s.num)
    ensures SameLine(p, Do(p, s), n)
  {
    hide Drive, Routed, Bit, Cascaded, PicIntLevel, WriteImr, WriteOcw2, SameLine, Wired;
    match s
    case Edge(num, up) =>
      DriveLine(p, Reachable(p, Routed(p, num)), up, n);
      EdgeSame(p, num, up, n);
    case Level(num, up, was) => OtherLevelLine(p, num, up, was, n);
    case Imr(w, v) => MaskedLine(p, w, v, n);
    case Ocw2(w, v) => CommandLine(p, w, v, n);
    case Ocw3(w, v) => ModeLine(p, w, v, n);
    case Refresh => UpdateLine(p, n);
    case _ =>
  }

  lemma EdgeSame(p: Pics, num: set<int>, up: bool, n: int)
    requires Configured(p) && IsLine(p.board, n) && n !in Routed(p, num)
    ensures SameLine(p, Do(p, Edge(num, up)), n)
  {
    hide Drive, Routed, Bit, Cascaded;
    DriveLine(p, Reachable(p, Routed(p, num)), up, n);
  }

  lemma ModeLine(p: Pics, w: Which, v: Byte, n: int)
    requires Configured(p) && IsLine(p.board, n)
    ensures SameLine(p, Do(p, Ocw3(w, v)), n)
  {
    hide Bit, Cascaded;
  }

  // ---- acknowledges ----

  /** A level-triggered line whose request bit follows its counter keeps both when it is acknowledged. */
  predicate Steady(p: Pics, n: int)
    requires Wired(p) && IsLine(p.board, n)
  {
    var c, b := ChipOf(p, n), n % 8;
    LevelTriggered(p.board, c.icw, b) && (c.lines[b] == 0 ==> b !in c.reg.irr)
  }

  lemma FirstByteLine(p: Pics, b: Pics, n: int)
    requires Configured(p) && IsLine(p.board, n) && Steady(p, n) && Configured(b) && Begun(b)
    requires Fixed(p, b) && SameRequests(p, b)
    ensures Wired(AckCycle(b)) && SameLine(p, AckCycle(b), n)
  {
    hide Bit, Cascaded, AckCycle, LevelTriggered;
    FirstAck(b);
    AckCycleFixed(b);
    FixedWired(b, AckCycle(b));
  }

  lemma SecondByteLine(m: Pics, n: int)
    requires Configured(m) && IsLine(m.board, n) && Midway(m) && Frozen(m)
    ensures Wired(AckCycle(m)) && SameLine(m, AckCycle(m), n)
  {
    hide Bit, Cascaded, AckCycle, UpdatePending;
    var r := SecondAck(m);
    FixedBoard(m, r);
    UpdateLine(r, n);
  }

  lemma BeginSame(p: Pics)
    ensures SameRequests(p, BeginInterrupt(p)) && SameRequests(p, BeginAck(p))
  {
    hide SlaveOn;
  }

  lemma AckLine(p: Pics, s: Step, n: int)
    requires Configured(p) && Coherent(p) && IsLine(p.board, n) && Steady(p, n) && IsAck(s) && Allowed(p, s)
    ensures SameLine(p, Do(p, s), n)
  {
    hide Bit, Cascaded, AckCycle, UpdatePending, BeginInterrupt, BeginAck, Wired, LevelTriggered, FirstState;
    if Frozen(p) {
      MidwayBegin(p);
      SecondByteLine(p, n);
    } else {
      BeginsAck(p);
      SlaveOnIff(p);
      BeginFixed(p);
      BeginSame(p);
      FirstByteLine(p, BeginInterrupt(p), n);
      FirstByteLine(p, BeginAck(p), n);
      if s.AckWhole? {
        FirstAck(BeginInterrupt(p));
        FixedBoard(p, FirstCycle(p));
        SecondByteLine(FirstCycle(p), n);
      }
    }
  }

  // ---- the devices of the line ----

  lemma {:induction false} AssertingUpdate(devices: seq<bool>, d: nat, up: bool)
    requires d < |devices|
    ensures Asserting(devices[d := up]) == Asserting(devices) + (if up then 1 else 0) - (if devices[d] then 1 else 0)
    ensures devices[d] ==> Asserting(devices) > 0
    ensures !devices[d] ==> Asserting(devices) < |devices|
  {
    if d == 0 {
      assert devices[d := up][1..] == devices[1..];
    } else {
      assert devices[d := up][1..] == devices[1..][d - 1 := up];
      AssertingUpdate(devices[1..], d - 1, up);
    }
  }

  lemma DeviceTouches(p: Pics, num: set<int>, up: bool, was: bool, n: int)
    requires Configured(p) && IsLine(p.board, n) && n in Routed(p, num)
    requires LevelTriggered(p.board, ChipOf(p, n).icw, n % 8)
    ensures n in TouchedLines(p, Routed(p, num), up, was) <==>
              was != up && Counted(ChipOf(p, n).lines[n % 8], up) == if up then 1 else 0
    ensures n in Reachable(p, TouchedLines(p, Routed(p, num), up, was)) <==> n in TouchedLines(p, Routed(p, num), up, was)
  {
    hide Counted, Bit, Cascaded, Routed, LevelTriggered;
  }

  /** A device's own call moves the counter by its own change and the request bit by the first or last of them. */
  lemma DeviceLine(s: Shared, n: int, d: nat, num: set<int>, up: bool)
    requires Configured(s.p) && IsLine(s.p.board, n) && Faithful(s, n) && |s.devices| < LINES_MODULUS
    requires d < |s.devices| && n in Routed(s.p, num)
    ensures Faithful(Happen(s, Device(d, num, up)), n)
  {
    hide Drive, Routed, Bit, Cascaded, LevelTriggered, Touches, TouchedLines, Reachable;
    var p, was := s.p, s.devices[d];
    AssertingUpdate(s.devices, d, up);
    DeviceTouches(p, num, up, was, n);
    var q := if was != up then LevelLines(p, Routed(p, num), up) else p;
    FixedBoard(p, q);
    DriveLine(q, Reachable(p, TouchedLines(p, Routed(p, num), up, was)), up, n);
  }

  // ---- runs ----

  lemma HappenFaithful(s: Shared, n: int, e: Event)
    requires Configured(s.p) && Coherent(s.p) && IsLine(s.p.board, n) && Faithful(s, n) && |s.devices| < LINES_MODULUS
    requires Permitted(s, n, e)
    ensures var t := Happen(s, e); Configured(t.p) && Coherent(t.p) && Faithful(t, n) && |t.devices| == |s.devices|
  {
    hide Do, Routed, Bit, Cascaded, LevelTriggered, Settled, Midway;
    match e
    case Device(d, num, up) =>
      StepCoherent(s.p, Level(num, up, s.devices[d]));
      DeviceLine(s, n, d, num, up);
    case Outside(step) =>
      StepCoherent(s.p, step);
      if IsAck(step) {
        AckLine(s.p, step, n);
      } else {
        OutsideLine(s.p, step, n);
      }
  }

  /**
   Across requests, masks, acknowledges and ends of interrupt, on the line itself and on all others, the
   counter is the number of asserting devices and the request bit is up exactly when there is one.
   */
  lemma {:induction false} SharedLine(s: Shared, n: int, es: seq<Event>)
    requires Configured(s.p) && Coherent(s.p) && IsLine(s.p.board, n) && Faithful(s, n) && |s.devices| < LINES_MODULUS
    requires PermittedRun(s, n, es)
    ensures var t := RunAll(s, es); Configured(t.p) && Coherent(t.p) && Faithful(t, n) && |t.devices| == |s.devices|
  {
    hide Happen, Permitted, Bit, Cascaded, Settled, Midway, Faithful;
    if es != [] {
      SharedLine(s, n, es[..|es| - 1]);
      HappenFaithful(RunAll(s, es[..|es| - 1]), n, es[|es| - 1]);
    }
  }
}
