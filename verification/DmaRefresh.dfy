/**
 DRAM refresh on the XT: the PIT request latch in src/dma.c, the CPU's HOLD/DACK adapter in
 src/cpu/808x_marty_86box.c, and everything that can happen to the controller in between.
 */
module DmaRefresh {
  import opened Bits
  import opened PhysMem
  import opened DmaXt

  datatype Phase = Idle | Dreq | Hrq | HoldA | Operating

  /** The adapter's request level, hold and acknowledge pins; `req` also stands for the callback being armed. */
  datatype Adapter = Adapter(phase: Phase, req: bool, armed: bool, holda: bool, ack: bool, cycle: nat)

  /** `latched` and `dacks` count the edges that set the latch and the transfers that cleared it. */
  datatype Sys = Sys(x: Xt, queued: bool, scheduled: bool, a: Adapter, latched: nat, dacks: nat)

  // ---- the adapter's two entry points ----

  predicate Accepts(a: Adapter) {
    !a.req && !a.armed
  }

  function Request(a: Adapter): Adapter {
    a.(req := true, armed := true)
  }

  predicate Cancels(a: Adapter) {
    !a.ack && !a.holda && a.req && a.armed
  }

  function Cancel(a: Adapter): Adapter {
    a.(req := false, armed := false, phase := if a.phase == Dreq || a.phase == Hrq then Idle else a.phase)
  }

  // ---- the request latch ----

  predicate Serviceable(s: Sys) {
    s.queued && CanService(s.x, 0)
  }

  function TrySchedule(s: Sys): Sys {
    if !s.queued || s.scheduled || !CanService(s.x, 0) || !Accepts(s.a) then s
    else s.(scheduled := true, a := Request(s.a))
  }

  function Reconcile(s: Sys): Sys {
    var t := if s.scheduled && !Serviceable(s) && Cancels(s.a) then s.(scheduled := false, a := Cancel(s.a)) else s;
    if Serviceable(s) && !t.scheduled then TrySchedule(t) else t
  }

  function ReconcileIfQueued(s: Sys): Sys {
    if s.queued then Reconcile(s) else s
  }

  function DrqXt(x: Xt, c: Ch, up: bool): Xt {
    var y := x.(req := x.req.(drq := if up then x.req.drq + {c} else x.req.drq - {c}));
    if !up && c in x.req.demand then Release(y, c) else y
  }

  function SetDrq(s: Sys, c: Ch, up: bool): Sys {
    ReconcileIfQueued(s.(x := DrqXt(s.x, c, up)))
  }

  /** A PIT edge; while the latch is set it adds nothing. */
  function PitEdge(s: Sys): Sys {
    if !s.queued then SetDrq(s.(queued := true, latched := s.latched + 1), 0, true) else Reconcile(s)
  }

  /** The address-only transfer at DACK0. */
  function RefreshXt(x: Xt): Xt {
    var y := if 0 in x.stat.pend then Finish(Settle(x, 0), 0) else x;
    Finish(Settle(Serve(y, 0), 0), 0)
  }

  function Dack(s: Sys): Sys {
    SetDrq(s.(x := RefreshXt(s.x), queued := false, scheduled := false, dacks := s.dacks + 1), 0, false)
  }

  // ---- one CPU clock of the adapter ----

  function Tick(s: Sys, grant: bool, ready: bool): Sys {
    var a := s.a;
    match a.phase
    case Idle => if a.req then s.(a := a.(phase := Dreq)) else s
    case Dreq => s.(a := a.(phase := Hrq))
    case Hrq => if grant then s.(a := a.(holda := true, phase := HoldA)) else s
    case HoldA => if ready then s.(a := a.(cycle := 0, phase := Operating)) else s
    case Operating =>
      var b := a.(cycle := a.cycle + 1);
      if b.cycle == 2 then
        var t := s.(a := b.(req := false, ack := true, armed := false));
        if a.armed then Dack(t) else t
      else if b.cycle == 4 then s.(a := b.(holda := false))
      else if b.cycle == 5 then s.(a := b.(ack := false, cycle := 0, phase := Idle))
      else s.(a := b)
  }

  // ---- transfers ----

  function Advance(s: Sys, c: Ch): Sys {
    var t := if c in s.x.stat.pend then s.(x := Finish(Settle(s.x, c), c)) else s;
    if c != 0 then ReconcileIfQueued(t) else t
  }

  /** A transfer whose bookkeeping is left to `Advance`. */
  function ReadOnly(s: Sys, c: Ch): (Sys, Outcome) {
    var k := KindOf(Get(s.x, c).mode);
    if !CanService(s.x, c) || (k != ReadMem && k != Verify) then (s, NoData)
    else
      var t := if c in s.x.stat.pend then Advance(s, c) else s;
      var y := Serve(t.x, c);
      (t.(x := y.(stat := y.stat.(pend := y.stat.pend + {c}))), Moved(Get(t.x, c).ac, k == Verify, false))
  }

  function Complete(s: Sys, c: Ch, y: Xt, verify: bool): (Sys, Outcome) {
    var t := s.(x := Finish(y, c));
    (if c != 0 then ReconcileIfQueued(t) else t, Moved(Get(s.x, c).ac, verify, Terminal(y, c)))
  }

  function Read(s0: Sys, c: Ch): (Sys, Outcome) {
    var s := if c in s0.x.stat.pend then Advance(s0, c) else s0;
    var k := KindOf(Get(s.x, c).mode);
    if !CanService(s.x, c) || (k != ReadMem && k != Verify) then (s, NoData)
    else Complete(s, c, Serve(s.x, c), k == Verify)
  }

  function Write(s: Sys, c: Ch): (Sys, Outcome) {
    var k := KindOf(Get(s.x, c).mode);
    if !CanService(s.x, c) || (k != WriteMem && k != Verify) then (s, NoData)
    else Complete(s, c, Settle(Serve(s.x, c), c), k == Verify)
  }

  /** What a read returns to the device, given memory. */
  function ReadValue(s: Sys, c: Ch, m: seq<Byte>): int {
    match Read(s, c).1
    case NoData => DMA_NODATA
    case Moved(a, verify, tc) => (if verify then DMA_VERIFY else At(m, a)) + (if tc then DMA_OVER else 0)
  }

  function PeekValue(s: Sys, c: Ch, m: seq<Byte>): int {
    match ReadOnly(s, c).1
    case NoData => DMA_NODATA
    case Moved(a, verify, _) => if verify then DMA_VERIFY else At(m, a)
  }

  function WriteValue(s: Sys, c: Ch): int {
    match Write(s, c).1
    case NoData => DMA_NODATA
    case Moved(_, _, tc) => if tc then DMA_OVER else 0
  }

  /** Memory after a device has written `v`. */
  function Written(s: Sys, c: Ch, v: Byte, m: seq<Byte>): (r: seq<Byte>)
    ensures |r| == |m|
  {
    match Write(s, c).1
    case Moved(a, false, _) => With(m, a, v)
    case _ => m
  }

  // ---- software requests ----

  /** One byte of a memory-to-memory transfer. */
  function CopyAdvance(x: Xt): Xt {
    AdvanceAddress(if Bit(x.ctl.command, 1) then x else AdvanceAddress(x, 0), 1)
  }

  predicate CopyEnds(x: Xt) {
    x.c1.cc - 1 < 0 || 1 in x.req.eop
  }

  function CopyFinish(x: Xt): Xt {
    if !CopyEnds(x) then x.(c1 := x.c1.(cc := x.c1.cc - 1))
    else
      var y := x.(req := x.req.(eop := x.req.eop - {1}, sw := x.req.sw - {0}), stat := x.stat.(tc := x.stat.tc + {1}));
      var z := if AutoInit(x.c1.mode) then y.(c1 := x.c1.(cc := x.c1.cb, ac := x.c1.ab), c0 := x.c0.(ac := x.c0.ab))
               else y.(c1 := x.c1.(cc := x.c1.cc - 1), ctl := x.ctl.(mask := x.ctl.mask + {1}));
      Release(z, 0)
  }

  predicate CopyGoesOn(x: Xt, y: Xt) {
    !CopyEnds(x) && ServiceMode(y.c0.mode) == Block && CanService(y, 0)
  }

  function CopyByte(x: Xt): Xt {
    CopyFinish(CopyAdvance(x))
  }

  function Remaining(x: Xt): nat {
    if x.c1.cc < 0 then 0 else x.c1.cc + 1
  }

  function CopyLoop(x: Xt): Xt
    decreases Remaining(x)
  {
    var y := CopyByte(x);
    if CopyGoesOn(CopyAdvance(x), y) then CopyLoop(y) else y
  }

  predicate CopyStarts(x: Xt) {
    Bit(x.ctl.command, 0) && CanService(x, 0)
  }

  function CopyStart(x: Xt): Xt {
    Begin(x, 0)
  }

  function CopyStop(x: Xt): Xt {
    if ServiceMode(x.c0.mode) == Single then Release(x, 0) else x
  }

  function MemToMem(x: Xt): Xt {
    if CopyStarts(x) then CopyStop(CopyLoop(CopyStart(x))) else x
  }

  /** A block of `n` software-requested transfers. */
  function BlockTransfers(s: Sys, c: Ch, n: nat): Sys {
    if n == 0 then s
    else
      var t := BlockTransfers(s, c, n - 1);
      var m := Get(t.x, c).mode;
      if !Bit(m, 7) then t
      else if KindOf(m) == WriteMem then Write(t, c).0
      else if KindOf(m) == ReadMem then Read(t, c).0
      else t
  }

  predicate Copies(s: Sys, c: Ch, k: Kind) {
    Bit(Get(s.x, c).mode, 7) && KindOf(Get(s.x, c).mode) == k
  }

  /** Memory and the transfer buffer after a block of `n`. */
  function BlockMem(s: Sys, c: Ch, buffer: seq<Byte>, m: seq<Byte>, n: nat): (r: seq<Byte>)
    requires n <= |buffer|
    ensures |r| == |m|
  {
    if n == 0 then m
    else
      var t, p := BlockTransfers(s, c, n - 1), BlockMem(s, c, buffer, m, n - 1);
      if Copies(t, c, WriteMem) then Written(t, c, buffer[n - 1], p) else p
  }

  function BlockBuffer(s: Sys, c: Ch, buffer: seq<Byte>, m: seq<Byte>, n: nat): (r: seq<Byte>)
    requires n <= |buffer|
    ensures |r| == |buffer|
  {
    if n == 0 then buffer
    else
      var t, p := BlockTransfers(s, c, n - 1), BlockBuffer(s, c, buffer, m, n - 1);
      if Copies(t, c, ReadMem) then p[n - 1 := ReadValue(t, c, m) % 0x100] else p
  }

  function SetSoft(s: Sys, on: bool): Sys {
    s.(x := s.x.(ctl := s.x.ctl.(soft := on)))
  }

  /** Requests for a block: not the pair that starts a memory-to-memory copy. */
  predicate AsksBlock(s: Sys, v: Byte) {
    Bit(v, 2) && !(v % 4 == 0 && Bit(s.x.ctl.command, 0))
  }

  function SoftRequest(s: Sys, v: Byte): Sys {
    var c: Ch := v % 4;
    if Bit(v, 2) then
      var t := s.(x := s.x.(req := s.x.req.(sw := s.x.req.sw + {c})));
      if c == 0 && Bit(s.x.ctl.command, 0) then t.(x := MemToMem(t.x))
      else SetSoft(BlockTransfers(SetSoft(t, true), c, Get(s.x, c).cb + 1), false)
    else
      var y := s.x.(req := s.x.req.(sw := s.x.req.sw - {c}));
      s.(x := if c in s.x.req.demand then Release(y, c) else y)
  }

  /** A programming write. */
  function WriteReg(s: Sys, reg: nat, v: Byte): Sys {
    Reconcile(if reg == 9 then SoftRequest(s, v) else s.(x := Program(s.x, reg, v, s.queued)))
  }
}
