/**
 The refresh handshake over every interleaving: a scheduled refresh is always a latched one, the adapter
 holds at most one, every DACK consumes exactly one latched edge, and no serviceable edge is left behind.
 */
module DmaProtocol {
  import opened Bits
  import opened DmaXt
  import opened DmaRefresh

  datatype Step =
    | Edge
    | Drq(c: Ch, up: bool)
    | Eop(c: Ch, up: bool)
    | Reg(reg: nat, value: Byte)
    | StatusRead
    | ReadByte(c: Ch)
    | WriteByte(c: Ch)
    | PeekByte(c: Ch)
    | AdvanceByte(c: Ch)
    | Clock(grant: bool, ready: bool)

  /** Devices transfer on channels 1 to 3; a block request of 10000h transfers would not end. */
  predicate Permitted(s: Sys, e: Step) {
    match e
    case ReadByte(c) => c != 0
    case WriteByte(c) => c != 0
    case PeekByte(c) => c != 0
    case AdvanceByte(c) => c != 0
    case Reg(reg, v) => reg == 9 && AsksBlock(s, v) ==> Get(s.x, v % 4).cb < 0xffff
    case _ => true
  }

  function EopXt(x: Xt, c: Ch, up: bool): Xt {
    x.(req := x.req.(eop := if up then x.req.eop + {c} else x.req.eop - {c}))
  }

  function Do(s: Sys, e: Step): Sys {
    match e
    case Edge => PitEdge(s)
    case Drq(c, up) => SetDrq(s, c, up)
    case Eop(c, up) => s.(x := EopXt(s.x, c, up))
    case Reg(reg, v) => WriteReg(s, reg, v)
    case StatusRead => s.(x := s.x.(stat := s.x.stat.(tc := {})))
    case ReadByte(c) => Read(s, c).0
    case WriteByte(c) => Write(s, c).0
    case PeekByte(c) => ReadOnly(s, c).0
    case AdvanceByte(c) => Advance(s, c)
    case Clock(grant, ready) => Tick(s, grant, ready)
  }

  function Run(s: Sys, es: seq<Step>): Sys {
    if es == [] then s else Do(Run(s, es[..|es| - 1]), es[|es| - 1])
  }

  predicate PermittedRun(s: Sys, es: seq<Step>) {
    es == [] || (PermittedRun(s, es[..|es| - 1]) && Permitted(Run(s, es[..|es| - 1]), es[|es| - 1]))
  }

  // ---- the invariant ----

  /** The pins agree with the phase. */
  predicate Pins(a: Adapter) {
    match a.phase
    case Idle => !a.holda && !a.ack
    case Dreq => a.req && !a.holda && !a.ack
    case Hrq => a.req && !a.holda && !a.ack
    case HoldA => a.req && a.holda && !a.ack
    case Operating => a.cycle <= 4 && (a.cycle < 2 ==> a.req) && (a.ack <==> a.cycle >= 2) && (a.holda <==> a.cycle < 4)
  }

  /** One outstanding request at most, and it is the latched one. */
  predicate Matched(s: Sys) {
    && (s.scheduled ==> s.queued)
    && (s.a.req <==> s.scheduled) && (s.a.armed <==> s.scheduled)
    && s.latched == s.dacks + (if s.queued then 1 else 0)
    && Pins(s.a)
  }

  /** A latched edge that can be served is on its way. */
  predicate Prompt(s: Sys) {
    Serviceable(s) ==> s.scheduled
  }

  predicate Sound(s: Sys) {
    Matched(s) && Prompt(s)
  }

  predicate SameLatch(s: Sys, t: Sys) {
    t.queued == s.queued && t.latched == s.latched && t.dacks == s.dacks
  }

  lemma ReconcileSound(s: Sys)
    requires Matched(s)
    ensures Sound(Reconcile(s)) && SameLatch(s, Reconcile(s)) && Reconcile(s).x == s.x
    ensures Reconcile(s).scheduled ==> s.scheduled || Serviceable(s)
  {
    hide CanService;
  }

  lemma MaybeReconcileSound(s: Sys)
    requires Matched(s)
    ensures Sound(ReconcileIfQueued(s)) && SameLatch(s, ReconcileIfQueued(s)) && ReconcileIfQueued(s).x == s.x
  {
    hide CanService, Reconcile;
    ReconcileSound(s);
  }

  lemma AdvanceSound(s: Sys, c: Ch)
    requires Matched(s)
    ensures Matched(Advance(s, c)) && (c != 0 ==> Sound(Advance(s, c)))
  {
    hide CanService, ReconcileIfQueued, Finish, Settle;
    MaybeReconcileSound(if c in s.x.stat.pend then s.(x := Finish(Settle(s.x, c), c)) else s);
  }

  lemma TransferSound(s: Sys, c: Ch)
    requires Matched(s)
    ensures Matched(Read(s, c).0) && Matched(Write(s, c).0)
    ensures c != 0 && Prompt(s) ==> Sound(Read(s, c).0) && Sound(Write(s, c).0)
  {
    hide CanService, ReconcileIfQueued, Finish, Settle, Advance, Serve, KindOf, Terminal;
    AdvanceSound(s, c);
    var t := if c in s.x.stat.pend then Advance(s, c) else s;
    MaybeReconcileSound(t.(x := Finish(Serve(t.x, c), c)));
    MaybeReconcileSound(s.(x := Finish(Settle(Serve(s.x, c), c), c)));
  }

  lemma {:induction false} BlockMatched(s: Sys, c: Ch, n: nat)
    requires Matched(s)
    ensures Matched(BlockTransfers(s, c, n))
  {
    hide CanService, Read, Write, KindOf, Bit, Matched;
    if n > 0 {
      BlockMatched(s, c, n - 1);
      TransferSound(BlockTransfers(s, c, n - 1), c);
    }
  }

  lemma SoftMatched(s: Sys, v: Byte)
    requires Matched(s)
    ensures Matched(SoftRequest(s, v))
  {
    hide CanService, Bit, BlockTransfers, MemToMem, Release;
    var c: Ch := v % 4;
    var t := s.(x := s.x.(req := s.x.req.(sw := s.x.req.sw + {c})));
    BlockMatched(SetSoft(t, true), c, Get(s.x, c).cb + 1);
  }

  lemma RegSound(s: Sys, reg: nat, v: Byte)
    requires Matched(s)
    ensures Sound(WriteReg(s, reg, v))
  {
    hide CanService, SoftRequest, Program, Reconcile;
    SoftMatched(s, v);
    ReconcileSound(if reg == 9 then SoftRequest(s, v) else s.(x := Program(s.x, reg, v, s.queued)));
  }

  /** Giving the bus to another channel never makes refresh serviceable. */
  lemma ServeBlocks(x: Xt, c: Ch)
    requires c != 0 && CanService(Serve(x, c), 0)
    ensures CanService(x, 0)
  {
    hide Bit, StepAddress, ServiceMode, LowestFrom, RotatingFrom;
    var y := Serve(x, c);
    assert y.ctl == x.ctl && y.c0 == x.c0 && y.req.last == x.req.last;
    assert y.req.demand == x.req.demand || y.req.demand == x.req.demand + {c};
    assert y.req.block == x.req.block || y.req.block == x.req.block + {c};
    OwnerZero(x);
    OwnerZero(y);
    assert forall e: Ch :: e != c ==> (e in Live(x) <==> e in Live(y)) && (e in Owners(x) <==> e in Owners(y));
    if 0 in Live(y) * Owners(y) {
      assert 0 in Live(x) * Owners(x);
    } else if Live(y) * Owners(y) == {} {
      Unowned(x, y, c);
    }
  }

  /** Without an owner the new one is not live, so the live requests are the same. */
  lemma Unowned(x: Xt, y: Xt, c: Ch)
    requires Live(y) * Owners(y) == {} && Owners(x) <= Owners(y) && y.ctl == x.ctl
    requires forall e: Ch :: e != c ==> (e in Live(x) <==> e in Live(y))
    requires c in Owners(y) || Live(y) == Live(x)
    requires c in Live(x) ==> c in Live(y)
    ensures Live(x) == Live(y) && Live(x) * Owners(x) == {}
  {
    assert c in Owners(y) && c in Live(y) ==> c in Live(y) * Owners(y);
    assert Live(x) * Owners(x) <= Live(y) * Owners(y);
  }

  function Live(x: Xt): set<Ch> {
    Requests(x) * x.ctl.enabled - x.ctl.mask
  }

  function Owners(x: Xt): set<Ch> {
    x.req.demand + x.req.block
  }

  lemma OwnerZero(x: Xt)
    ensures Live(x) * Owners(x) != {} && !Disabled(x) ==> (Pick(x, Requests(x)) == 0 <==> 0 in Live(x) * Owners(x))
  {
  }

  lemma PeekSound(s: Sys, c: Ch)
    requires Sound(s) && c != 0
    ensures Sound(ReadOnly(s, c).0)
  {
    hide CanService, Advance, KindOf, Serve;
    var t := if c in s.x.stat.pend then Advance(s, c) else s;
    AdvanceSound(s, c);
    var y := Serve(t.x, c);
    PendIgnored(y, y.(stat := y.stat.(pend := y.stat.pend + {c})));
    if CanService(y, 0) {
      ServeBlocks(t.x, c);
    }
  }

  lemma PendIgnored(x: Xt, y: Xt)
    requires y.ctl == x.ctl && y.req == x.req && y.c0 == x.c0
    ensures CanService(x, 0) == CanService(y, 0)
  {
    hide Bit, LowestFrom, RotatingFrom;
  }

  /** The acknowledge clears the latch and reconciles nothing. */
  lemma DackEffect(s: Sys)
    ensures var t := Dack(s);
            !t.queued && !t.scheduled && t.dacks == s.dacks + 1 && t.latched == s.latched && t.a == s.a
  {
    hide RefreshXt, Reconcile, DrqXt;
  }

  lemma TickSound(s: Sys, grant: bool, ready: bool)
    requires Sound(s)
    ensures Sound(Tick(s, grant, ready))
  {
    hide CanService, Dack;
    var a := s.a.(cycle := s.a.cycle + 1);
    DackEffect(s.(a := a.(req := false, ack := true, armed := false)));
  }

  lemma StepSound(s: Sys, e: Step)
    requires Sound(s) && Permitted(s, e)
    ensures Sound(Do(s, e))
  {
    hide CanService, Read, Write, ReadOnly, Advance, WriteReg, Tick, Reconcile, DrqXt, Pins, Matched;
    match e
    case Edge => EdgeSound(s);
    case Drq(c, up) => DrqSound(s, c, up);
    case Eop(c, up) => IdleSound(s, s.(x := EopXt(s.x, c, up)));
    case Reg(reg, v) => RegSound(s, reg, v);
    case StatusRead => IdleSound(s, s.(x := s.x.(stat := s.x.stat.(tc := {}))));
    case ReadByte(c) => TransferSound(s, c);
    case WriteByte(c) => TransferSound(s, c);
    case PeekByte(c) => PeekSound(s, c);
    case AdvanceByte(c) => AdvanceSound(s, c);
    case Clock(grant, ready) => TickSound(s, grant, ready);
  }

  /** A change that arbitration does not look at. */
  lemma IdleSound(s: Sys, t: Sys)
    requires Sound(s) && t == s.(x := t.x)
    requires t.x.ctl == s.x.ctl && t.x.req.(eop := {}) == s.x.req.(eop := {}) && t.x.c0 == s.x.c0
    ensures Sound(t)
  {
    hide Bit, LowestFrom, RotatingFrom;
  }

  lemma DrqSound(s: Sys, c: Ch, up: bool)
    requires Matched(s)
    ensures Sound(SetDrq(s, c, up)) && SameLatch(s, SetDrq(s, c, up))
  {
    hide CanService, Reconcile, DrqXt;
    MaybeReconcileSound(s.(x := DrqXt(s.x, c, up)));
  }

  lemma EdgeSound(s: Sys)
    requires Matched(s)
    ensures Sound(PitEdge(s)) && PitEdge(s).queued
    ensures PitEdge(s).latched == s.latched + (if s.queued then 0 else 1)
  {
    hide CanService, Reconcile, SetDrq;
    ReconcileSound(s);
    if !s.queued {
      DrqSound(s.(queued := true, latched := s.latched + 1), 0, true);
    }
  }

  // ---- the theorems ----

  /** The state after a hard reset, whatever the programming. */
  predicate Reset(s: Sys) {
    !s.queued && !s.scheduled && s.a == Adapter(Idle, false, false, false, false, 0) && s.latched == s.dacks == 0
  }

  lemma {:induction false} RunSound(s: Sys, es: seq<Step>)
    requires Sound(s) && PermittedRun(s, es)
    ensures Sound(Run(s, es))
  {
    hide Sound, Do, Permitted;
    if es != [] {
      RunSound(s, es[..|es| - 1]);
      StepSound(Run(s, es[..|es| - 1]), es[|es| - 1]);
    }
  }

  /**
   Over every interleaving of edges, programming, request and transfer activity and CPU clocks: scheduled
   implies latched, the adapter's request is exactly the scheduled refresh, the edges that set the latch are
   the transfers performed plus the one still latched, and a serviceable latched edge is scheduled.
   */
  lemma RefreshHandshake(s: Sys, es: seq<Step>)
    requires Reset(s) && PermittedRun(s, es)
    ensures var t := Run(s, es);
            && (t.scheduled ==> t.queued)
            && (t.a.req <==> t.scheduled) && (t.a.armed <==> t.scheduled)
            && t.latched == t.dacks + (if t.queued then 1 else 0)
            && (Serviceable(t) ==> t.scheduled)
  {
    hide CanService, Run;
    RunSound(s, es);
  }

  /** Edges while the latch is set are one edge: repeating one changes nothing, and none adds a transfer. */
  lemma {:induction false} EdgesCoalesce(s: Sys, n: nat)
    requires Sound(s) && s.queued
    ensures Edges(s, n) == if n == 0 then s else PitEdge(s)
    ensures Edges(s, n).latched == s.latched && Edges(s, n).queued
  {
    hide CanService;
    if n > 0 {
      EdgesCoalesce(s, n - 1);
    }
  }

  function Edges(s: Sys, n: nat): Sys {
    if n == 0 then s else PitEdge(Edges(s, n - 1))
  }

  /** Clocks until DACK once the CPU grants every request. */
  function Latency(a: Adapter): nat
    requires Pins(a)
  {
    match a.phase
    case Idle => 6
    case Dreq => 5
    case Hrq => 4
    case HoldA => 3
    case Operating => if a.cycle < 2 then 2 - a.cycle else 11 - a.cycle
  }

  function Clocks(s: Sys, n: nat): Sys
    decreases n
  {
    if n == 0 then s else Clocks(Tick(s, true, true), n - 1)
  }

  lemma TickNearer(s: Sys)
    requires Sound(s) && s.scheduled
    ensures Sound(Tick(s, true, true))
    ensures var t := Tick(s, true, true);
            if Latency(s.a) == 1 then !t.queued && t.dacks == s.dacks + 1
            else t.scheduled && t.dacks == s.dacks && Latency(t.a) == Latency(s.a) - 1
  {
    hide CanService, Dack;
    TickSound(s, true, true);
    var a := s.a.(cycle := s.a.cycle + 1);
    DackEffect(s.(a := a.(req := false, ack := true, armed := false)));
  }

  /** A scheduled refresh is served after exactly that many granted clocks, at most nine, and once. */
  lemma {:induction false} GrantedRefresh(s: Sys, n: nat)
    requires Sound(s) && s.scheduled && n <= Latency(s.a)
    ensures var t := Clocks(s, n);
            if n < Latency(s.a) then t.scheduled && t.dacks == s.dacks
            else !t.queued && t.dacks == s.dacks + 1
    ensures 1 <= Latency(s.a) <= 9
    decreases n
  {
    hide Tick, CanService;
    TickNearer(s);
    if n > 1 || (n == 1 && Latency(s.a) > 1) {
      GrantedRefresh(Tick(s, true, true), n - 1);
    }
  }
}
