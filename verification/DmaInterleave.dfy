/** One channel of the XT controller over whole interleavings: refresh, devices, programming and the CPU's clocks. */
module DmaInterleave {
  import opened Bits
  import opened DmaXt
  import opened DmaRun
  import opened DmaRefresh
  import opened DmaProtocol
  import opened DmaXtRun

  /** Nothing reprograms channel `c`, asks for it by software, ends it from outside or peeks at it. */
  predicate Leaves(e: Step, c: Ch) {
    match e
    case Eop(d, _) => d != c
    case Reg(reg, v) =>
      && reg != 2 * c && reg != 2 * c + 1 && (reg == 11 ==> v % 4 != c)
      && (reg == 9 && Bit(v, 2) ==> v % 4 != c && !(c == 1 && v % 4 == 0))
    case PeekByte(d) => d != c
    case AdvanceByte(d) => d != c
    case _ => true
  }

  predicate Unmasks(e: Step, c: Ch) {
    match e
    case Reg(reg, v) =>
      || (reg == 10 && !Bit(v, 2) && v % 4 == c) || reg == 14 || (reg == 15 && c !in MaskOf(v))
    case _ => false
  }

  /** Channel `c` stands as it stood; with `masks`, it also stays masked if it was. */
  predicate Same(x: Xt, y: Xt, c: Ch, masks: bool) {
    && Get(y, c) == Get(x, c) && y.pageMask == x.pageMask
    && (c !in x.req.eop ==> c !in y.req.eop) && (c !in x.stat.pend ==> c !in y.stat.pend)
    && (masks && c in x.ctl.mask ==> c in y.ctl.mask)
  }

  predicate Still(s: Sys, t: Sys, c: Ch, masks: bool) {
    Same(s.x, t.x, c, masks) && SameLatch(s, t)
  }

  // ---- what does not touch the channel ----

  lemma FinishOther(x: Xt, e: Ch, c: Ch)
    requires e != c
    ensures Same(x, Finish(x, e), c, true) && Same(x, Settle(x, e), c, true) && Same(x, Serve(x, e), c, true)
  {
    hide Bit, StepAddress, ServiceMode;
  }

  lemma AdvanceOther(s: Sys, e: Ch, c: Ch)
    requires e != c
    ensures Still(s, Advance(s, e), c, true)
  {
    hide CanService, Reconcile, ReconcileIfQueued, Finish, Settle;
    FinishOther(s.x, e, c);
    FinishOther(Settle(s.x, e), e, c);
    ReconcileX(if e in s.x.stat.pend then s.(x := Finish(Settle(s.x, e), e)) else s);
  }

  lemma CompleteOther(s: Sys, e: Ch, y: Xt, verify: bool, c: Ch)
    requires e != c && Same(s.x, y, c, true)
    ensures Still(s, Complete(s, e, y, verify).0, c, true)
  {
    hide CanService, Reconcile, ReconcileIfQueued, Finish, Terminal;
    FinishOther(y, e, c);
    ReconcileX(s.(x := Finish(y, e)));
  }

  lemma TransferOther(s: Sys, e: Ch, c: Ch)
    requires e != c
    ensures Still(s, Read(s, e).0, c, true) && Still(s, Write(s, e).0, c, true) && Still(s, ReadOnly(s, e).0, c, true)
  {
    hide CanService, Advance, Settle, Serve, KindOf, Complete;
    AdvanceOther(s, e, c);
    var t := if e in s.x.stat.pend then Advance(s, e) else s;
    FinishOther(t.x, e, c);
    FinishOther(s.x, e, c);
    FinishOther(Serve(s.x, e), e, c);
    CompleteOther(t, e, Serve(t.x, e), KindOf(Get(t.x, e).mode) == Verify, c);
    CompleteOther(s, e, Settle(Serve(s.x, e), e), KindOf(Get(s.x, e).mode) == Verify, c);
  }

  lemma {:induction false} BlockOther(s: Sys, e: Ch, n: nat, c: Ch)
    requires e != c
    ensures Still(s, BlockTransfers(s, e, n), c, true)
  {
    hide Read, Write, KindOf, Bit;
    if n > 0 {
      BlockOther(s, e, n - 1, c);
      TransferOther(BlockTransfers(s, e, n - 1), e, c);
    }
  }

  /** A copy works on channels 0 and 1. */
  lemma {:induction false} LoopOther(x: Xt, c: Ch)
    requires c != 0 && c != 1
    ensures Same(x, CopyLoop(x), c, true)
    decreases Remaining(x)
  {
    hide CanService, Bit, StepAddress;
    var y := CopyByte(x);
    if CopyGoesOn(CopyAdvance(x), y) {
      LoopOther(y, c);
    }
  }

  lemma CopyOther(x: Xt, c: Ch)
    requires c != 0 && c != 1
    ensures Same(x, MemToMem(x), c, true)
  {
    hide CanService, Bit, CopyLoop;
    LoopOther(CopyStart(x), c);
  }

  lemma SoftOther(s: Sys, v: Byte, c: Ch)
    requires Bit(v, 2) ==> v % 4 != c && !(c == 1 && v % 4 == 0)
    ensures Still(s, SoftRequest(s, v), c, true)
  {
    hide Bit, BlockTransfers, MemToMem;
    var e: Ch := v % 4;
    var t := s.(x := s.x.(req := s.x.req.(sw := s.x.req.sw + {e})));
    if Bit(v, 2) {
      BlockOther(SetSoft(t, true), e, Get(s.x, e).cb + 1, c);
      if e == 0 {
        CopyOther(t.x, c);
      }
    }
  }

  lemma ProgramOther(x: Xt, reg: nat, v: Byte, queued: bool, c: Ch)
    requires reg != 2 * c && reg != 2 * c + 1 && (reg == 11 ==> v % 4 != c)
    ensures Same(x, Program(x, reg, v, queued), c, !Unmasks(Reg(reg, v), c))
  {
    hide Bit, SetByte, And, MaskOf;
    assert reg < 8 && reg % 2 == 0 ==> reg / 2 != c;
    assert reg < 8 && reg % 2 == 1 ==> reg / 2 != c;
  }

  lemma RegOther(s: Sys, reg: nat, v: Byte, c: Ch)
    requires Leaves(Reg(reg, v), c)
    ensures Still(s, WriteReg(s, reg, v), c, !Unmasks(Reg(reg, v), c))
  {
    hide Bit, SoftRequest, Program, Reconcile, Same;
    if reg == 9 {
      SoftOther(s, v, c);
      SameWeaker(s.x, SoftRequest(s, v).x, c, !Unmasks(Reg(reg, v), c));
    } else {
      ProgramOther(s.x, reg, v, s.queued, c);
    }
    ReconcileX(if reg == 9 then SoftRequest(s, v) else s.(x := Program(s.x, reg, v, s.queued)));
  }

  lemma SameWeaker(x: Xt, y: Xt, c: Ch, masks: bool)
    requires Same(x, y, c, true)
    ensures Same(x, y, c, masks)
  {
  }

  lemma DrqOther(s: Sys, e: Ch, up: bool, c: Ch)
    ensures Still(s, SetDrq(s, e, up), c, true)
  {
    hide CanService, Reconcile, Bit;
    ReconcileX(s.(x := DrqXt(s.x, e, up)));
  }

  lemma EdgeOther(s: Sys, c: Ch)
    ensures Same(s.x, PitEdge(s).x, c, true) && PitEdge(s).dacks == s.dacks
  {
    hide CanService, Reconcile, SetDrq;
    DrqOther(s.(queued := true, latched := s.latched + 1), 0, true, c);
    ReconcileX(s);
  }

  // ---- the channel's own transfers ----

  /** One move of the channel, masked at the end unless it reloads. */
  predicate Stepped(x: Xt, y: Xt, c: Ch) {
    && Get(y, c) == Move(Get(x, c), Geo(x)) && y.pageMask == x.pageMask
    && c !in y.req.eop && c !in y.stat.pend
    && ((Over(Get(x, c)) && !AutoInit(Get(x, c).mode)) || c in x.ctl.mask ==> c in y.ctl.mask)
  }

  lemma ServedStep(x: Xt, c: Ch)
    requires c !in x.req.eop && c !in x.stat.pend
    ensures Stepped(x, Finish(Serve(x, c), c), c) && (Terminal(Serve(x, c), c) <==> Over(Get(x, c)))
    ensures Settle(Serve(x, c), c) == Serve(x, c)
  {
    hide Bit, And, ServiceMode;
    var z := AdvanceAddress(Begin(x, c), c);
    assert Get(z, c) == StepChan(Get(x, c), x.pageMask);
    assert StepChan(Get(x, c), x.pageMask).ac == StepIn(Get(x, c), Geo(x));
  }

  /** A device's attempt is refused, or moves the item the channel stands at. */
  lemma OwnTransfer(s: Sys, c: Ch, a: Access)
    requires c != 0 && c !in s.x.req.eop && c !in s.x.stat.pend
    ensures var d, t := Get(s.x, c), Try(s, c, a);
            if CanService(s.x, c) && Suits(KindOf(d.mode), a)
            then t.1 == Moved(d.ac, KindOf(d.mode) == Verify, Over(d)) && Stepped(s.x, t.0.x, c)
            else t == (s, NoData)
  {
    hide CanService, Finish, Serve, Settle, Terminal, Over, Stepped, Reconcile, KindOf;
    ServedStep(s.x, c);
    ReconcileX(s.(x := Finish(Serve(s.x, c), c)));
  }

  /** The transfer at DACK0 is one move of channel 0. */
  lemma DackMoves(s: Sys)
    requires 0 !in s.x.req.eop && 0 !in s.x.stat.pend
    ensures Stepped(s.x, Dack(s).x, 0) && Dack(s).dacks == s.dacks + 1
  {
    hide SetDrq, Finish, Serve, Settle, Stepped;
    ServedStep(s.x, 0);
    var t := s.(x := RefreshXt(s.x), queued := false, scheduled := false, dacks := s.dacks + 1);
    DrqOther(t, 0, false, 0);
    SteppedThen(s.x, t.x, Dack(s).x, 0);
  }

  lemma SteppedThen(x: Xt, y: Xt, z: Xt, c: Ch)
    requires Stepped(x, y, c) && Same(y, z, c, true)
    ensures Stepped(x, z, c)
  {
    hide Move;
  }

  lemma DackOther(s: Sys, c: Ch)
    requires c != 0
    ensures Same(s.x, Dack(s).x, c, true)
  {
    hide SetDrq, Finish, Serve, Settle;
    FinishOther(s.x, 0, c);
    FinishOther(Settle(s.x, 0), 0, c);
    var y := if 0 in s.x.stat.pend then Finish(Settle(s.x, 0), 0) else s.x;
    FinishOther(y, 0, c);
    FinishOther(Serve(y, 0), 0, c);
    FinishOther(Settle(Serve(y, 0), 0), 0, c);
    DrqOther(s.(x := RefreshXt(s.x), queued := false, scheduled := false, dacks := s.dacks + 1), 0, false, c);
  }

  // ---- one step ----

  predicate Takes(s: Sys, e: Step, c: Ch, a: Access) {
    e == (if a == Reading then ReadByte(c) else WriteByte(c)) && Try(s, c, a).1.Moved?
  }

  /** How often the step makes the channel move: DACKs for refresh, accepted attempts for a device. */
  function StepCount(s: Sys, e: Step, c: Ch): int {
    if c == 0 then Do(s, e).dacks - s.dacks
    else if Takes(s, e, c, Reading) || Takes(s, e, c, Writing) then 1 else 0
  }

  predicate Free(x: Xt, c: Ch) {
    c !in x.req.eop && c !in x.stat.pend
  }

  predicate Walked(s: Sys, e: Step, c: Ch) {
    var n, x, y := StepCount(s, e, c), s.x, Do(s, e).x;
    (n == 0 && Same(x, y, c, !Unmasks(e, c))) || (n == 1 && Stepped(x, y, c))
  }

  lemma StepWalks(s: Sys, e: Step, c: Ch)
    requires Permitted(s, e) && Leaves(e, c) && Free(s.x, c)
    ensures Walked(s, e, c)
  {
    hide Bit, Read, Write, ReadOnly, Advance, WriteReg, Tick, PitEdge, SetDrq, Stepped, Get, CanService, KindOf, Over;
    match e
    case Edge => EdgeOther(s, c);
    case Drq(d, up) => DrqOther(s, d, up, c);
    case Eop(d, up) => EopOther(s, d, up, c);
    case Reg(reg, v) => RegOther(s, reg, v, c);
    case StatusRead => StatusOther(s, c);
    case ReadByte(d) => AttemptWalks(s, d, c, Reading);
    case WriteByte(d) => AttemptWalks(s, d, c, Writing);
    case PeekByte(d) => TransferOther(s, d, c);
    case AdvanceByte(d) => AdvanceOther(s, d, c);
    case Clock(grant, ready) => TickWalks(s, grant, ready, c);
  }

  lemma EopOther(s: Sys, d: Ch, up: bool, c: Ch)
    requires d != c
    ensures Same(s.x, EopXt(s.x, d, up), c, true)
  {
  }

  lemma StatusOther(s: Sys, c: Ch)
    ensures Same(s.x, s.x.(stat := s.x.stat.(tc := {})), c, true)
  {
  }

  lemma AttemptWalks(s: Sys, d: Ch, c: Ch, a: Access)
    requires d != 0 && Free(s.x, c)
    ensures Walked(s, if a == Reading then ReadByte(d) else WriteByte(d), c)
  {
    hide Bit, Read, Write, Stepped, Get, CanService, KindOf, Over;
    if d == c {
      OwnTransfer(s, c, a);
      SameSelf(s.x, c);
    } else {
      TransferOther(s, d, c);
    }
  }

  lemma SameSelf(x: Xt, c: Ch)
    ensures Same(x, x, c, true)
  {
  }

  /** The adapter at its acknowledge. */
  function Acknowledged(s: Sys): Sys {
    s.(a := s.a.(cycle := s.a.cycle + 1, req := false, ack := true, armed := false))
  }

  lemma TickEffect(s: Sys, grant: bool, ready: bool)
    ensures var t := Tick(s, grant, ready);
            (t.x == s.x && t.dacks == s.dacks) || t == Dack(Acknowledged(s))
  {
    hide Dack;
  }

  lemma TickWalks(s: Sys, grant: bool, ready: bool, c: Ch)
    requires Free(s.x, c)
    ensures Walked(s, Clock(grant, ready), c)
  {
    hide Dack, Stepped, Get, Tick, Same;
    SameSelf(s.x, c);
    TickEffect(s, grant, ready);
    var t := Acknowledged(s);
    if c == 0 {
      DackMoves(t);
    } else {
      DackOther(t, c);
    }
  }

  // ---- a run ----

  function Count(s: Sys, es: seq<Step>, c: Ch): int {
    if es == [] then 0
    else Count(s, es[..|es| - 1], c) + StepCount(Run(s, es[..|es| - 1]), es[|es| - 1], c)
  }

  predicate LeftAlone(es: seq<Step>, c: Ch) {
    forall i :: 0 <= i < |es| ==> Leaves(es[i], c)
  }

  predicate StaysMasked(es: seq<Step>, c: Ch) {
    forall i :: 0 <= i < |es| ==> !Unmasks(es[i], c)
  }

  /** The channel after `n` moves; `masks` says that terminal count has not been unmasked since. */
  predicate Stands(x: Xt, y: Xt, c: Ch, n: int, masks: bool) {
    var d := Get(x, c);
    && n >= 0 && Free(y, c) && y.pageMask == x.pageMask && Get(y, c) == Moves(d, Geo(x), n)
    && (masks && !AutoInit(d.mode) && n > d.cb ==> c in y.ctl.mask)
  }

  lemma StandsNext(x: Xt, y: Xt, z: Xt, c: Ch, n: nat, masks: bool)
    requires Stands(x, y, c, n, masks) && Loaded(Get(x, c), Geo(x))
    ensures Same(y, z, c, masks) ==> Stands(x, z, c, n, masks)
    ensures Stepped(y, z, c) ==> Stands(x, z, c, n + 1, masks)
  {
    hide Move, Over, Bit, Loaded;
    Placed(Get(x, c), Geo(x), n);
  }

  lemma {:induction false} RunWalks(s: Sys, es: seq<Step>, c: Ch)
    requires PermittedRun(s, es) && LeftAlone(es, c) && Free(s.x, c) && Loaded(Get(s.x, c), Geo(s.x))
    ensures Stands(s.x, Run(s, es).x, c, Count(s, es, c), StaysMasked(es, c))
  {
    hide Do, Permitted, Leaves, Unmasks, Loaded, StepCount, Same, Stepped, Get;
    if es != [] {
      var fs, e := es[..|es| - 1], es[|es| - 1];
      RunWalks(s, fs, c);
      StepWalks(Run(s, fs), e, c);
      var masks := StaysMasked(es, c);
      assert masks ==> StaysMasked(fs, c) && !Unmasks(e, c);
      StandsWeaker(s.x, Run(s, fs).x, c, Count(s, fs, c), StaysMasked(fs, c), masks);
      StandsNext(s.x, Run(s, fs).x, Run(s, es).x, c, Count(s, fs, c), masks);
      SameLess(Run(s, fs).x, Run(s, es).x, c, !Unmasks(e, c), masks);
    }
  }

  lemma StandsWeaker(x: Xt, y: Xt, c: Ch, n: int, masks: bool, less: bool)
    requires Stands(x, y, c, n, masks) && (less ==> masks)
    ensures Stands(x, y, c, n, less)
  {
  }

  lemma SameLess(x: Xt, y: Xt, c: Ch, masks: bool, less: bool)
    requires less ==> masks
    ensures Same(x, y, c, masks) ==> Same(x, y, c, less)
  {
  }

  /**
   A device channel over any interleaving with refresh, the other channels, programming and the CPU's clocks: the next
   attempt is refused exactly when the arbiter or the mode refuses it, and otherwise moves the item at the base address
   advanced by the attempts accepted so far, with terminal count at the end of each period and nowhere else.
   */
  lemma InterleavedRun(s: Sys, es: seq<Step>, c: Ch, a: Access)
    requires PermittedRun(s, es) && LeftAlone(es, c) && c != 0 && Free(s.x, c) && Loaded(Get(s.x, c), Geo(s.x))
    ensures Count(s, es, c) >= 0
    ensures var d, t, n := Get(s.x, c), Run(s, es), Place(Get(s.x, c), Count(s, es, c));
            Try(t, c, a).1 == if CanService(t.x, c) && Suits(KindOf(d.mode), a)
                              then Moved(Walk(d, Geo(s.x), n), KindOf(d.mode) == Verify, n >= d.cb)
                              else NoData
    ensures var d := Get(s.x, c);
            !AutoInit(d.mode) && StaysMasked(es, c) && Count(s, es, c) > d.cb ==> Try(Run(s, es), c, a).1 == NoData
  {
    hide Run, PermittedRun, LeftAlone, Loaded, Try, Walk, Over, Stepped, Count, StaysMasked, Get, KindOf, Moves;
    RunWalks(s, es, c);
    var t := Run(s, es);
    Placed(Get(s.x, c), Geo(s.x), Count(s, es, c));
    OwnTransfer(t, c, a);
    if CanService(t.x, c) {
      ServedUnmasked(t.x, c);
    }
  }

  lemma {:induction false} CountsDacks(s: Sys, es: seq<Step>)
    ensures Count(s, es, 0) == Run(s, es).dacks - s.dacks
  {
    hide Do;
    if es != [] {
      CountsDacks(s, es[..|es| - 1]);
    }
  }

  /**
   However edges, programming of the other channels, their transfers and the CPU's grants are interleaved,
   the refresh channel has advanced by exactly one row per DACK: its address is the base moved by the number
   of DACKs modulo its period.
   */
  lemma RefreshWalksRows(s: Sys, es: seq<Step>)
    requires Reset(s) && PermittedRun(s, es) && LeftAlone(es, 0) && Free(s.x, 0)
    requires Loaded(s.x.c0, Geo(s.x)) && AutoInit(s.x.c0.mode)
    ensures var d, t := s.x.c0, Run(s, es);
            t.x.c0.ac == Walk(d, Geo(s.x), t.dacks % (d.cb + 1)) && t.x.c0.cc == d.cb - t.dacks % (d.cb + 1)
  {
    hide Walk, Run, Loaded, Bit, PermittedRun, Count, LeftAlone, Moves, StaysMasked;
    RunWalks(s, es, 0);
    CountsDacks(s, es);
    AutoInitRun(s.x.c0, Geo(s.x), Run(s, es).dacks);
  }
}
