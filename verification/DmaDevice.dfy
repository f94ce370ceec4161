/** The XT DMA controller and its refresh logic as src/dma.c runs them: shared registers updated in place. */
module DmaDevice {
  import opened Bits
  import opened PhysMem
  import opened DmaXt
  import opened DmaRefresh
  import DmaCopy

  /** Memory after a programming write: only a software request moves data. */
  function MemoryAfter(s: Sys, reg: nat, v: Byte, buffer: seq<Byte>, m: seq<Byte>): seq<Byte>
    requires |buffer| == 0x1_0000
  {
    var c: Ch := v % 4;
    var t := s.(x := s.x.(req := s.x.req.(sw := s.x.req.sw + {c})));
    if reg != 9 || !Bit(v, 2) then m
    else if c == 0 && Bit(s.x.ctl.command, 0) then DmaCopy.CopyMem(t.x, m)
    else BlockMem(SetSoft(t, true), c, buffer, m, Get(s.x, c).cb + 1)
  }

  class Controller {
    var ctl: Ctl
    var req: Req
    var stat: Stat
    const dma: array<Chan>
    const pageMask: nat
    var temp: Byte
    var queued: bool
    var scheduled: bool
    var adapter: Adapter
    ghost var latched: nat
    ghost var dacks: nat

    ghost predicate Valid() {
      dma.Length == 4
    }

    function X(): Xt
      requires dma.Length == 4
      reads this, dma
    {
      Xt(ctl, req, stat, dma[0], dma[1], dma[2], dma[3], pageMask)
    }

    ghost function View(): Sys
      requires Valid()
      reads this, dma
    {
      Sys(X(), queued, scheduled, adapter, latched, dacks)
    }

    constructor (x: Xt, a: Adapter)
      ensures Valid() && fresh(dma) && X() == x && !queued && !scheduled && adapter == a
      ensures latched == dacks == 0
    {
      ctl, req, stat, pageMask, temp := x.ctl, x.req, x.stat, x.pageMask, 0;
      dma := new Chan[4](i => if i == 0 then x.c0 else if i == 1 then x.c1 else if i == 2 then x.c2 else x.c3);
      queued, scheduled, adapter := false, false, a;
      latched, dacks := 0, 0;
    }

    // ---- arbitration ----

    method PriorityPick(requests0: set<Ch>) returns (channel: int)
      requires Valid()
      ensures channel == Pick(X(), requests0)
    {
      var requests := requests0 - ctl.mask;
      requests := requests * ctl.enabled;
      assert requests == requests0 * ctl.enabled - ctl.mask;
      if requests == {} || Bit(ctl.command, 2) {
        return -1;
      }
      var owner := requests * (req.demand + req.block);
      if owner != {} {
        channel := Lowest(owner);
      } else if Bit(ctl.command, 4) {
        for i := 1 to 5
          invariant RotatingFrom(requests, req.last, 1) == RotatingFrom(requests, req.last, i)
        {
          if (req.last + i) % 4 in requests {
            return (req.last + i) % 4;
          }
        }
        channel := -1;
      } else {
        channel := Lowest(requests);
      }
    }

    static method Lowest(s: set<Ch>) returns (channel: int)
      ensures channel == LowestFrom(s, 0)
    {
      for i := 0 to 4
        invariant LowestFrom(s, 0) == LowestFrom(s, i)
      {
        if i in s {
          return i;
        }
      }
      return -1;
    }

    method Serviceable(c: Ch) returns (ok: bool)
      requires Valid()
      ensures ok == CanService(X(), c)
    {
      assert Get(X(), c) == dma[c];
      if Bit(ctl.command, 2) || c !in ctl.enabled || c in ctl.mask {
        return false;
      }
      var requests := req.drq + req.sw + req.demand + req.block;
      if c != 0 && !ctl.soft {
        requests := requests * {c};
      }
      if c !in requests || ServiceMode(dma[c].mode) == Cascade {
        return false;
      }
      var pick := PriorityPick(requests);
      ok := pick == c;
    }

    // ---- one service ----

    method ReleaseOwner(c: Ch)
      requires Valid()
      modifies this`req
      ensures X() == Release(old(X()), c)
    {
      req := req.(demand := req.demand - {c}, block := req.block - {c}, dack := req.dack - {c});
      if Bit(ctl.command, 4) {
        req := req.(last := c);
      }
    }

    method BeginService(c: Ch)
      requires Valid()
      modifies this`req
      ensures X() == Begin(old(X()), c)
    {
      assert Get(X(), c) == dma[c];
      var mode := ServiceMode(dma[c].mode);
      req := req.(dack := {c});
      if mode == Demand {
        req := req.(demand := req.demand + {c});
      } else if mode == Block {
        req := req.(block := req.block + {c});
      }
    }

    method StepChannel(c: Ch)
      requires Valid()
      modifies dma
      ensures X() == AdvanceAddress(old(X()), c)
    {
      hide And, Bit;
      var d := dma[c];
      var step := if Down(d.mode) then -1 else 1;
      dma[c] := d.(ac := And(d.ac / 0x1_0000, pageMask) * 0x1_0000 + (d.ac % 0x1_0000 + step) % 0x1_0000);
    }

    method FinishTransfer(c: Ch) returns (terminal: bool)
      requires Valid()
      modifies this`req, this`stat, this`ctl, dma
      ensures X() == Finish(old(X()), c) && terminal == Terminal(old(X()), c)
    {
      hide And;
      ghost var x := X();
      assert Get(x, c) == dma[c];
      var d := dma[c];
      dma[c] := d.(cc := d.cc - 1);
      terminal := dma[c].cc < 0 || c in req.eop;
      if terminal {
        stat := stat.(tc := stat.tc + {c}, pend := stat.pend - {c});
        req := req.(sw := req.sw - {c}, eop := req.eop - {c});
        if AutoInit(d.mode) {
          dma[c] := dma[c].(cc := d.cb, ac := d.ab);
        } else {
          ctl := ctl.(mask := ctl.mask + {c});
        }
        ReleaseOwner(c);
      } else if ServiceMode(d.mode) == Single {
        req := req.(dack := req.dack - {c});
        if Bit(ctl.command, 4) {
          req := req.(last := c);
        }
      }
    }

    // ---- the refresh latch ----

    method TryRequest() returns (ok: bool)
      modifies this`adapter
      ensures ok == Accepts(old(adapter)) && adapter == if ok then Request(old(adapter)) else old(adapter)
    {
      if adapter.req || adapter.armed {
        return false;
      }
      adapter := adapter.(req := true, armed := true);
      return true;
    }

    method CancelRequest() returns (ok: bool)
      modifies this`adapter
      ensures ok == Cancels(old(adapter)) && adapter == if ok then Cancel(old(adapter)) else old(adapter)
    {
      if adapter.ack || adapter.holda || !adapter.req || !adapter.armed {
        return false;
      }
      adapter := adapter.(req := false, armed := false);
      if adapter.phase == Dreq || adapter.phase == Hrq {
        adapter := adapter.(phase := Idle);
      }
      return true;
    }

    method TryScheduleRefresh()
      requires Valid()
      modifies this`adapter, this`scheduled
      ensures View() == TrySchedule(old(View()))
    {
      hide CanService;
      if queued && !scheduled {
        var ok := Serviceable(0);
        if ok {
          var accepted := TryRequest();
          if accepted {
            scheduled := true;
          }
        }
      }
    }

    method ReconcileRefresh()
      requires Valid()
      modifies this`adapter, this`scheduled
      ensures View() == Reconcile(old(View()))
    {
      hide CanService, TrySchedule;
      var serviceable := false;
      if queued {
        serviceable := Serviceable(0);
      }
      if scheduled && !serviceable {
        var cancelled := CancelRequest();
        if cancelled {
          scheduled := false;
        }
      }
      if serviceable && !scheduled {
        TryScheduleRefresh();
      }
    }

    method Drq(c: Ch, up: bool)
      requires Valid()
      modifies this`adapter, this`scheduled, this`req
      ensures View() == SetDrq(old(View()), c, up)
    {
      hide CanService, Reconcile;
      req := req.(drq := req.drq - {c});
      if up {
        req := req.(drq := req.drq + {c});
      }
      assert up ==> req.drq == old(req.drq) + {c};
      if !up && c in req.demand {
        ReleaseOwner(c);
      }
      assert X() == DrqXt(old(X()), c, up);
      if queued {
        ReconcileRefresh();
      }
    }

    method Eop(c: Ch, up: bool)
      requires Valid()
      modifies this`req
      ensures X() == old(X()).(req := old(req).(eop := if up then old(req.eop) + {c} else old(req.eop) - {c}))
    {
      req := req.(eop := if up then req.eop + {c} else req.eop - {c});
    }

    method RefreshRequest()
      requires Valid()
      modifies this`adapter, this`scheduled, this`req, this`queued, this`latched
      ensures View() == PitEdge(old(View()))
    {
      hide CanService, Reconcile, DrqXt;
      if !queued {
        queued := true;
        latched := latched + 1;
        Drq(0, true);
      } else {
        ReconcileRefresh();
      }
    }

    // ---- transfers ----

    method AdvanceChannel(c: Ch) returns (tc: bool)
      requires Valid()
      modifies this`req, this`stat, this`ctl, dma, this`adapter, this`scheduled
      ensures View() == Advance(old(View()), c)
      ensures tc == (c in old(stat).pend && Terminal(Settle(old(X()), c), c))
    {
      hide CanService, Reconcile, Finish, Terminal;
      tc := false;
      if c in stat.pend {
        stat := stat.(pend := stat.pend - {c});
        assert X() == Settle(old(X()), c);
        tc := FinishTransfer(c);
      }
      if c != 0 && queued {
        ReconcileRefresh();
      }
    }

    method ServeChannel(c: Ch)
      requires Valid()
      modifies this`req, this`stat, dma
      ensures X() == Serve(old(X()), c)
    {
      hide Begin, AdvanceAddress;
      BeginService(c);
      StepChannel(c);
      stat := stat.(served := stat.served + {c});
    }

    method ReadChannel(c: Ch, m: array<Byte>) returns (v: int)
      requires Valid()
      modifies this`req, this`stat, this`ctl, dma, this`adapter, this`scheduled
      ensures View() == Read(old(View()), c).0
      ensures v == ReadValue(old(View()), c, m[..])
    {
      hide CanService, Reconcile, Finish, Terminal, Advance, Serve, KindOf;
      if c in stat.pend {
        var ended := AdvanceChannel(c);
      }
      label ready:
      assert Get(X(), c) == dma[c];
      var ok := Serviceable(c);
      var kind := KindOf(dma[c].mode);
      if !ok || (kind != ReadMem && kind != Verify) {
        return DMA_NODATA;
      }
      var a := dma[c].ac;
      v := DMA_VERIFY;
      if kind == ReadMem {
        v := ReadByte(m, a);
      }
      ServeChannel(c);
      var tc := FinishTransfer(c);
      if c != 0 && queued {
        ReconcileRefresh();
      }
      if tc {
        v := v + DMA_OVER;
      }
    }

    method PeekChannel(c: Ch, m: array<Byte>) returns (v: int)
      requires Valid()
      modifies this`req, this`stat, this`ctl, dma, this`adapter, this`scheduled
      ensures View() == ReadOnly(old(View()), c).0
      ensures v == PeekValue(old(View()), c, m[..])
    {
      hide CanService, Reconcile, Finish, Terminal, Advance, Serve, KindOf;
      assert Get(X(), c) == dma[c];
      var ok := Serviceable(c);
      var kind := KindOf(dma[c].mode);
      if !ok || (kind != ReadMem && kind != Verify) {
        return DMA_NODATA;
      }
      if c in stat.pend {
        var ended := AdvanceChannel(c);
      }
      assert Get(X(), c) == dma[c];
      v := DMA_VERIFY;
      if kind == ReadMem {
        v := ReadByte(m, dma[c].ac);
      }
      ServeChannel(c);
      stat := stat.(pend := stat.pend + {c});
    }

    method WriteChannel(c: Ch, val: Byte, m: array<Byte>) returns (v: int)
      requires Valid()
      modifies this`req, this`stat, this`ctl, dma, this`adapter, this`scheduled, m
      ensures View() == Write(old(View()), c).0
      ensures v == WriteValue(old(View()), c) && m[..] == Written(old(View()), c, val, old(m[..]))
    {
      hide CanService, Reconcile, Finish, Terminal, Advance, Serve, KindOf, With;
      assert Get(X(), c) == dma[c];
      var ok := Serviceable(c);
      var kind := KindOf(dma[c].mode);
      if !ok || (kind != WriteMem && kind != Verify) {
        return DMA_NODATA;
      }
      if kind == WriteMem {
        WriteByte(m, dma[c].ac, val);
      }
      ServeChannel(c);
      stat := stat.(pend := stat.pend - {c});
      var tc := FinishTransfer(c);
      if c != 0 && queued {
        ReconcileRefresh();
      }
      v := if tc then DMA_OVER else 0;
    }

    // ---- DACK0 and the adapter's clock ----

    method RefreshDack()
      requires Valid()
      modifies this`req, this`stat, this`ctl, dma, this`adapter, this`scheduled, this`queued, this`dacks
      ensures View() == Dack(old(View()))
    {
      hide CanService, Reconcile, Finish, Terminal, Begin, AdvanceAddress, DrqXt;
      if 0 in stat.pend {
        var ended := AdvanceChannel(0);
      }
      ServeChannel(0);
      stat := stat.(pend := stat.pend - {0});
      var tc := FinishTransfer(0);
      assert X() == RefreshXt(old(X()));
      queued := false;
      scheduled := false;
      dacks := dacks + 1;
      Drq(0, false);
    }

    method Clock(grant: bool, ready: bool)
      requires Valid()
      modifies this`req, this`stat, this`ctl, dma, this`adapter, this`scheduled, this`queued, this`dacks
      ensures View() == Tick(old(View()), grant, ready)
    {
      hide Dack;
      match adapter.phase {
        case Idle =>
          if adapter.req {
            adapter := adapter.(phase := Dreq);
          }
        case Dreq =>
          adapter := adapter.(phase := Hrq);
        case Hrq =>
          if grant {
            adapter := adapter.(holda := true, phase := HoldA);
          }
        case HoldA =>
          if ready {
            adapter := adapter.(cycle := 0, phase := Operating);
          }
        case Operating =>
          adapter := adapter.(cycle := adapter.cycle + 1);
          if adapter.cycle == 2 {
            adapter := adapter.(req := false, ack := true);
            if adapter.armed {
              adapter := adapter.(armed := false);
              RefreshDack();
            }
          } else if adapter.cycle == 4 {
            adapter := adapter.(holda := false);
          } else if adapter.cycle == 5 {
            adapter := adapter.(ack := false, cycle := 0, phase := Idle);
          }
      }
    }

    // ---- programming ----

    method WriteAddressReg(c: Ch, v: Byte)
      requires Valid()
      modifies this`ctl, dma
      ensures X() == WriteAddress(old(X()), c, v)
    {
      hide And;
      assert Get(X(), c) == dma[c];
      var page := And(dma[c].ab / 0x1_0000, pageMask) * 0x1_0000;
      ctl := ctl.(flipFlop := !ctl.flipFlop);
      var low := if ctl.flipFlop then dma[c].ab / 0x100 % 0x100 * 0x100 + v else v * 0x100 + dma[c].ab % 0x100;
      dma[c] := dma[c].(ab := page + low, ac := page + low);
    }

    method WriteCountReg(c: Ch, v: Byte)
      requires Valid()
      modifies this`ctl, dma
      ensures X() == WriteCount(old(X()), c, v)
    {
      assert Get(X(), c) == dma[c];
      ctl := ctl.(flipFlop := !ctl.flipFlop);
      var n := if ctl.flipFlop then dma[c].cb / 0x100 % 0x100 * 0x100 + v else v * 0x100 + dma[c].cb % 0x100;
      dma[c] := dma[c].(cb := n, cc := n);
    }

    method Master()
      requires Valid()
      modifies this`ctl, this`req, this`stat
      ensures X() == MasterClear(old(X()), queued)
    {
      ctl := Ctl(0, {0, 1, 2, 3}, ctl.enabled, ctl.soft, false);
      stat := Stat({}, {}, {});
      req := Req(req.drq, {}, {}, {}, {}, {}, 3);
      if queued {
        req := req.(drq := req.drq + {0});
      }
    }

    method WriteMode(c: Ch, v: Byte)
      requires Valid()
      modifies this`req, dma
      ensures v % 4 == c ==> X() == Program(old(X()), 11, v, queued)
    {
      hide Bit;
      assert Get(X(), c) == dma[c];
      dma[c] := dma[c].(mode := v);
      req := req.(demand := req.demand - {c}, block := req.block - {c}, eop := req.eop - {c}, dack := req.dack - {c});
    }

    method WriteMaskBit(v: Byte)
      requires Valid()
      modifies this`ctl, this`req
      ensures X() == Program(old(X()), 10, v, queued)
    {
      var c: Ch := v % 4;
      if Bit(v, 2) {
        ctl := ctl.(mask := ctl.mask + {c});
        ReleaseOwner(c);
      } else {
        ctl := ctl.(mask := ctl.mask - {c});
      }
    }

    method ProgramReg(reg: nat, v: Byte)
      requires Valid()
      modifies this`ctl, this`req, this`stat, dma
      ensures X() == Program(old(X()), reg, v, queued)
    {
      hide WriteAddress, WriteCount, MasterClear, Bit, MaskOf, And;
      if reg < 8 {
        if reg % 2 == 0 {
          WriteAddressReg(reg / 2, v);
        } else {
          WriteCountReg(reg / 2, v);
        }
      } else if reg == 8 {
        ctl := ctl.(command := v);
        if Bit(v, 2) {
          req := req.(demand := {}, block := {}, dack := {});
        }
      } else if reg == 10 {
        WriteMaskBit(v);
      } else if reg == 11 {
        WriteMode(v % 4, v);
      } else if reg == 12 {
        ctl := ctl.(flipFlop := false);
      } else if reg == 13 {
        Master();
      } else if reg == 14 {
        ctl := ctl.(mask := {});
      } else if reg == 15 {
        ctl := ctl.(mask := MaskOf(v));
        req := req.(demand := req.demand - MaskOf(v), block := req.block - MaskOf(v), dack := req.dack - MaskOf(v));
      }
    }

    // ---- software requests ----

    /** One byte of the memory-to-memory loop: read, write, step both addresses. */
    method CopyOne(m: array<Byte>)
      requires Valid()
      modifies this`temp, dma, m
      ensures X() == CopyAdvance(old(X())) && m[..] == DmaCopy.ByteCopied(old(X()), old(m[..]))
    {
      hide AdvanceAddress, At, With, Bit;
      temp := ReadByte(m, dma[0].ac);
      WriteByte(m, dma[1].ac, temp);
      if !Bit(ctl.command, 1) {
        StepChannel(0);
      }
      StepChannel(1);
    }

    method CopyCountDown() returns (terminal: bool)
      requires Valid()
      modifies this`req, this`stat, this`ctl, dma
      ensures X() == CopyFinish(old(X())) && terminal == CopyEnds(old(X()))
    {
      terminal := false;
      ghost var x := X();
      var d := dma[1];
      dma[1] := d.(cc := d.cc - 1);
      if dma[1].cc < 0 || 1 in req.eop {
        terminal := true;
        stat := stat.(tc := stat.tc + {1});
        req := req.(eop := req.eop - {1}, sw := req.sw - {0});
        if AutoInit(d.mode) {
          dma[1] := dma[1].(cc := d.cb, ac := d.ab);
          dma[0] := dma[0].(ac := dma[0].ab);
        } else {
          ctl := ctl.(mask := ctl.mask + {1});
        }
        ReleaseOwner(0);
      }
    }

    method CopyMemory(m: array<Byte>) returns (terminal: bool)
      requires Valid()
      modifies this`temp, this`req, this`stat, this`ctl, dma, m
      ensures X() == MemToMem(old(X())) && m[..] == DmaCopy.CopyMem(old(X()), old(m[..]))
      ensures terminal == (CopyStarts(old(X())) && DmaCopy.LoopEnds(CopyStart(old(X()))))
    {
      hide CanService, CopyFinish, CopyAdvance, CopyEnds, DmaCopy.ByteCopied;
      terminal := false;
      if !Bit(ctl.command, 0) {
        return;
      }
      var ok := Serviceable(0);
      if !ok {
        return;
      }
      BeginService(0);
      ghost var start, was := X(), m[..];
      var more := true;
      while more
        invariant more ==> CopyLoop(start) == CopyLoop(X()) && DmaCopy.LoopEnds(start) == DmaCopy.LoopEnds(X())
        invariant more ==> DmaCopy.LoopMem(start, was) == DmaCopy.LoopMem(X(), m[..])
        invariant !more ==> X() == CopyLoop(start) && m[..] == DmaCopy.LoopMem(start, was)
        invariant !more ==> terminal == DmaCopy.LoopEnds(start)
        decreases more, Remaining(X())
      {
        ghost var x := X();
        CopyOne(m);
        terminal := CopyCountDown();
        RemainingFalls(x);
        var again := Serviceable(0);
        more := !terminal && ServiceMode(dma[0].mode) == Block && again;
      }
      if ServiceMode(dma[0].mode) == Single {
        ReleaseOwner(0);
      }
    }

    method BlockByte(c: Ch, i: nat, buffer: array<Byte>, m: array<Byte>)
      requires Valid() && buffer != m && i < buffer.Length
      modifies this`req, this`stat, this`ctl, dma, this`adapter, this`scheduled, m, buffer
      ensures var s, mode := old(View()), old(dma[c].mode);
              && View() == (if !Bit(mode, 7) then s else if KindOf(mode) == WriteMem then Write(s, c).0
                            else if KindOf(mode) == ReadMem then Read(s, c).0 else s)
              && m[..] == (if Copies(s, c, WriteMem) then Written(s, c, old(buffer[i]), old(m[..])) else old(m[..]))
              && buffer[..] == (if Copies(s, c, ReadMem) then old(buffer[..])[i := ReadValue(s, c, old(m[..])) % 0x100]
                                else old(buffer[..]))
    {
      hide CanService, Read, Write, ReadValue, Written, KindOf, Bit;
      assert Get(X(), c) == dma[c];
      var mode := dma[c].mode;
      if Bit(mode, 7) && KindOf(mode) == WriteMem {
        var r := WriteChannel(c, buffer[i], m);
      } else if Bit(mode, 7) && KindOf(mode) == ReadMem {
        var v := ReadChannel(c, m);
        buffer[i] := v % 0x100;
      }
    }

    method BlockTransfer(c: Ch, buffer: array<Byte>, m: array<Byte>)
      requires Valid() && buffer != m && buffer.Length == 0x1_0000 && dma[c].cb < 0xffff
      modifies this`req, this`stat, this`ctl, dma, this`adapter, this`scheduled, m, buffer
      ensures var s, n := SetSoft(old(View()), true), old(dma[c].cb) + 1;
              && View() == SetSoft(BlockTransfers(s, c, n), false)
              && m[..] == BlockMem(s, c, old(buffer[..]), old(m[..]), n)
              && buffer[..] == BlockBuffer(s, c, old(buffer[..]), old(m[..]), n)
    {
      hide CanService, Read, Write, ReadValue, Written, KindOf, Bit;
      ctl := ctl.(soft := true);
      ghost var s, b0, m0 := View(), buffer[..], m[..];
      assert Get(s.x, c) == dma[c];
      var i := 0;
      while i <= dma[c].cb
        invariant Valid() && dma[c].cb == Get(s.x, c).cb && 0 <= i <= dma[c].cb + 1
        invariant View() == BlockTransfers(s, c, i)
        invariant m[..] == BlockMem(s, c, b0, m0, i)
        invariant buffer[..] == BlockBuffer(s, c, b0, m0, i)
        decreases dma[c].cb + 1 - i
      {
        ModeStays(s, c, i);
        ModeStays(s, c, i + 1);
        BufferAhead(s, c, b0, m0, i);
        if KindOf(dma[c].mode) != WriteMem {
          ReadsLeaveMemory(s, c, b0, m0, i);
        }
        assert Get(View().x, c) == dma[c];
        BlockByte(c, i, buffer, m);
        assert Get(View().x, c) == dma[c];
        i := i + 1;
      }
      ctl := ctl.(soft := false);
    }

    /** A programming write, with the reconciliation that follows every one. */
    method WriteRegister(reg: nat, v: Byte, buffer: array<Byte>, m: array<Byte>)
      requires Valid() && buffer != m && buffer.Length == 0x1_0000
      requires reg == 9 && AsksBlock(View(), v) ==> dma[v % 4].cb < 0xffff
      modifies this, dma, m, buffer
      ensures View() == WriteReg(old(View()), reg, v)
      ensures m[..] == MemoryAfter(old(View()), reg, v, old(buffer[..]), old(m[..]))
    {
      hide CanService, Reconcile, BlockTransfers, MemToMem, Program, Bit, Release, CopyStarts, BlockMem, DmaCopy.CopyMem;
      ghost var s := View();
      if reg == 9 {
        var c: Ch := v % 4;
        assert Get(s.x, c) == dma[c];
        if Bit(v, 2) {
          req := req.(sw := req.sw + {c});
          if c == 0 && Bit(ctl.command, 0) {
            var terminal := CopyMemory(m);
          } else {
            BlockTransfer(c, buffer, m);
          }
        } else {
          req := req.(sw := req.sw - {c});
          if c in req.demand {
            ReleaseOwner(c);
          }
        }
        assert View() == SoftRequest(s, v);
      } else {
        ProgramReg(reg, v);
      }
      ReconcileRefresh();
    }
  }

  // ---- a block of software requests ----

  lemma FinishStays(x: Xt, c: Ch)
    ensures Get(Finish(x, c), c).(cc := 0, ac := 0) == Get(x, c).(cc := 0, ac := 0)
    ensures Get(Settle(x, c), c) == Get(x, c)
    ensures Get(Serve(x, c), c).(cc := 0, ac := 0) == Get(x, c).(cc := 0, ac := 0)
  {
    hide Bit, And, StepAddress;
  }

  lemma ReconcileStays(s: Sys)
    ensures Reconcile(s).x == s.x && ReconcileIfQueued(s).x == s.x
  {
    hide CanService;
  }

  predicate SameProgram(d: Chan, e: Chan) {
    e.mode == d.mode && e.cb == d.cb
  }

  lemma AdvanceStays(s: Sys, c: Ch)
    ensures SameProgram(Get(s.x, c), Get(Advance(s, c).x, c))
  {
    hide CanService, Reconcile, ReconcileIfQueued, Finish, Settle;
    FinishStays(s.x, c);
    FinishStays(Settle(s.x, c), c);
    ReconcileStays(if c in s.x.stat.pend then s.(x := Finish(Settle(s.x, c), c)) else s);
  }

  lemma TransferStays(s: Sys, c: Ch)
    ensures SameProgram(Get(s.x, c), Get(Read(s, c).0.x, c)) && SameProgram(Get(s.x, c), Get(Write(s, c).0.x, c))
  {
    hide CanService, ReconcileIfQueued, Advance, Finish, Settle, Serve, KindOf, Terminal;
    AdvanceStays(s, c);
    var t := if c in s.x.stat.pend then Advance(s, c) else s;
    FinishStays(t.x, c);
    FinishStays(s.x, c);
    FinishStays(Serve(t.x, c), c);
    FinishStays(Serve(s.x, c), c);
    FinishStays(Settle(Serve(s.x, c), c), c);
    ReconcileStays(t.(x := Finish(Serve(t.x, c), c)));
    ReconcileStays(s.(x := Finish(Settle(Serve(s.x, c), c), c)));
  }

  lemma {:induction false} ModeStays(s: Sys, c: Ch, n: nat)
    ensures SameProgram(Get(s.x, c), Get(BlockTransfers(s, c, n).x, c))
  {
    hide Read, Write, KindOf, Bit;
    if n > 0 {
      ModeStays(s, c, n - 1);
      TransferStays(BlockTransfers(s, c, n - 1), c);
    }
  }

  lemma {:induction false} BufferAhead(s: Sys, c: Ch, buffer: seq<Byte>, m: seq<Byte>, n: nat)
    requires n <= |buffer|
    ensures forall k :: n <= k < |buffer| ==> BlockBuffer(s, c, buffer, m, n)[k] == buffer[k]
  {
    hide Copies, ReadValue, BlockTransfers;
    if n > 0 {
      BufferAhead(s, c, buffer, m, n - 1);
    }
  }

  lemma {:induction false} ReadsLeaveMemory(s: Sys, c: Ch, buffer: seq<Byte>, m: seq<Byte>, n: nat)
    requires n <= |buffer| && KindOf(Get(s.x, c).mode) != WriteMem
    ensures BlockMem(s, c, buffer, m, n) == m
  {
    hide KindOf, Bit, Written, BlockTransfers;
    if n > 0 {
      ReadsLeaveMemory(s, c, buffer, m, n - 1);
      ModeStays(s, c, n - 1);
    }
  }

  lemma RemainingFalls(x: Xt)
    ensures Remaining(CopyByte(x)) < Remaining(x) || !CopyGoesOn(CopyAdvance(x), CopyByte(x))
  {
    hide CanService;
  }
}
