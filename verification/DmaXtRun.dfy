/** Runs of transfers on one device channel of the XT controller, from its programming on. */
module DmaXtRun {
  import opened Bits
  import opened DmaXt
  import opened DmaRun
  import opened DmaRefresh
  import opened DmaProtocol

  function Try(s: Sys, c: Ch, a: Access): (Sys, Outcome) {
    if a == Reading then Read(s, c) else Write(s, c)
  }

  function After(s: Sys, c: Ch, a: Access, n: nat): Sys {
    if n == 0 then s else Try(After(s, c, a, n - 1), c, a).0
  }

  predicate Suits(k: Kind, a: Access) {
    k == Verify || k == if a == Reading then ReadMem else WriteMem
  }

  /** A device channel with its request up, nothing peeked at and no external end of process. */
  predicate Requesting(x: Xt, c: Ch) {
    && c != 0 && !x.ctl.soft && !Disabled(x) && c in x.ctl.enabled
    && c in x.req.drq && c !in x.req.eop && c !in x.stat.pend
    && ServiceMode(Get(x, c).mode) != Cascade
  }

  predicate Fresh(s: Sys, c: Ch, a: Access) {
    && Requesting(s.x, c) && c !in s.x.ctl.mask
    && Suits(KindOf(Get(s.x, c).mode), a) && Loaded(Get(s.x, c), Geo(s.x))
  }

  /** Neither refresh nor the other devices hold up a hardware transfer: only the mask does. */
  lemma RequestingServed(x: Xt, c: Ch)
    requires Requesting(x, c)
    ensures CanService(x, c) <==> c !in x.ctl.mask
  {
    hide Bit, ServiceMode;
    var seen := Requests(x) * {c};
    if c !in x.ctl.mask {
      var live := seen * x.ctl.enabled - x.ctl.mask;
      assert c in live && live == {c};
      OnlyOne(c, x.req.last);
      var owner := live * (x.req.demand + x.req.block);
      if owner != {} {
        assert owner == {c};
      }
    }
  }

  lemma OnlyOne(c: Ch, last: Ch)
    ensures LowestFrom({c}, 0) == c && RotatingFrom({c}, last, 1) == c
  {
  }

  /** The usual programming of a channel: clear the flip-flop, then address and count, low byte first. */
  function Programmed(x: Xt, c: Ch, a0: Byte, a1: Byte, n0: Byte, n1: Byte): Xt {
    var y := Program(Program(Program(x, 12, 0, false), 2 * c, a0, false), 2 * c, a1, false);
    Program(Program(y, 2 * c + 1, n0, false), 2 * c + 1, n1, false)
  }

  /** It loads the base and current registers alike, inside the page the channel already had. */
  lemma ProgrammedLoads(x: Xt, c: Ch, a0: Byte, a1: Byte, n0: Byte, n1: Byte)
    ensures var y, d := Programmed(x, c, a0, a1, n0, n1), Get(x, c);
            && Get(y, c).ab == And(d.ab / 0x1_0000, x.pageMask) * 0x1_0000 + a1 * 0x100 + a0
            && Get(y, c).cb == n1 * 0x100 + n0 && Get(y, c).mode == d.mode
            && Loaded(Get(y, c), Geo(y)) && OthersSame(x, y, c)
  {
    hide And, Bit, Program, OthersSame;
    var w := Program(x, 12, 0, false);
    FlipFlopCleared(x, c);
    var u := Program(w, 2 * c, a0, false);
    AddressByte(w, c, a0);
    var v := Program(u, 2 * c, a1, false);
    AddressByte(u, c, a1);
    CountByte(v, c, n0);
    var y := Program(v, 2 * c + 1, n0, false);
    CountByte(y, c, n1);
    OthersChain(x, w, u, v, y, Program(y, 2 * c + 1, n1, false), c);
    AndKeepsMasked(Get(x, c).ab / 0x1_0000, x.pageMask);
    TwoBytes(And(Get(x, c).ab / 0x1_0000, x.pageMask), Get(x, c).ab, a0, a1);
  }

  lemma FlipFlopCleared(x: Xt, c: Ch)
    ensures var w := Program(x, 12, 0, false);
            Get(w, c) == Get(x, c) && !w.ctl.flipFlop && OthersSame(x, w, c)
  {
    hide Bit;
  }

  lemma AddressByte(x: Xt, c: Ch, v: Byte)
    ensures var y, d := Program(x, 2 * c, v, false), Get(x, c);
            var a := And(d.ab / 0x1_0000, x.pageMask) * 0x1_0000 + SetByte(d.ab, x.ctl.flipFlop, v);
            Get(y, c) == d.(ab := a, ac := a) && y.ctl.flipFlop == !x.ctl.flipFlop && OthersSame(x, y, c)
  {
    hide And, Bit, SetByte;
  }

  lemma CountByte(x: Xt, c: Ch, v: Byte)
    ensures var y, d := Program(x, 2 * c + 1, v, false), Get(x, c);
            var n := SetByte(d.cb, x.ctl.flipFlop, v);
            Get(y, c) == d.(cb := n, cc := n) && y.ctl.flipFlop == !x.ctl.flipFlop && OthersSame(x, y, c)
  {
    hide And, Bit, SetByte;
  }

  lemma OthersChain(x: Xt, w: Xt, u: Xt, v: Xt, y: Xt, z: Xt, c: Ch)
    requires OthersSame(x, w, c) && OthersSame(w, u, c) && OthersSame(u, v, c) && OthersSame(v, y, c) && OthersSame(y, z, c)
    ensures OthersSame(x, z, c) && z.pageMask == y.pageMask == v.pageMask == u.pageMask == w.pageMask == x.pageMask
  {
    hide Get;
  }

  /** Low byte, then high byte, under a page that the mask leaves alone. */
  lemma TwoBytes(page: nat, old_: nat, a0: Byte, a1: Byte)
    ensures var u := page * 0x1_0000 + SetByte(old_, false, a0);
            u / 0x1_0000 == page && SetByte(u, true, a1) == a1 * 0x100 + a0
    ensures (page * 0x1_0000 + a1 * 0x100 + a0) / 0x1_0000 == page
  {
    var k := old_ / 0x100 % 0x100;
    LowByte(page * 0x100 + k, a0);
    HighPart(page, k * 0x100 + a0);
    HighPart(page, a1 * 0x100 + a0);
  }

  lemma LowByte(n: nat, a: Byte)
    ensures (n * 0x100 + a) % 0x100 == a
  {
  }

  lemma HighPart(page: nat, w: Word)
    ensures (page * 0x1_0000 + w) / 0x1_0000 == page
  {
  }

  // ---- one transfer ----

  predicate OthersSame(x: Xt, y: Xt, c: Ch) {
    y.pageMask == x.pageMask && forall e: Ch :: e != c ==> Get(y, e) == Get(x, e)
  }

  /** The registers after serving and finishing one transfer. */
  lemma ServedOnce(x: Xt, c: Ch)
    requires Requesting(x, c) && c !in x.ctl.mask
    ensures var d, y := Get(x, c), Finish(Serve(x, c), c);
            && Get(y, c) == Move(d, Geo(x)) && OthersSame(x, y, c) && Requesting(y, c)
            && (c in y.ctl.mask <==> Over(d) && !AutoInit(d.mode))
            && (c in y.stat.tc <==> Over(d) || c in x.stat.tc)
            && (Terminal(Serve(x, c), c) <==> Over(d))
  {
    hide Bit, And, ServiceMode;
    var z := AdvanceAddress(Begin(x, c), c);
    assert Get(z, c) == StepChan(Get(x, c), x.pageMask);
    assert StepChan(Get(x, c), x.pageMask).ac == StepIn(Get(x, c), Geo(x));
  }

  lemma SettleNothing(x: Xt, c: Ch)
    requires c !in x.stat.pend
    ensures Settle(x, c) == x
  {
  }

  lemma ServeKeepsPend(x: Xt, c: Ch)
    ensures Serve(x, c).stat.pend == x.stat.pend
  {
  }

  lemma TransferEffect(s: Sys, c: Ch, a: Access)
    requires Matched(s) && Requesting(s.x, c) && c !in s.x.ctl.mask && Suits(KindOf(Get(s.x, c).mode), a)
    ensures var d, t := Get(s.x, c), Try(s, c, a).0;
            && Try(s, c, a).1 == Moved(d.ac, KindOf(d.mode) == Verify, Over(d))
            && Get(t.x, c) == Move(d, Geo(s.x)) && OthersSame(s.x, t.x, c) && Requesting(t.x, c) && Matched(t)
            && (c in t.x.ctl.mask <==> Over(d) && !AutoInit(d.mode))
            && (c in t.x.stat.tc <==> Over(d) || c in s.x.stat.tc)
  {
    hide Bit, And, CanService, Requesting, Finish, Serve, Move, Over, Terminal, ReconcileIfQueued, Matched, OthersSame;
    RequestingServed(s.x, c);
    Unpended(s.x, c);
    ServedOnce(s.x, c);
    ServeKeepsPend(s.x, c);
    SettleNothing(Serve(s.x, c), c);
    FinishMatched(s, Finish(Serve(s.x, c), c));
    MaybeReconcileSound(s.(x := Finish(Serve(s.x, c), c)));
  }

  lemma FinishMatched(s: Sys, y: Xt)
    requires Matched(s)
    ensures Matched(s.(x := y))
  {
  }

  lemma Unpended(x: Xt, c: Ch)
    requires Requesting(x, c)
    ensures c != 0 && c !in x.stat.pend
  {
  }

  lemma TransferRefused(s: Sys, c: Ch, a: Access)
    requires Requesting(s.x, c) && c in s.x.ctl.mask
    ensures Try(s, c, a) == (s, NoData)
  {
    hide Bit, And, Requesting;
    RequestingServed(s.x, c);
    Unpended(s.x, c);
  }

  // ---- a run ----

  /** Where channel `c` stands after `n` attempts, and that the others have not moved. */
  predicate Reached(s: Sys, t: Sys, c: Ch, n: nat) {
    var d := Get(s.x, c);
    && Get(t.x, c) == Moves(d, Geo(s.x), Done(d, n)) && OthersSame(s.x, t.x, c) && Requesting(t.x, c) && Matched(t)
    && (c in t.x.ctl.mask <==> !AutoInit(d.mode) && n > d.cb)
    && (c in t.x.stat.tc <==> n > d.cb || c in s.x.stat.tc)
  }

  lemma {:induction false} RunReached(s: Sys, c: Ch, a: Access, n: nat)
    requires Matched(s) && Fresh(s, c, a)
    ensures Reached(s, After(s, c, a, n), c, n)
  {
    hide Try, Reached, Matched, Requesting, Loaded;
    if n == 0 {
      StartReached(s, c, a);
    } else {
      RunReached(s, c, a, n - 1);
      NextReached(s, After(s, c, a, n - 1), c, a, n - 1);
    }
  }

  lemma StartReached(s: Sys, c: Ch, a: Access)
    requires Matched(s) && Fresh(s, c, a)
    ensures Reached(s, s, c, 0)
  {
    hide Bit, And, Move;
  }

  lemma NextReached(s: Sys, t: Sys, c: Ch, a: Access, n: nat)
    requires Fresh(s, c, a) && Reached(s, t, c, n)
    ensures Reached(s, Try(t, c, a).0, c, n + 1)
  {
    hide Bit, And, Try, Loaded, Move, Over, Matched, Requesting;
    var d := Get(s.x, c);
    CountAt(d, Geo(s.x), Done(d, n));
    if c in t.x.ctl.mask {
      TransferRefused(t, c, a);
    } else {
      TransferEffect(t, c, a);
    }
  }

  /**
   With its request held, a device channel moves the byte at the base address advanced by its place in the
   period, reports terminal count on the last transfer of each period and on no other, and is refused from
   then on unless it auto-initialises. The other channels, the refresh channel among them, do not move.
   */
  lemma RunResult(s: Sys, c: Ch, a: Access, n: nat)
    requires Matched(s) && Fresh(s, c, a)
    ensures var d, o := Get(s.x, c), Try(After(s, c, a, n), c, a).1;
            o == if AutoInit(d.mode) || n <= d.cb
                 then Moved(Walk(d, Geo(s.x), n % (d.cb + 1)), KindOf(d.mode) == Verify, n % (d.cb + 1) == d.cb)
                 else NoData
    ensures OthersSame(s.x, After(s, c, a, n).x, c)
  {
    hide Bit, And, Try, Loaded, Move, Over, Matched, Requesting, Walk, After, OthersSame;
    RunReached(s, c, a, n);
    var d, t := Get(s.x, c), After(s, c, a, n);
    CountAt(d, Geo(s.x), Done(d, n));
    if c in t.x.ctl.mask {
      TransferRefused(t, c, a);
    } else {
      TransferEffect(t, c, a);
    }
  }

  /** A peek followed by an advance is one read. */
  lemma PeekThenAdvance(s: Sys, c: Ch)
    requires c != 0 && c !in s.x.stat.pend && CanService(s.x, c) && Suits(KindOf(Get(s.x, c).mode), Reading)
    ensures Advance(ReadOnly(s, c).0, c) == Read(s, c).0
  {
    hide CanService, ReconcileIfQueued, StepAddress, KindOf, ServiceMode, Bit, Finish;
    var y := Serve(s.x, c);
    ServeKeepsPend(s.x, c);
    assert Settle(y.(stat := y.stat.(pend := y.stat.pend + {c})), c) == y;
  }

  lemma ReconcileX(s: Sys)
    ensures Reconcile(s).x == s.x && ReconcileIfQueued(s).x == s.x && SameLatch(s, Reconcile(s))
    ensures SameLatch(s, ReconcileIfQueued(s))
  {
    hide CanService;
  }
}
