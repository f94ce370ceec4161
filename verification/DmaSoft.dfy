/** A block transfer that software requests on the XT controller, between memory and the transfer buffer. */
module DmaSoft {
  import opened Bits
  import opened PhysMem
  import opened DmaXt
  import opened DmaRun
  import opened DmaStore
  import opened DmaRefresh
  import opened DmaXtRun

  /** Served under a software request, in block mode, with nothing peeked at and no external end of process. */
  predicate Blocking(x: Xt, c: Ch) {
    && x.ctl.soft && CanService(x, c) && ServiceMode(Get(x, c).mode) == Block
    && c !in x.req.eop && c !in x.stat.pend
  }

  predicate Carries(d: Chan, a: Access) {
    KindOf(d.mode) == if a == Reading then ReadMem else WriteMem
  }

  /** How the terminal transfer leaves the controller. */
  predicate Ended(x: Xt, y: Xt, c: Ch) {
    && c in y.stat.tc && c !in y.req.sw && c !in y.req.block && c !in y.req.demand && c !in y.req.dack
    && y.ctl == if AutoInit(Get(x, c).mode) then x.ctl else x.ctl.(mask := x.ctl.mask + {c})
  }

  lemma BlockModeBit(mode: Byte)
    requires ServiceMode(mode) == Block
    ensures Bit(mode, 7)
  {
    TopBit(mode, 7);
  }

  lemma {:induction false} TopBit(v: nat, k: nat)
    requires Pow2(k) <= v < 2 * Pow2(k)
    ensures Bit(v, k)
  {
    if k > 0 {
      TopBit(v / 2, k - 1);
    }
  }

  // ---- one transfer ----

  lemma ServeBlocking(x: Xt, c: Ch)
    requires Blocking(x, c)
    ensures var d, y := Get(x, c), Finish(Serve(x, c), c);
            && Get(y, c) == Move(d, Geo(x)) && OthersSame(x, y, c)
            && (Terminal(Serve(x, c), c) <==> Over(d))
            && (!Over(d) ==> Blocking(y, c) && y.ctl == x.ctl && (c in y.stat.tc <==> c in x.stat.tc))
            && (Over(d) ==> Ended(x, y, c))
  {
    hide Bit, And, ServiceMode, CanService;
    var z, y := AdvanceAddress(Begin(x, c), c), Finish(Serve(x, c), c);
    assert Get(z, c) == StepChan(Get(x, c), x.pageMask);
    assert StepChan(Get(x, c), x.pageMask).ac == StepIn(Get(x, c), Geo(x));
    BeginKeeps(x, c);
    if !Over(Get(x, c)) {
      KeepsBus(Begin(x, c), y, c);
    }
  }

  lemma BlockStep(s: Sys, c: Ch, a: Access)
    requires Blocking(s.x, c) && Carries(Get(s.x, c), a)
    ensures var d, t := Get(s.x, c), Try(s, c, a).0.x;
            && Try(s, c, a).1 == Moved(d.ac, false, Over(d))
            && Get(t, c) == Move(d, Geo(s.x)) && OthersSame(s.x, t, c)
            && (!Over(d) ==> Blocking(t, c) && t.ctl == s.x.ctl && (c in t.stat.tc <==> c in s.x.stat.tc))
            && (Over(d) ==> Ended(s.x, t, c))
  {
    hide Bit, And, CanService, Finish, Serve, Move, Over, Terminal, Reconcile, ServiceMode, OthersSame, Ended;
    ServeBlocking(s.x, c);
    ServeKeepsPend(s.x, c);
    SettleNothing(Serve(s.x, c), c);
    ReconcileX(s.(x := Finish(Serve(s.x, c), c)));
  }

  // ---- the block ----

  /** After `k` transfers of a block. */
  predicate Along(x: Xt, y: Xt, c: Ch, k: nat) {
    var d := Get(x, c);
    && Get(y, c) == Moves(d, Geo(x), k) && OthersSame(x, y, c) && y.pageMask == x.pageMask
    && (k <= d.cb ==> Blocking(y, c) && y.ctl == x.ctl && (c in y.stat.tc <==> c in x.stat.tc))
    && (k == d.cb + 1 ==> Ended(x, y, c))
  }

  lemma {:induction false} BlockAlong(s: Sys, c: Ch, a: Access, k: nat)
    requires Blocking(s.x, c) && Carries(Get(s.x, c), a) && Loaded(Get(s.x, c), Geo(s.x)) && k <= Get(s.x, c).cb + 1
    ensures Along(s.x, BlockTransfers(s, c, k).x, c, k)
    ensures k > 0 ==> BlockTransfers(s, c, k) == Try(BlockTransfers(s, c, k - 1), c, a).0
  {
    hide Bit, And, CanService, ServiceMode, Move, Over, Read, Write, OthersSame, Ended;
    if k > 0 {
      BlockAlong(s, c, a, k - 1);
      var t, d := BlockTransfers(s, c, k - 1), Get(s.x, c);
      Placed(d, Geo(s.x), k - 1);
      PlaceFirst(d, k - 1);
      BlockModeBit(d.mode);
      BlockStep(t, c, a);
      OthersOf(s.x, t.x, Try(t, c, a).0.x, c);
      EndedOf(s.x, t.x, Try(t, c, a).0.x, c);
    } else {
      OthersSelf(s.x, c);
    }
  }

  lemma OthersSelf(x: Xt, c: Ch)
    ensures OthersSame(x, x, c)
  {
  }

  lemma OthersOf(x: Xt, y: Xt, z: Xt, c: Ch)
    requires OthersSame(x, y, c) && OthersSame(y, z, c)
    ensures OthersSame(x, z, c)
  {
  }

  lemma OthersKept(x: Xt, y: Xt, u: Xt, v: Xt, c: Ch)
    requires OthersSame(x, y, c) && u.pageMask == x.pageMask && v.pageMask == y.pageMask
    requires u.c0 == x.c0 && u.c1 == x.c1 && u.c2 == x.c2 && u.c3 == x.c3
    requires v.c0 == y.c0 && v.c1 == y.c1 && v.c2 == y.c2 && v.c3 == y.c3
    ensures OthersSame(u, v, c)
  {
    forall e: Ch | e != c ensures Get(v, e) == Get(u, e) {
      assert Get(y, e) == Get(x, e);
    }
  }

  lemma EndedOf(x: Xt, y: Xt, z: Xt, c: Ch)
    requires y.ctl == x.ctl && Get(y, c).mode == Get(x, c).mode
    ensures Ended(x, z, c) == Ended(y, z, c)
  {
    hide Bit;
  }

  /**
   The transfers a software request makes on a block-mode channel that can be served: at the base address and its
   successors in the page, with terminal count on transfer `cb` and on none before. Whether the loop that makes them
   comes back is another matter, see `BlockReturns`.
   */
  lemma SoftTransfers(s: Sys, c: Ch, a: Access, k: nat)
    requires Blocking(s.x, c) && Carries(Get(s.x, c), a) && Loaded(Get(s.x, c), Geo(s.x)) && k <= Get(s.x, c).cb
    ensures var d := Get(s.x, c);
            Try(BlockTransfers(s, c, k), c, a).1 == Moved(Walk(d, Geo(s.x), k), false, k == d.cb)
  {
    hide Bit, And, CanService, ServiceMode, Move, Over, Read, Write, OthersSame, Ended, Walk, BlockTransfers;
    BlockAlong(s, c, a, k);
    Placed(Get(s.x, c), Geo(s.x), k);
    PlaceFirst(Get(s.x, c), k);
    BlockStep(BlockTransfers(s, c, k), c, a);
  }

  /** The buffer's bytes laid into memory. */
  lemma {:induction false} SoftStored(s: Sys, c: Ch, buffer: seq<Byte>, m: seq<Byte>, n: nat)
    requires Blocking(s.x, c) && Carries(Get(s.x, c), Writing) && Loaded(Get(s.x, c), Geo(s.x))
    requires n <= Get(s.x, c).cb + 1 && n <= |buffer|
    ensures BlockMem(s, c, buffer, m, n) == Laid(m, Get(s.x, c), Geo(s.x), buffer[..n])
  {
    hide Bit, And, CanService, ServiceMode, Moves, Read, Write, OthersSame, Ended, Walk, BlockTransfers, Loaded;
    if n > 0 {
      SoftStored(s, c, buffer, m, n - 1);
      BlockAlong(s, c, Writing, n - 1);
      SoftTransfers(s, c, Writing, n - 1);
      BlockModeBit(Get(s.x, c).mode);
      Placed(Get(s.x, c), Geo(s.x), n - 1);
      assert buffer[..n][..n - 1] == buffer[..n - 1];
    }
  }

  /** Memory's bytes in the buffer, and the rest of the buffer untouched. */
  lemma {:induction false} SoftFetched(s: Sys, c: Ch, buffer: seq<Byte>, m: seq<Byte>, n: nat)
    requires Blocking(s.x, c) && Carries(Get(s.x, c), Reading) && Loaded(Get(s.x, c), Geo(s.x))
    requires n <= Get(s.x, c).cb + 1 && n <= |buffer|
    ensures forall k: nat :: k < n ==> BlockBuffer(s, c, buffer, m, n)[k] == At(m, Walk(Get(s.x, c), Geo(s.x), k))
    ensures forall k :: n <= k < |buffer| ==> BlockBuffer(s, c, buffer, m, n)[k] == buffer[k]
  {
    hide Bit, And, At, CanService, ServiceMode, Moves, Read, Write, OthersSame, Ended, Walk, BlockTransfers, Loaded;
    if n > 0 {
      SoftFetched(s, c, buffer, m, n - 1);
      BlockAlong(s, c, Reading, n - 1);
      SoftTransfers(s, c, Reading, n - 1);
      BlockModeBit(Get(s.x, c).mode);
      Placed(Get(s.x, c), Geo(s.x), n - 1);
    }
  }

  /**
   The loop's sixteen-bit index is compared with the count: it leaves, after one round more than the count, if and only
   if the count is not FFFFh.
   */
  lemma BlockReturns(cb: Word, n: nat)
    ensures (forall k: nat :: k < n ==> k % 0x1_0000 <= cb) && n % 0x1_0000 > cb <==> cb < 0xffff && n == cb + 1
  {
    if n > cb + 1 && cb < 0xffff {
      assert (cb + 1) % 0x1_0000 == cb + 1;
    }
  }

  // ---- the request register ----

  /** The state a request for channel `c` is served in. */
  function Requested(s: Sys, c: Ch): Sys {
    SetSoft(s.(x := s.x.(req := s.x.req.(sw := s.x.req.sw + {c}))), true)
  }

  /**
   The whole request, for a count the loop comes back from: the channel ends past its last byte or reloaded, flagged, masked unless it reloads, and with its
   request and its hold on the bus withdrawn; the other channels do not move.
   */
  lemma SoftBlock(s: Sys, v: Byte, a: Access)
    requires AsksBlock(s, v) && Blocking(Requested(s, v % 4).x, v % 4)
    requires Carries(Get(s.x, v % 4), a) && Loaded(Get(s.x, v % 4), Geo(s.x)) && Get(s.x, v % 4).cb < 0xffff
    ensures var t, d: Chan, c: Ch := SoftRequest(s, v), Get(s.x, v % 4), v % 4;
            && Get(t.x, c) == (if AutoInit(d.mode) then d else d.(cc := -1, ac := Walk(d, Geo(s.x), d.cb + 1)))
            && OthersSame(s.x, t.x, c)
            && c in t.x.stat.tc && c !in t.x.req.sw && c !in t.x.req.block && c !in t.x.req.demand && c !in t.x.req.dack
            && (c in t.x.ctl.mask <==> !AutoInit(d.mode)) && !t.x.ctl.soft
  {
    hide Bit, And, CanService, ServiceMode, Moves, Read, Write, Walk, BlockTransfers, Loaded, MemToMem;
    var c: Ch := v % 4;
    BlockAlong(Requested(s, c), c, a, Get(s.x, c).cb + 1);
    AtTerminal(Get(s.x, c), Geo(s.x));
    ServedUnmasked(Requested(s, c).x, c);
    OthersKept(Requested(s, c).x, BlockTransfers(Requested(s, c), c, Get(s.x, c).cb + 1).x, s.x, SoftRequest(s, v).x, c);
  }

  /** A channel that cannot be served, is in another mode or only verifies: the request is noted and nothing moves. */
  lemma {:induction false} NothingToDo(s: Sys, c: Ch, n: nat)
    requires c !in s.x.stat.pend
    requires !CanService(s.x, c) || !Bit(Get(s.x, c).mode, 7) || KindOf(Get(s.x, c).mode) in {Verify, Illegal}
    ensures BlockTransfers(s, c, n) == s
  {
    hide Bit, CanService, Complete;
    if n > 0 {
      NothingToDo(s, c, n - 1);
    }
  }
}
