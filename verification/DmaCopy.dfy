/** Memory-to-memory transfers on the XT controller: how many bytes move, from where to where. */
module DmaCopy {
  import opened Bits
  import opened PhysMem
  import opened DmaXt
  import opened DmaRun
  import opened DmaRefresh

  /** Bytes moved by the loop entered with registers `x`. */
  function LoopCount(x: Xt): nat
    decreases Remaining(x)
  {
    var y := CopyByte(x);
    if CopyGoesOn(CopyAdvance(x), y) then 1 + LoopCount(y) else 1
  }

  function CopyCount(x: Xt): nat {
    if CopyStarts(x) then LoopCount(CopyStart(x)) else 0
  }

  predicate Hold(x: Xt) {
    Bit(x.ctl.command, 1)
  }

  /** The channel as if it had been programmed where it stands. */
  function Based(d: Chan): Chan {
    d.(ab := d.ac)
  }

  /** The address of byte `k` on each side; with hold the source stays. */
  function Source(x: Xt, k: nat): nat {
    if Hold(x) then x.c0.ac else Walk(Based(x.c0), Geo(x), k)
  }

  function Target(x: Xt, k: nat): nat {
    Walk(Based(x.c1), Geo(x), k)
  }

  /** Memory after the first `n` bytes have been copied one after the other. */
  function Copied(m: seq<Byte>, x: Xt, n: nat): (r: seq<Byte>)
    ensures |r| == |m|
  {
    if n == 0 then m
    else
      var p := Copied(m, x, n - 1);
      With(p, Target(x, n - 1), At(p, Source(x, n - 1)))
  }

  predicate Paged(x: Xt) {
    && And(x.c0.ac / 0x1_0000, x.pageMask) == x.c0.ac / 0x1_0000
    && And(x.c1.ac / 0x1_0000, x.pageMask) == x.c1.ac / 0x1_0000
  }

  // ---- the registers during the loop ----

  /** After `k` bytes, none of them the last: addresses and count moved, nothing else. */
  function During(x: Xt, k: nat): Xt {
    x.(c0 := x.c0.(ac := Source(x, k)), c1 := x.c1.(ac := Target(x, k), cc := x.c1.cc - k))
  }

  lemma DuringStart(x: Xt)
    ensures During(x, 0) == x
  {
    hide And, Bit;
    WalkZero(Based(x.c0), Geo(x));
    WalkZero(Based(x.c1), Geo(x));
  }

  lemma DuringStep(x: Xt, k: nat)
    requires Paged(x)
    ensures var y := CopyAdvance(During(x, k));
            y == During(x, k + 1).(c1 := During(x, k + 1).c1.(cc := x.c1.cc - k))
  {
    hide And, Walk;
    if !Hold(x) {
      StepsAlong(x.c0, x, k, During(x, k).c0);
    }
    StepsAlong(x.c1, x, k, During(x, k).c1);
  }

  lemma StepsAlong(d: Chan, x: Xt, k: nat, e: Chan)
    requires And(d.ac / 0x1_0000, x.pageMask) == d.ac / 0x1_0000
    requires e.ac == Walk(Based(d), Geo(x), k) && e.mode == d.mode
    ensures StepChan(e, x.pageMask).ac == Walk(Based(d), Geo(x), k + 1)
  {
    hide And, Walk, Bit;
    var b := Based(d).(cc := d.cb);
    WalkSame(Based(d), Geo(x), b, Geo(x), k);
    WalkSame(Based(d), Geo(x), b, Geo(x), k + 1);
    WalkStep(b, Geo(x), k, e);
  }

  // ---- how far it goes ----

  /** The state in which a running block copy is between bytes. */
  predicate Running(x: Xt) {
    && CanService(x, 0) && 0 in x.req.block && ServiceMode(x.c0.mode) == Block && 1 !in x.req.eop && Paged(x)
  }

  lemma GoesOn(x: Xt, k: nat)
    requires Running(x) && k < x.c1.cc
    ensures CopyByte(During(x, k)) == During(x, k + 1)
    ensures CopyGoesOn(CopyAdvance(During(x, k)), CopyByte(During(x, k)))
  {
    hide And, Walk, CopyAdvance, CanService, Paged, ServiceMode, Bit;
    DuringStep(x, k);
    KeepsBus(x, During(x, k + 1), 0);
  }

  lemma {:induction false} LoopFrom(x: Xt, k: nat)
    requires Running(x) && (k == 0 || k <= x.c1.cc)
    ensures LoopCount(During(x, k)) + k == if x.c1.cc < 0 then 1 else x.c1.cc + 1
    decreases Remaining(x) - k
  {
    hide CopyByte, CopyAdvance, Walk, Paged, CanService, And, Bit, ServiceMode;
    DuringStep(x, k);
    if k < x.c1.cc {
      GoesOn(x, k);
      LoopFrom(x, k + 1);
    }
  }

  /**
   A serviceable block copy without external end of process moves exactly one byte more than the destination
   count, whatever the source's own count says.
   */
  lemma BlockCount(x: Xt)
    requires CopyStarts(x) && ServiceMode(x.c0.mode) == Block && 1 !in x.req.eop && Paged(x)
    ensures CopyCount(x) == if x.c1.cc < 0 then 1 else x.c1.cc + 1
  {
    hide LoopCount, Walk, And, Bit, CanService;
    BeginKeeps(x, 0);
    var y := CopyStart(x);
    DuringStart(y);
    LoopFrom(y, 0);
  }

  /** In the other modes, or with the end of process already up, one request moves one byte. */
  lemma SingleCount(x: Xt)
    requires CopyStarts(x) && (ServiceMode(x.c0.mode) != Block || 1 in x.req.eop)
    ensures CopyCount(x) == 1
  {
    hide And, CanService, Bit;
  }

  // ---- what it does to memory ----

  function ByteCopied(x: Xt, m: seq<Byte>): seq<Byte> {
    With(m, x.c1.ac, At(m, x.c0.ac))
  }

  /** Memory after the loop entered with registers `x`. */
  function LoopMem(x: Xt, m: seq<Byte>): seq<Byte>
    decreases Remaining(x)
  {
    var y := CopyByte(x);
    if CopyGoesOn(CopyAdvance(x), y) then LoopMem(y, ByteCopied(x, m)) else ByteCopied(x, m)
  }

  function CopyMem(x: Xt, m: seq<Byte>): seq<Byte> {
    if CopyStarts(x) then LoopMem(CopyStart(x), m) else m
  }

  /** The loop's result: whether its last byte met the count or the end of process. */
  predicate LoopEnds(x: Xt)
    decreases Remaining(x)
  {
    var y := CopyByte(x);
    if CopyGoesOn(CopyAdvance(x), y) then LoopEnds(y) else CopyEnds(CopyAdvance(x))
  }

  lemma ByteAt(m: seq<Byte>, x: Xt, k: nat)
    ensures ByteCopied(During(x, k), Copied(m, x, k)) == Copied(m, x, k + 1)
  {
    hide Walk, With, At;
  }

  lemma {:induction false} LoopMemFrom(x: Xt, m: seq<Byte>, k: nat)
    requires Running(x) && (k == 0 || k <= x.c1.cc)
    ensures LoopMem(During(x, k), Copied(m, x, k)) == Copied(m, x, if x.c1.cc < 0 then 1 else x.c1.cc + 1)
    ensures LoopEnds(During(x, k))
    decreases Remaining(x) - k
  {
    hide CopyByte, Walk, Paged, CanService, And, Bit, ServiceMode, Copied, ByteCopied, AdvanceAddress;
    ByteAt(m, x, k);
    DuringStep(x, k);
    if k < x.c1.cc {
      GoesOn(x, k);
      LoopMemFrom(x, m, k + 1);
    }
  }

  lemma StartSame(x: Xt)
    ensures forall k :: Source(CopyStart(x), k) == Source(x, k) && Target(CopyStart(x), k) == Target(x, k)
  {
    hide Walk, Bit;
  }

  lemma {:induction false} CopiedSame(m: seq<Byte>, x: Xt, y: Xt, n: nat)
    requires forall k :: Source(x, k) == Source(y, k) && Target(x, k) == Target(y, k)
    ensures Copied(m, x, n) == Copied(m, y, n)
  {
    hide Source, Target, With, At;
    if n > 0 {
      CopiedSame(m, x, y, n - 1);
    }
  }

  /** A block copy ends at terminal count with memory changed as by copying the bytes one at a time, in order. */
  lemma BlockCopies(x: Xt, m: seq<Byte>)
    requires CopyStarts(x) && ServiceMode(x.c0.mode) == Block && 1 !in x.req.eop && Paged(x)
    ensures CopyMem(x, m) == Copied(m, x, CopyCount(x)) && LoopEnds(CopyStart(x))
  {
    hide LoopCount, LoopMem, LoopEnds, Walk, And, Bit, CanService, Copied, CopyCount, CopyStart, During;
    BlockCount(x);
    BeginKeeps(x, 0);
    var y := CopyStart(x);
    StartRunning(x);
    DuringStart(y);
    CopiedZero(m, y);
    LoopMemFrom(y, m, 0);
    StartSame(x);
    CopiedSame(m, x, y, if x.c1.cc < 0 then 1 else x.c1.cc + 1);
  }

  lemma CopiedZero(m: seq<Byte>, x: Xt)
    ensures Copied(m, x, 0) == m
  {
  }

  lemma StartRunning(x: Xt)
    requires CopyStarts(x) && ServiceMode(x.c0.mode) == Block && 1 !in x.req.eop && Paged(x)
    ensures Running(CopyStart(x)) && CopyStart(x).c1 == x.c1
  {
    hide Bit, CanService, And;
    BeginKeeps(x, 0);
  }

  /** Targets of one copy are all different. */
  lemma TargetsDiffer(x: Xt, i: nat, j: nat)
    requires i < j < 0x1_0000
    ensures Target(x, i) != Target(x, j)
  {
    hide Walk;
    WalkDistinct(Based(x.c1), Geo(x), i, j);
  }

  /** Only target addresses change. */
  lemma {:induction false} CopiedFrame(m: seq<Byte>, x: Xt, n: nat, a: nat)
    requires a < |m| <= ADDRESSES && forall k: nat :: k < n ==> Target(x, k) % ADDRESSES != a
    ensures At(Copied(m, x, n), a) == At(m, a)
  {
    hide Target, Source;
    if n > 0 {
      CopiedFrame(m, x, n - 1, a);
    }
  }

  /** With source and target ranges apart, every target byte is the original source byte. */
  lemma {:induction false} CopiedDisjoint(m: seq<Byte>, x: Xt, n: nat, k: nat)
    requires k < n <= 0x1_0000 && |m| <= ADDRESSES
    requires forall i: nat :: i < n ==> Source(x, i) < |m| && Target(x, i) < |m|
    requires forall i: nat, j: nat :: i < n && j < n ==> Source(x, i) != Target(x, j)
    ensures At(Copied(m, x, n), Target(x, k)) == At(m, Source(x, k))
  {
    hide Target, Source, With, At;
    var p := Copied(m, x, n - 1);
    AtWith(p, Target(x, n - 1), Target(x, k), At(p, Source(x, n - 1)));
    if k == n - 1 {
      assert Source(x, n - 1) < |m|;
      BelowModulus(x, |m|, n - 1);
      CopiedFrame(m, x, n - 1, Source(x, n - 1));
    } else {
      CopiedDisjoint(m, x, n - 1, k);
      TargetsDiffer(x, k, n - 1);
    }
  }

  lemma BelowModulus(x: Xt, size: nat, n: nat)
    requires size <= ADDRESSES && forall i: nat :: i < n ==> Target(x, i) < size
    ensures forall i: nat :: i < n ==> Target(x, i) % ADDRESSES == Target(x, i)
  {
    hide Target;
  }

  /** With address hold the one source byte fills the whole target, unless the target runs over it. */
  lemma HoldFills(m: seq<Byte>, x: Xt, n: nat, k: nat)
    requires Hold(x) && k < n <= 0x1_0000 && |m| <= ADDRESSES && x.c0.ac < |m|
    requires forall i: nat :: i < n ==> Target(x, i) < |m| && Target(x, i) != x.c0.ac
    ensures At(Copied(m, x, n), Target(x, k)) == At(m, x.c0.ac)
  {
    hide Target, Copied, At, Bit;
    CopiedDisjoint(m, x, n, k);
  }

  // ---- how it leaves the registers ----

  lemma {:induction false} LoopLast(x: Xt, k: nat)
    requires Running(x) && (k == 0 || k <= x.c1.cc)
    ensures CopyLoop(During(x, k)) == CopyByte(During(x, if x.c1.cc < 0 then 0 else x.c1.cc))
    decreases Remaining(x) - k
  {
    hide CopyByte, Walk, Paged, CanService, And, Bit, ServiceMode, AdvanceAddress, During;
    DuringCount(x, k);
    if k < x.c1.cc {
      GoesOn(x, k);
      LoopLast(x, k + 1);
    }
  }

  lemma DuringCount(x: Xt, k: nat)
    requires Paged(x)
    ensures CopyEnds(CopyAdvance(During(x, k))) <==> x.c1.cc - k - 1 < 0 || 1 in x.req.eop
  {
    hide Walk, And, Bit;
    DuringStep(x, k);
  }

  /**
   A finished block copy flags terminal count on channel 1, releases channel 0 and its software request, and
   leaves the destination masked past its last byte or, with auto-initialise, both addresses back at their bases.
   */
  lemma BlockLeaves(x: Xt)
    requires CopyStarts(x) && ServiceMode(x.c0.mode) == Block && 1 !in x.req.eop && Paged(x)
    ensures var y, n := MemToMem(x), CopyCount(x);
            && 1 in y.stat.tc && 0 !in y.req.sw && 0 !in y.req.block && 0 !in y.req.demand && 0 !in y.req.dack
            && y.c0.cc == x.c0.cc && y.c2 == x.c2 && y.c3 == x.c3
            && (if AutoInit(x.c1.mode) then y.c1.cc == x.c1.cb && y.c1.ac == x.c1.ab && y.c0.ac == x.c0.ab
                                            && y.ctl == x.ctl
                else y.c1.cc < 0 && y.c1.ac == Target(x, n) && y.c0.ac == Source(x, n)
                     && y.ctl == x.ctl.(mask := x.ctl.mask + {1}))
  {
    hide Walk, And, Bit, CanService, CopyCount, LoopCount, CopyLoop, CopyAdvance;
    BlockCount(x);
    StartRunning(x);
    var z := CopyStart(x);
    DuringStart(z);
    LoopLast(z, 0);
    var k := if x.c1.cc < 0 then 0 else x.c1.cc;
    DuringStep(z, k);
    StartSame(x);
    assert CopyLoop(z) == CopyFinish(CopyAdvance(During(z, k)));
  }
}
