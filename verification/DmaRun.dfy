/** A run of DMA transfers in closed form: addresses walk inside their page, counts fall to terminal count. */
module DmaRun {
  import opened Bits
  import opened Remainders
  import opened DmaXt

  /** Page size, step and the part of the address mask above the page: 64 KiB by bytes or 128 KiB by words. */
  datatype Geometry = Geometry(wide: bool, pageMask: nat)

  /** The XT's channels all move bytes. */
  function Geo(x: Xt): Geometry {
    Geometry(false, x.pageMask)
  }

  /** Which way a device moves data: out of memory or into it. */
  datatype Access = Reading | Writing

  function Unit(g: Geometry): nat {
    if g.wide then 0x2_0000 else 0x1_0000
  }

  function Delta(d: Chan, g: Geometry): int {
    (if g.wide then 2 else 1) * (if Down(d.mode) then -1 else 1)
  }

  function StepIn(d: Chan, g: Geometry): nat {
    And(d.ac / Unit(g), g.pageMask) * Unit(g) + (d.ac % Unit(g) + Delta(d, g)) % Unit(g)
  }

  /** One transfer without external end of process: step, count, and at terminal count reload if so programmed. */
  function Move(d: Chan, g: Geometry): Chan {
    if d.cc - 1 < 0 && AutoInit(d.mode) then d.(cc := d.cb, ac := d.ab) else d.(cc := d.cc - 1, ac := StepIn(d, g))
  }

  function Moves(d: Chan, g: Geometry, k: nat): Chan {
    if k == 0 then d else Move(Moves(d, g, k - 1), g)
  }

  /** Freshly programmed, with the page inside the mask. */
  predicate Loaded(d: Chan, g: Geometry) {
    d.cc == d.cb && d.ac == d.ab && And(d.ab / Unit(g), g.pageMask) == d.ab / Unit(g)
  }

  /** The base address moved `k` steps, wrapping inside its page. */
  function Walk(d: Chan, g: Geometry, k: nat): nat {
    d.ab / Unit(g) * Unit(g) + (d.ab % Unit(g) + k * Delta(d, g)) % Unit(g)
  }

  /** The walk depends on the base address, the direction and the width alone. */
  lemma WalkSame(d: Chan, g: Geometry, e: Chan, h: Geometry, k: nat)
    requires d.ab == e.ab && Down(d.mode) == Down(e.mode) && g.wide == h.wide
    ensures Walk(d, g, k) == Walk(e, h, k)
  {
    hide Bit;
    assert Delta(d, g) == Delta(e, h);
  }

  // ---- arithmetic of one page ----

  lemma PageSplit(p: nat, x: int, unit: nat)
    requires unit == 0x1_0000 || unit == 0x2_0000
    ensures (p * unit + x % unit) / unit == p && (p * unit + x % unit) % unit == x % unit
  {
  }

  lemma WrapStep(x: int, y: int, unit: nat)
    requires unit == 0x1_0000 || unit == 0x2_0000
    ensures (x % unit + y) % unit == (x + y) % unit
  {
  }

  lemma WalkPage(d: Chan, g: Geometry, k: nat)
    ensures Walk(d, g, k) / Unit(g) == d.ab / Unit(g)
    ensures Walk(d, g, k) % Unit(g) == (d.ab % Unit(g) + k * Delta(d, g)) % Unit(g)
  {
    PageSplit(d.ab / Unit(g), d.ab % Unit(g) + k * Delta(d, g), Unit(g));
  }

  lemma WalkStep(d: Chan, g: Geometry, k: nat, e: Chan)
    requires Loaded(d, g) && e.ac == Walk(d, g, k) && e.mode == d.mode
    ensures StepIn(e, g) == Walk(d, g, k + 1)
  {
    hide And, Bit;
    WalkPage(d, g, k);
    var x, y := d.ab % Unit(g) + k * Delta(d, g), Delta(d, g);
    WrapStep(x, y, Unit(g));
    assert (k + 1) * y == k * y + y;
  }

  /** The addresses of one pass are all different. */
  lemma WalkDistinct(d: Chan, g: Geometry, i: nat, j: nat)
    requires i < j < 0x1_0000
    ensures Walk(d, g, i) != Walk(d, g, j)
  {
    hide And, Bit, Walk;
    WalkPage(d, g, i);
    WalkPage(d, g, j);
    var x := d.ab % Unit(g);
    Differ(x + i * Delta(d, g), x + j * Delta(d, g), Unit(g));
  }

  lemma Differ(x: int, y: int, unit: nat)
    requires unit == 0x1_0000 || unit == 0x2_0000
    requires x != y && x - y < unit && y - x < unit
    ensures x % unit != y % unit
  {
  }

  // ---- the closed form ----

  /** Up to terminal count, and beyond it when nothing reloads, address and count simply go on. */
  lemma {:induction false} BeforeTerminal(d: Chan, g: Geometry, k: nat)
    requires Loaded(d, g) && (k <= d.cb || !AutoInit(d.mode))
    ensures Moves(d, g, k) == d.(cc := d.cb - k, ac := Walk(d, g, k))
  {
    hide Walk, StepIn, And, Bit;
    if k == 0 {
      WalkZero(d, g);
    } else {
      BeforeTerminal(d, g, k - 1);
      WalkStep(d, g, k - 1, Moves(d, g, k - 1));
    }
  }

  lemma WalkZero(d: Chan, g: Geometry)
    ensures Walk(d, g, 0) == d.ab
  {
    hide And, Bit;
    assert 0 * Delta(d, g) == 0;
  }

  /** The transfer after the count reaches zero is the terminal one: it reloads, or leaves the count at -1. */
  lemma AtTerminal(d: Chan, g: Geometry)
    requires Loaded(d, g)
    ensures Moves(d, g, d.cb + 1) == if AutoInit(d.mode) then d else d.(cc := -1, ac := Walk(d, g, d.cb + 1))
  {
    hide Walk, StepIn, And, Bit;
    BeforeTerminal(d, g, d.cb);
    WalkStep(d, g, d.cb, Moves(d, g, d.cb));
  }

  lemma {:induction false} MovesAdd(d: Chan, g: Geometry, i: nat, j: nat)
    ensures Moves(d, g, i + j) == Moves(Moves(d, g, i), g, j)
  {
    hide Move;
    if j > 0 {
      MovesAdd(d, g, i, j - 1);
    }
  }

  /** With auto-initialise the run is periodic: count and address depend on the position in the period alone. */
  lemma {:induction false} AutoInitRun(d: Chan, g: Geometry, k: nat)
    requires Loaded(d, g) && AutoInit(d.mode)
    ensures Moves(d, g, k) == d.(cc := d.cb - k % (d.cb + 1), ac := Walk(d, g, k % (d.cb + 1)))
  {
    hide Walk, StepIn, And, Bit;
    if k == 0 {
      WalkZero(d, g);
      RemainderUnique(0, d.cb + 1, 0, 0);
    } else {
      AutoInitRun(d, g, k - 1);
      NextRemainder(k - 1, d.cb + 1);
      var t := (k - 1) % (d.cb + 1);
      if t == d.cb {
        WalkZero(d, g);
      } else {
        WalkStep(d, g, t, Moves(d, g, k - 1));
      }
    }
  }

  /** How far the channel is from its base after `k` transfers: auto-initialise starts over, otherwise it goes on. */
  function Place(d: Chan, k: nat): nat {
    if AutoInit(d.mode) then k % (d.cb + 1) else k
  }

  lemma PlaceFirst(d: Chan, k: nat)
    requires k <= d.cb
    ensures Place(d, k) == k && k % (d.cb + 1) == k
  {
    hide Bit;
    RemainderUnique(k, d.cb + 1, 0, k);
  }

  lemma Placed(d: Chan, g: Geometry, k: nat)
    requires Loaded(d, g)
    ensures Moves(d, g, k) == d.(cc := d.cb - Place(d, k), ac := Walk(d, g, Place(d, k)))
    ensures Over(Moves(d, g, k)) <==> Place(d, k) >= d.cb
    ensures AutoInit(d.mode) ==> Place(d, k) <= d.cb
    ensures k <= d.cb ==> Place(d, k) == k
  {
    hide Walk, StepIn, And, Bit, Loaded, Moves;
    if k <= d.cb {
      PlaceFirst(d, k);
    }
    if AutoInit(d.mode) {
      AutoInitRun(d, g, k);
    } else {
      BeforeTerminal(d, g, k);
    }
  }

  predicate Over(d: Chan) {
    d.cc - 1 < 0
  }

  /** How many of `n` attempted transfers take place when terminal count masks the channel. */
  function Done(d: Chan, n: nat): nat {
    if AutoInit(d.mode) || n <= d.cb then n else d.cb + 1
  }

  /** Where the channel stands after `k` transfers, and when the next one is the terminal one. */
  lemma CountAt(d: Chan, g: Geometry, k: nat)
    requires Loaded(d, g) && (AutoInit(d.mode) || k <= d.cb + 1)
    ensures var e := Moves(d, g, k); e.mode == d.mode && e.cb == d.cb && e.ab == d.ab
    ensures var e, t := Moves(d, g, k), k % (d.cb + 1);
            AutoInit(d.mode) || k <= d.cb ==>
              e.ac == Walk(d, g, t) && (Over(e) <==> t == d.cb) && (k <= d.cb ==> t == k) && (k >= d.cb || t < d.cb)
  {
    hide Move, Bit, And, Walk;
    if k <= d.cb {
      RemainderUnique(k, d.cb + 1, 0, k);
    }
    if AutoInit(d.mode) {
      AutoInitRun(d, g, k);
    } else if k <= d.cb {
      BeforeTerminal(d, g, k);
    } else {
      AtTerminal(d, g);
    }
  }

  // ---- who has the bus ----

  /** A block transfer that has the bus keeps it as long as the requests and the masks stay. */
  lemma KeepsBus(x: Xt, y: Xt, c: Ch)
    requires CanService(x, c) && (c == 0 || x.ctl.soft)
    requires y.ctl == x.ctl && y.req == x.req && Get(y, c).mode == Get(x, c).mode
    ensures CanService(y, c)
  {
    hide Bit;
  }

  /** Taking the bus for a block does not hand it to another request. */
  lemma BeginKeeps(x: Xt, c: Ch)
    requires CanService(x, c) && ServiceMode(Get(x, c).mode) == Block && (c == 0 || x.ctl.soft)
    ensures CanService(Begin(x, c), c) && c in Begin(x, c).req.block
  {
    hide Bit, ServiceMode, LowestFrom, RotatingFrom;
    var y := Begin(x, c);
    var before := Requests(x) * x.ctl.enabled - x.ctl.mask;
    var live := Requests(y) * y.ctl.enabled - y.ctl.mask;
    var owner := before * (x.req.demand + x.req.block);
    assert c in live * (y.req.demand + y.req.block);
    assert c in before by { PickLive(x, c); }
    assert live == before;
    if owner == {} {
      assert live * (y.req.demand + y.req.block) == {c};
      FirstOfOne(c);
    } else {
      assert c in owner by { FirstMember(owner, 0); }
      assert live * (y.req.demand + y.req.block) == owner;
    }
  }

  lemma PickLive(x: Xt, c: Ch)
    requires Pick(x, Requests(x)) == c
    ensures c in Requests(x) * x.ctl.enabled - x.ctl.mask
  {
    hide Bit;
  }

  lemma ServedUnmasked(x: Xt, c: Ch)
    requires CanService(x, c)
    ensures c !in x.ctl.mask
  {
    hide Bit, LowestFrom, RotatingFrom;
  }

  lemma FirstOfOne(c: Ch)
    ensures LowestFrom({c}, 0) == c
  {
  }

  lemma {:induction false} FirstMember(s: set<Ch>, i: nat)
    ensures LowestFrom(s, i) == -1 || LowestFrom(s, i) in s
    decreases 4 - i
  {
    if i < 4 && i !in s {
      FirstMember(s, i + 1);
    }
  }
}
