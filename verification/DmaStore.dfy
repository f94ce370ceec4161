/** A block of bytes or words laid into memory along the addresses a channel walks. */
module DmaStore {
  import opened Bits
  import opened PhysMem
  import opened DmaXt
  import opened DmaRun

  /** One item at an address: a byte, or a word low byte first. */
  function DataAt(g: Geometry, m: seq<Byte>, a: nat): Word {
    if g.wide then WordAt(m, a) else At(m, a)
  }

  function WithData(g: Geometry, m: seq<Byte>, a: nat, v: Word): (r: seq<Byte>)
    ensures |r| == |m|
  {
    if g.wide then WithWord(m, a, v) else With(m, a, v % 0x100)
  }

  /** Memory after the items have been stored one after the other. */
  function Laid(m: seq<Byte>, d: Chan, g: Geometry, vals: seq<Word>): (r: seq<Byte>)
    ensures |r| == |m|
  {
    if vals == [] then m
    else
      var n := |vals| - 1;
      WithData(g, Laid(m, d, g, vals[..n]), Walk(d, g, n), vals[n])
  }

  /** The channel's page lies in memory. */
  predicate Mapped(d: Chan, g: Geometry, m: seq<Byte>) {
    d.ab / Unit(g) * Unit(g) + Unit(g) <= |m| <= ADDRESSES
  }

  /** Words start at even addresses. */
  predicate Aligned(d: Chan, g: Geometry) {
    g.wide ==> d.ab % 2 == 0
  }

  /** The items have the channel's width. */
  predicate Fits(g: Geometry, vals: seq<Word>) {
    g.wide || forall k :: 0 <= k < |vals| ==> vals[k] < 0x100
  }

  function Width(g: Geometry): nat {
    if g.wide then 2 else 1
  }

  /** Address `a` belongs to one of the first `n` items. */
  ghost predicate Covers(d: Chan, g: Geometry, n: nat, a: nat) {
    exists k: nat :: k < n && Walk(d, g, k) <= a < Walk(d, g, k) + Width(g)
  }

  lemma WalkFacts(d: Chan, g: Geometry, m: seq<Byte>, k: nat)
    requires Mapped(d, g, m) && Aligned(d, g)
    ensures Walk(d, g, k) + Width(g) <= |m| && Walk(d, g, k) % Width(g) == 0
  {
    hide And, Bit, Walk;
    WalkPage(d, g, k);
    InPage(Walk(d, g, k), d.ab, Unit(g), |m|);
    if g.wide {
      EvenWalk(d.ab % 0x2_0000, k * Delta(d, g), k, Delta(d, g));
    }
  }

  /** Same page, and as even as its place in the page. */
  lemma InPage(a: nat, b: nat, unit: nat, size: nat)
    requires (unit == 0x1_0000 || unit == 0x2_0000) && a / unit == b / unit && b / unit * unit + unit <= size
    ensures a < size && a % 2 == a % unit % 2
    ensures b % 2 == b % unit % 2
  {
    assert a == a / unit * unit + a % unit;
  }

  lemma EvenWalk(x: nat, y: int, k: nat, step: int)
    requires x % 2 == 0 && y == k * step && (step == 2 || step == -2)
    ensures (x + y) % 0x2_0000 % 2 == 0
  {
    assert y % 2 == 0 by {
      assert y == 2 * k || y == 2 * (0 - k);
    }
    assert (x + y) % 2 == 0;
  }

  /** Items at different aligned addresses do not touch each other. */
  lemma StoredOne(g: Geometry, m: seq<Byte>, a: nat, v: Word, b: nat)
    requires |m| <= ADDRESSES && a + Width(g) <= |m| && a % Width(g) == 0 && (g.wide || v < 0x100)
    ensures DataAt(g, WithData(g, m, a, v), a) == v
    ensures b + Width(g) <= |m| && b % Width(g) == 0 && b != a ==> DataAt(g, WithData(g, m, a, v), b) == DataAt(g, m, b)
    ensures b < |m| && !(a <= b < a + Width(g)) ==> At(WithData(g, m, a, v), b) == At(m, b)
  {
    hide At, With;
    if g.wide {
      var p := With(m, a, v % 0x100);
      AtWith(m, a, a, v % 0x100);
      AtWith(p, a + 1, a, v / 0x100);
      AtWith(p, a + 1, a + 1, v / 0x100);
      if b < |m| {
        AtWith(m, a, b, v % 0x100);
        AtWith(p, a + 1, b, v / 0x100);
      }
      if b + 1 < |m| {
        AtWith(m, a, b + 1, v % 0x100);
        AtWith(p, a + 1, b + 1, v / 0x100);
      }
    } else {
      AtWith(m, a, a, v % 0x100);
      if b < |m| {
        AtWith(m, a, b, v % 0x100);
      }
    }
  }

  /** A laid block reads back item by item at the walked addresses. */
  lemma {:induction false} LaidAt(m: seq<Byte>, d: Chan, g: Geometry, vals: seq<Word>, k: nat)
    requires k < |vals| <= 0x1_0000 && Mapped(d, g, m) && Aligned(d, g) && Fits(g, vals)
    ensures DataAt(g, Laid(m, d, g, vals), Walk(d, g, k)) == vals[k]
  {
    hide Walk, DataAt, WithData, Bit;
    var n := |vals| - 1;
    WalkFacts(d, g, m, n);
    WalkFacts(d, g, m, k);
    StoredOne(g, Laid(m, d, g, vals[..n]), Walk(d, g, n), vals[n], Walk(d, g, k));
    if k < n {
      LaidAt(m, d, g, vals[..n], k);
      WalkDistinct(d, g, k, n);
    }
  }

  /** Nothing else in memory changes. */
  lemma {:induction false} LaidElsewhere(m: seq<Byte>, d: Chan, g: Geometry, vals: seq<Word>, a: nat)
    requires a < |m| && Mapped(d, g, m) && Aligned(d, g) && Fits(g, vals)
    requires !Covers(d, g, |vals|, a)
    ensures At(Laid(m, d, g, vals), a) == At(m, a)
  {
    hide Walk, DataAt, WithData, Bit;
    if vals != [] {
      var n := |vals| - 1;
      LaidElsewhere(m, d, g, vals[..n], a);
      WalkFacts(d, g, m, n);
      StoredOne(g, Laid(m, d, g, vals[..n]), Walk(d, g, n), vals[n], a);
    }
  }
}
