/**
 A device's bytes taken into memory along a descriptor chain: as long as none of them lands on a descriptor still to be
 read, the chain is the one the transfer found, and memory holds the bytes at the chain's addresses and is otherwise as
 it was.
 */
module DmaGather {
  import opened Bits
  import opened PhysMem
  import opened DmaScatter
  import opened DmaChain

  /** The bus address `k` bytes on. */
  function BusAddr(a: nat, k: nat): nat {
    (a + k) % ADDRESSES
  }

  /** The address of byte `k` of the chain. */
  function StreamAddr(m: seq<Byte>, s: Sg, ts: nat, mask: nat, k: nat): nat
    requires s.count > 0
    decreases k
  {
    if k < s.count || s.eot then BusAddr(s.addr, k)
    else StreamAddr(m, Next(m, s, ts, mask), ts, mask, k - s.count)
  }

  /** Address `a` holds a byte of a descriptor that a transfer of `n` bytes reads. */
  predicate Describes(m: seq<Byte>, s: Sg, ts: nat, mask: nat, n: nat, a: nat)
    requires s.count > 0
    decreases n
  {
    && s.count < n && !s.eot
    && ((a - s.ptr) % ADDRESSES < 8 || Describes(m, Next(m, s, ts, mask), ts, mask, n - s.count, a))
  }

  /** The transfer stays off the descriptors it reads. */
  ghost predicate Clear(m: seq<Byte>, s: Sg, ts: nat, mask: nat, n: nat)
    requires s.count > 0
  {
    forall k: nat :: k < Available(m, s, ts, mask, n) ==> !Describes(m, s, ts, mask, n, StreamAddr(m, s, ts, mask, k))
  }

  // ---- memories that agree on the chain ----

  ghost predicate SameDescriptors(m: seq<Byte>, p: seq<Byte>, s: Sg, ts: nat, mask: nat, n: nat)
    requires s.count > 0
  {
    forall a: nat :: a < ADDRESSES && Describes(m, s, ts, mask, n, a) ==> At(p, a) == At(m, a)
  }

  lemma AtModulo(m: seq<Byte>, a: int)
    ensures At(m, a) == At(m, a % ADDRESSES)
  {
  }

  lemma InDescriptor(ptr: nat, j: nat)
    requires j < 8
    ensures (BusAddr(ptr, j) - ptr) % ADDRESSES < 8
  {
    assert (ptr + j) % ADDRESSES == ptr + j - (ptr + j) / ADDRESSES * ADDRESSES;
    assert ((ptr + j) % ADDRESSES - ptr) % ADDRESSES == j % ADDRESSES;
  }

  lemma SameNext(m: seq<Byte>, p: seq<Byte>, s: Sg, ts: nat, mask: nat, n: nat)
    requires s.count > 0 && s.count < n && !s.eot && SameDescriptors(m, p, s, ts, mask, n)
    ensures Next(p, s, ts, mask) == Next(m, s, ts, mask)
    ensures SameDescriptors(m, p, Next(m, s, ts, mask), ts, mask, n - s.count)
  {
    hide Next, At;
    forall j: nat | j < 8 ensures At(p, BusAddr(s.ptr, j)) == At(m, BusAddr(s.ptr, j)) {
      InDescriptor(s.ptr, j);
      assert Describes(m, s, ts, mask, n, BusAddr(s.ptr, j));
    }
    SameLongs(m, p, s, ts, mask);
  }

  lemma SameByte(m: seq<Byte>, p: seq<Byte>, a: nat, j: nat)
    requires At(p, BusAddr(a, j)) == At(m, BusAddr(a, j))
    ensures At(p, a + j) == At(m, a + j)
  {
    hide At;
    AtModulo(m, a + j);
    AtModulo(p, a + j);
  }

  lemma SameLongs(m: seq<Byte>, p: seq<Byte>, s: Sg, ts: nat, mask: nat)
    requires forall j: nat :: j < 8 ==> At(p, BusAddr(s.ptr, j)) == At(m, BusAddr(s.ptr, j))
    ensures Next(p, s, ts, mask) == Next(m, s, ts, mask)
  {
    hide At, And;
    SameRange(m, p, s.ptr, 0);
    SameRange(m, p, s.ptr, 4);
  }

  lemma SameRange(m: seq<Byte>, p: seq<Byte>, a: nat, from: nat)
    requires from <= 4 && forall j: nat :: j < 8 ==> At(p, BusAddr(a, j)) == At(m, BusAddr(a, j))
    ensures Range(p, a + from, 4) == Range(m, a + from, 4)
  {
    hide At;
    var x, y := Range(p, a + from, 4), Range(m, a + from, 4);
    forall k | 0 <= k < 4 ensures x[k] == y[k] {
      SameByte(m, p, a, from + k);
      assert a + from + k == a + (from + k);
    }
  }

  /** They have the same chain. */
  lemma {:induction false} SameChain(m: seq<Byte>, p: seq<Byte>, s: Sg, ts: nat, mask: nat, n: nat)
    requires s.count > 0 && SameDescriptors(m, p, s, ts, mask, n)
    ensures Available(p, s, ts, mask, n) == Available(m, s, ts, mask, n)
    ensures Ends(p, s, ts, mask, n) == Ends(m, s, ts, mask, n)
    ensures AfterBytes(p, s, ts, mask, n) == AfterBytes(m, s, ts, mask, n)
    ensures forall a: nat :: Describes(p, s, ts, mask, n, a) == Describes(m, s, ts, mask, n, a)
    ensures forall k: nat :: k < n ==> StreamAddr(p, s, ts, mask, k) == StreamAddr(m, s, ts, mask, k)
    decreases n
  {
    hide Next, At, SameDescriptors;
    if s.count < n && !s.eot {
      SameNext(m, p, s, ts, mask, n);
      SameChain(m, p, Next(m, s, ts, mask), ts, mask, n - s.count);
    } else if s.count == n && !s.eot {
      LastBlock(m, p, s, ts, mask, n);
    }
  }

  lemma LastBlock(m: seq<Byte>, p: seq<Byte>, s: Sg, ts: nat, mask: nat, n: nat)
    requires s.count > 0 && s.count == n && !s.eot
    ensures !Ends(p, s, ts, mask, n) && !Ends(m, s, ts, mask, n)
  {
    hide Next;
  }

  // ---- one block ----

  lemma {:induction false} PutElsewhere(m: seq<Byte>, a: nat, vals: seq<Byte>, b: nat)
    requires b < ADDRESSES && forall k: nat :: k < |vals| ==> BusAddr(a, k) != b
    ensures At(PutRange(m, a, vals), b) == At(m, b)
  {
    if vals != [] {
      PutElsewhere(m, a, vals[..|vals| - 1], b);
      assert BusAddr(a, |vals| - 1) != b;
    }
  }

  /** The last byte put at an address stays there. */
  lemma {:induction false} PutLast(m: seq<Byte>, a: nat, vals: seq<Byte>, k: nat)
    requires k < |vals| && BusAddr(a, k) < |m|
    requires forall j: nat :: k < j < |vals| ==> BusAddr(a, j) != BusAddr(a, k)
    ensures At(PutRange(m, a, vals), BusAddr(a, k)) == vals[k]
  {
    if k < |vals| - 1 {
      PutLast(m, a, vals[..|vals| - 1], k);
      assert BusAddr(a, |vals| - 1) != BusAddr(a, k);
    }
  }

  // ---- the whole transfer ----

  /** No byte after byte `k` lands where it does. */
  ghost predicate LastThere(m: seq<Byte>, s: Sg, ts: nat, mask: nat, n: nat, k: nat)
    requires s.count > 0
  {
    k < n && forall j: nat :: k < j < n ==> StreamAddr(m, s, ts, mask, j) != StreamAddr(m, s, ts, mask, k)
  }

  /** The bytes lie at the chain's addresses, the last one where several land, and nothing else has changed. */
  ghost predicate Poured(m: seq<Byte>, q: seq<Byte>, s: Sg, ts: nat, mask: nat, vals: seq<Byte>)
    requires s.count > 0
  {
    var n := Available(m, s, ts, mask, |vals|);
    && |q| == |m|
    && (forall a: nat :: a < ADDRESSES && (forall k: nat :: k < n ==> StreamAddr(m, s, ts, mask, k) != a) ==> At(q, a) == At(m, a))
    && (forall k: nat {:trigger LastThere(m, s, ts, mask, n, k)} :: LastThere(m, s, ts, mask, n, k) && StreamAddr(m, s, ts, mask, k) < |m| ==>
          At(q, StreamAddr(m, s, ts, mask, k)) == vals[k])
  }

  /** The part of a transfer that ends in the first block. */
  lemma OneBlock(m: seq<Byte>, s: Sg, ts: nat, mask: nat, vals: seq<Byte>, n: nat)
    requires s.count > 0 && n == (if |vals| < s.count then |vals| else s.count) && (|vals| <= s.count || s.eot)
    ensures Poured(m, PutRange(m, s.addr, vals[..n]), s, ts, mask, vals)
  {
    hide At, PutRange, Next;
    var q := PutRange(m, s.addr, vals[..n]);
    assert Available(m, s, ts, mask, |vals|) == n;
    assert forall k: nat :: k < n ==> StreamAddr(m, s, ts, mask, k) == BusAddr(s.addr, k);
    forall a: nat | a < ADDRESSES && (forall k: nat :: k < n ==> StreamAddr(m, s, ts, mask, k) != a) ensures At(q, a) == At(m, a) {
      forall k: nat | k < n ensures BusAddr(s.addr, k) != a {
        assert StreamAddr(m, s, ts, mask, k) != a;
      }
      PutElsewhere(m, s.addr, vals[..n], a);
    }
    forall k: nat | LastThere(m, s, ts, mask, n, k) && StreamAddr(m, s, ts, mask, k) < |m|
      ensures At(q, StreamAddr(m, s, ts, mask, k)) == vals[k]
    {
      forall j: nat | k < j < n ensures BusAddr(s.addr, j) != BusAddr(s.addr, k) {
        assert StreamAddr(m, s, ts, mask, j) != StreamAddr(m, s, ts, mask, k);
      }
      PutLast(m, s.addr, vals[..n], k);
    }
  }

  /** `p` is memory after the first block and `q` after the rest of the chain. */
  ghost predicate TwoParts(m: seq<Byte>, p: seq<Byte>, q: seq<Byte>, s: Sg, ts: nat, mask: nat, vals: seq<Byte>)
    requires s.count > 0
  {
    && s.count < |vals| && !s.eot && p == PutRange(m, s.addr, vals[..s.count])
    && SameDescriptors(m, p, s, ts, mask, |vals|)
    && Poured(p, q, Next(p, s, ts, mask), ts, mask, vals[s.count..])
  }

  lemma SameRest(m: seq<Byte>, p: seq<Byte>, q: seq<Byte>, s: Sg, ts: nat, mask: nat, vals: seq<Byte>)
    requires s.count > 0 && TwoParts(m, p, q, s, ts, mask, vals)
    ensures var t, rest := Next(m, s, ts, mask), |vals| - s.count;
            && Next(p, s, ts, mask) == t
            && Available(m, s, ts, mask, |vals|) == s.count + Available(p, t, ts, mask, rest)
            && forall k: nat :: k < rest ==> StreamAddr(p, t, ts, mask, k) == StreamAddr(m, s, ts, mask, s.count + k)
  {
    hide At, PutRange, Next, Describes, SameDescriptors, Poured, StreamAddr;
    SameNext(m, p, s, ts, mask, |vals|);
    SameChain(m, p, Next(m, s, ts, mask), ts, mask, |vals| - s.count);
    Addresses(m, s, ts, mask);
  }

  lemma TwoElsewhere(m: seq<Byte>, p: seq<Byte>, q: seq<Byte>, s: Sg, ts: nat, mask: nat, vals: seq<Byte>, a: nat)
    requires s.count > 0 && TwoParts(m, p, q, s, ts, mask, vals) && a < ADDRESSES
    requires forall k: nat :: k < Available(m, s, ts, mask, |vals|) ==> StreamAddr(m, s, ts, mask, k) != a
    ensures At(q, a) == At(m, a)
  {
    hide At, PutRange, Next, SameDescriptors, StreamAddr, Available;
    var t := Next(m, s, ts, mask);
    SameRest(m, p, q, s, ts, mask, vals);
    Addresses(m, s, ts, mask);
    forall k: nat | k < s.count ensures BusAddr(s.addr, k) != a {
      assert StreamAddr(m, s, ts, mask, k) != a;
    }
    PutElsewhere(m, s.addr, vals[..s.count], a);
    forall k: nat | k < Available(p, t, ts, mask, |vals| - s.count) ensures StreamAddr(p, t, ts, mask, k) != a {
      assert StreamAddr(m, s, ts, mask, s.count + k) != a;
    }
  }

  lemma LastInBlock(m: seq<Byte>, s: Sg, ts: nat, mask: nat, vals: seq<Byte>, n: nat, k: nat)
    requires s.count > 0 && k < s.count <= |vals| && s.count <= n && LastThere(m, s, ts, mask, n, k)
    requires StreamAddr(m, s, ts, mask, k) < |m|
    ensures At(PutRange(m, s.addr, vals[..s.count]), StreamAddr(m, s, ts, mask, k)) == vals[k]
  {
    hide At, PutRange, Next;
    forall j: nat | k < j < s.count ensures BusAddr(s.addr, j) != BusAddr(s.addr, k) {
      assert StreamAddr(m, s, ts, mask, j) != StreamAddr(m, s, ts, mask, k);
    }
    PutLast(m, s.addr, vals[..s.count], k);
  }

  /** What the rest of the chain `t` does not reach stays as the first block left it. */
  lemma RestMisses(m: seq<Byte>, s: Sg, p: seq<Byte>, t: Sg, q: seq<Byte>, ts: nat, mask: nat, rest: seq<Byte>, k: nat)
    requires s.count > 0 && t.count > 0 && Poured(p, q, t, ts, mask, rest) && k < s.count
    requires forall j: nat :: j < |rest| ==> StreamAddr(p, t, ts, mask, j) == StreamAddr(m, s, ts, mask, s.count + j)
    requires LastThere(m, s, ts, mask, s.count + Available(p, t, ts, mask, |rest|), k)
    ensures At(q, StreamAddr(m, s, ts, mask, k)) == At(p, StreamAddr(m, s, ts, mask, k))
  {
    hide At, Next, StreamAddr, Available, Poured;
    var a, r := StreamAddr(m, s, ts, mask, k), Available(p, t, ts, mask, |rest|);
    AddressBound(m, s, ts, mask, k);
    forall j: nat | j < r ensures StreamAddr(p, t, ts, mask, j) != a {
      var i := s.count + j;
      assert StreamAddr(m, s, ts, mask, i) != a;
    }
    PouredElsewhere(p, q, t, ts, mask, rest, a);
  }

  lemma PouredElsewhere(m: seq<Byte>, q: seq<Byte>, s: Sg, ts: nat, mask: nat, vals: seq<Byte>, a: nat)
    requires s.count > 0 && Poured(m, q, s, ts, mask, vals) && a < ADDRESSES
    requires forall k: nat :: k < Available(m, s, ts, mask, |vals|) ==> StreamAddr(m, s, ts, mask, k) != a
    ensures At(q, a) == At(m, a)
  {
    hide At, Next, StreamAddr, Available, LastThere;
  }

  lemma RestLast(m: seq<Byte>, p: seq<Byte>, q: seq<Byte>, s: Sg, ts: nat, mask: nat, vals: seq<Byte>, k: nat)
    requires s.count > 0 && TwoParts(m, p, q, s, ts, mask, vals)
    requires LastThere(m, s, ts, mask, Available(m, s, ts, mask, |vals|), s.count + k)
    requires StreamAddr(m, s, ts, mask, s.count + k) < |m|
    ensures At(q, StreamAddr(m, s, ts, mask, s.count + k)) == vals[s.count + k]
  {
    hide At, PutRange, Next, SameDescriptors, StreamAddr, Available;
    var t, r := Next(m, s, ts, mask), Available(p, Next(m, s, ts, mask), ts, mask, |vals| - s.count);
    SameRest(m, p, q, s, ts, mask, vals);
    TwoSizes(m, p, q, s, ts, mask, vals);
    forall j: nat | k < j < r ensures StreamAddr(p, t, ts, mask, j) != StreamAddr(p, t, ts, mask, k) {
      assert StreamAddr(m, s, ts, mask, s.count + j) != StreamAddr(m, s, ts, mask, s.count + k);
    }
    assert LastThere(p, t, ts, mask, r, k);
    assert vals[s.count..][k] == vals[s.count + k];
  }

  lemma TwoLast(m: seq<Byte>, p: seq<Byte>, q: seq<Byte>, s: Sg, ts: nat, mask: nat, vals: seq<Byte>, k: nat)
    requires s.count > 0 && TwoParts(m, p, q, s, ts, mask, vals)
    requires LastThere(m, s, ts, mask, Available(m, s, ts, mask, |vals|), k) && StreamAddr(m, s, ts, mask, k) < |m|
    ensures At(q, StreamAddr(m, s, ts, mask, k)) == vals[k]
  {
    hide At, PutRange, Next, SameDescriptors, StreamAddr, Available, Poured, LastThere;
    if k < s.count {
      SameRest(m, p, q, s, ts, mask, vals);
      LastInBlock(m, s, ts, mask, vals, Available(m, s, ts, mask, |vals|), k);
      RestMisses(m, s, p, Next(m, s, ts, mask), q, ts, mask, vals[s.count..], k);
    } else {
      RestLast(m, p, q, s, ts, mask, vals, k - s.count);
    }
  }

  lemma {:induction false} AddressBound(m: seq<Byte>, s: Sg, ts: nat, mask: nat, k: nat)
    requires s.count > 0
    ensures StreamAddr(m, s, ts, mask, k) < ADDRESSES
    decreases k
  {
    hide Next;
    if k >= s.count && !s.eot {
      AddressBound(m, Next(m, s, ts, mask), ts, mask, k - s.count);
    }
  }

  /** A block and the rest of the chain after it. */
  lemma MoreBlocks(m: seq<Byte>, p: seq<Byte>, q: seq<Byte>, s: Sg, ts: nat, mask: nat, vals: seq<Byte>)
    requires s.count > 0 && TwoParts(m, p, q, s, ts, mask, vals)
    ensures Poured(m, q, s, ts, mask, vals)
  {
    hide At, PutRange, Next, SameDescriptors, StreamAddr, Available, TwoParts;
    var n := Available(m, s, ts, mask, |vals|);
    TwoSizes(m, p, q, s, ts, mask, vals);
    forall a: nat | a < ADDRESSES && (forall k: nat :: k < n ==> StreamAddr(m, s, ts, mask, k) != a) ensures At(q, a) == At(m, a) {
      TwoElsewhere(m, p, q, s, ts, mask, vals, a);
    }
    forall k: nat | LastThere(m, s, ts, mask, n, k) && StreamAddr(m, s, ts, mask, k) < |m|
      ensures At(q, StreamAddr(m, s, ts, mask, k)) == vals[k]
    {
      TwoLast(m, p, q, s, ts, mask, vals, k);
    }
  }

  lemma TwoSizes(m: seq<Byte>, p: seq<Byte>, q: seq<Byte>, s: Sg, ts: nat, mask: nat, vals: seq<Byte>)
    requires s.count > 0 && TwoParts(m, p, q, s, ts, mask, vals)
    ensures |q| == |m|
  {
  }

  lemma Addresses(m: seq<Byte>, s: Sg, ts: nat, mask: nat)
    requires s.count > 0 && !s.eot
    ensures forall k: nat :: k < s.count ==> StreamAddr(m, s, ts, mask, k) == BusAddr(s.addr, k)
    ensures forall k: nat :: StreamAddr(m, s, ts, mask, s.count + k) == StreamAddr(m, Next(m, s, ts, mask), ts, mask, k)
  {
    hide Next;
  }

  /** The first block leaves every descriptor as it was. */
  lemma BlockClear(m: seq<Byte>, s: Sg, ts: nat, mask: nat, vals: seq<Byte>)
    requires s.count > 0 && s.count < |vals| && !s.eot && Clear(m, s, ts, mask, |vals|)
    ensures SameDescriptors(m, PutRange(m, s.addr, vals[..s.count]), s, ts, mask, |vals|)
  {
    hide At, PutRange, Next, Describes;
    var p := PutRange(m, s.addr, vals[..s.count]);
    Addresses(m, s, ts, mask);
    forall a: nat | a < ADDRESSES && Describes(m, s, ts, mask, |vals|, a) ensures At(p, a) == At(m, a) {
      forall k: nat | k < s.count ensures BusAddr(s.addr, k) != a {
        assert !Describes(m, s, ts, mask, |vals|, StreamAddr(m, s, ts, mask, k));
      }
      PutElsewhere(m, s.addr, vals[..s.count], a);
    }
  }

  lemma RestClear(m: seq<Byte>, p: seq<Byte>, s: Sg, ts: nat, mask: nat, n: nat)
    requires s.count > 0 && s.count < n && !s.eot && Clear(m, s, ts, mask, n) && SameDescriptors(m, p, s, ts, mask, n)
    ensures Clear(p, Next(p, s, ts, mask), ts, mask, n - s.count)
  {
    hide At, Next, SameDescriptors;
    var t := Next(m, s, ts, mask);
    SameNext(m, p, s, ts, mask, n);
    SameChain(m, p, t, ts, mask, n - s.count);
    Addresses(m, s, ts, mask);
    forall k: nat | k < Available(m, t, ts, mask, n - s.count)
      ensures !Describes(m, t, ts, mask, n - s.count, StreamAddr(m, t, ts, mask, k))
    {
      assert !Describes(m, s, ts, mask, n, StreamAddr(m, s, ts, mask, s.count + k));
    }
  }

  /**
   A transfer that stays off the descriptors it reads: it ends and leaves the descriptor state as a transfer the other way
   would, and memory has the bytes it had room for at the chain's addresses and is unchanged everywhere else.
   */
  lemma {:induction false} FillFollowsChain(m: seq<Byte>, s: Sg, ts: nat, mask: nat, vals: seq<Byte>)
    requires s.count > 0 && Clear(m, s, ts, mask, |vals|)
    ensures var f := Fill(m, s, ts, mask, vals);
            && f.code == Code(m, s, ts, mask, |vals|) && f.s == AfterBytes(m, s, ts, mask, |vals|)
            && Poured(m, f.m, s, ts, mask, vals)
    decreases |vals|
  {
    hide At, PutRange, Next, Describes, Clear, Poured, StreamAddr;
    var n := |vals|;
    if n <= s.count || s.eot {
      var c := if n < s.count then n else s.count;
      OneBlock(m, s, ts, mask, vals, c);
      assert n < s.count ==> vals[..c] == vals;
      if n == s.count && !s.eot {
        LastBlock(m, m, s, ts, mask, n);
      }
    } else {
      var p := PutRange(m, s.addr, vals[..s.count]);
      BlockClear(m, s, ts, mask, vals);
      RestClear(m, p, s, ts, mask, n);
      SameNext(m, p, s, ts, mask, n);
      var t := Next(m, s, ts, mask);
      FillFollowsChain(p, t, ts, mask, vals[s.count..]);
      SameChain(m, p, t, ts, mask, n - s.count);
      MoreBlocks(m, p, Fill(m, s, ts, mask, vals).m, s, ts, mask, vals);
    }
  }
}
