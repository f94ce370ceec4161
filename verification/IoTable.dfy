/** What is registered on the I/O ports: for every port the handlers in the order they were added (src/io.c). */
module IoTable {

  /** The six entry points of a record, as identities with 0 for a missing one, and its private pointer. */
  datatype Handler = Handler(inb: int, inw: int, inl: int, outb: int, outw: int, outl: int, priv: int)

  const PORTS: nat := 0x1_0000

  type Table = t: seq<seq<Handler>> | |t| == PORTS witness seq(PORTS, _ => [])

  /** The ports a registration of `size` ports from `base` in steps of `step` names. */
  predicate Covers(base: nat, size: nat, step: nat, p: nat)
    requires step > 0
  {
    base <= p < base + size && (p - base) % step == 0
  }

  function Added(t: Table, base: nat, size: nat, step: nat, h: Handler): Table
    requires step > 0
  {
    seq(PORTS, p requires 0 <= p < PORTS => if Covers(base, size, step, p) then t[p] + [h] else t[p])
  }

  /** The list without its first record equal to `h`. */
  function Without(s: seq<Handler>, h: Handler): seq<Handler> {
    if s == [] then [] else if s[0] == h then s[1..] else [s[0]] + Without(s[1..], h)
  }

  function Removed(t: Table, base: nat, size: nat, step: nat, h: Handler): Table
    requires step > 0
  {
    seq(PORTS, p requires 0 <= p < PORTS => if Covers(base, size, step, p) then Without(t[p], h) else t[p])
  }

  // ---- removal ----

  lemma {:induction false} WithoutAt(s: seq<Handler>, h: Handler, k: nat)
    requires k < |s| && s[k] == h && forall j :: 0 <= j < k ==> s[j] != h
    ensures Without(s, h) == s[..k] + s[k + 1..]
  {
    if k > 0 {
      WithoutAt(s[1..], h, k - 1);
      assert s[..k] + s[k + 1..] == [s[0]] + (s[1..][..k - 1] + s[1..][k..]);
    }
  }

  lemma {:induction false} WithoutAbsent(s: seq<Handler>, h: Handler)
    requires h !in s
    ensures Without(s, h) == s
  {
    if s != [] {
      WithoutAbsent(s[1..], h);
      assert s == [s[0]] + s[1..];
    }
  }

  /** Removal undoes an addition at the end, unless an equal record was there before: then the older one goes. */
  lemma {:induction false} WithoutAppended(s: seq<Handler>, h: Handler)
    ensures Without(s + [h], h) == if h in s then Without(s, h) + [h] else s
  {
    if s == [] {
      assert [h][1..] == [];
    } else {
      WithoutAppended(s[1..], h);
      assert (s + [h])[1..] == s[1..] + [h];
      if s[0] != h {
        assert s == [s[0]] + s[1..];
      }
    }
  }

  /** Exactly one record equal to `h` leaves, if there is one, and the others keep their numbers. */
  lemma {:induction false} WithoutCounts(s: seq<Handler>, h: Handler)
    ensures multiset(Without(s, h)) == multiset(s) - multiset{h}
  {
    if s != [] {
      WithoutCounts(s[1..], h);
      assert s == [s[0]] + s[1..];
      assert multiset(s) == multiset{s[0]} + multiset(s[1..]);
      if s[0] != h {
        var w := Without(s[1..], h);
        assert multiset([s[0]] + w) == multiset{s[0]} + multiset(w);
      }
    }
  }

  lemma {:induction false} FirstIndex(s: seq<Handler>, h: Handler) returns (k: nat)
    requires h in s
    ensures k < |s| && s[k] == h && forall j :: 0 <= j < k ==> s[j] != h
  {
    if s[0] == h {
      k := 0;
    } else {
      assert s == [s[0]] + s[1..];
      var i := FirstIndex(s[1..], h);
      k := i + 1;
      assert forall j :: 1 <= j < k ==> s[j] == s[1..][j - 1];
    }
  }

  /** Nothing but `h` follows the first `h`. */
  predicate TailOnly(s: seq<Handler>, h: Handler) {
    forall i, j :: 0 <= i < j < |s| && s[i] == h ==> s[j] == h
  }

  /** Adding and removing leaves a list as it was exactly when nothing else comes after an equal record in it. */
  lemma Restored(s: seq<Handler>, h: Handler)
    ensures Without(s + [h], h) == s <==> TailOnly(s, h)
  {
    WithoutAppended(s, h);
    if h in s {
      var k := FirstIndex(s, h);
      WithoutAt(s, h, k);
      var w := Without(s, h) + [h];
      if w == s {
        ConstantFrom(s, h, k);
      } else if TailOnly(s, h) {
        assert forall i :: 0 <= i < |s| ==> w[i] == s[i];
      }
    }
  }

  lemma ConstantFrom(s: seq<Handler>, h: Handler, k: nat)
    requires k < |s| && s[k] == h && s[..k] + s[k + 1..] + [h] == s
    ensures forall j :: k <= j < |s| ==> s[j] == h
  {
    for i := k to |s|
      invariant k <= i <= |s| && forall j :: k <= j <= i && j < |s| ==> s[j] == h
    {
      if i + 1 < |s| {
        assert (s[..k] + s[k + 1..] + [h])[i] == s[i + 1];
      }
    }
  }

  /** Taking a freshly added handler away restores every list of every port, if and only if that holds of each. */
  lemma AddedThenRemoved(t: Table, base: nat, size: nat, step: nat, h: Handler)
    requires step > 0
    ensures Removed(Added(t, base, size, step, h), base, size, step, h) == t <==>
            forall p :: 0 <= p < PORTS && Covers(base, size, step, p) ==> TailOnly(t[p], h)
  {
    hide Covers, Without, TailOnly;
    var u := Removed(Added(t, base, size, step, h), base, size, step, h);
    forall p | 0 <= p < PORTS
      ensures u[p] == t[p] <==> (Covers(base, size, step, p) ==> TailOnly(t[p], h))
    {
      Restored(t[p], h);
    }
  }
}
