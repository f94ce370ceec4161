/** The port lists of src/io.c in place: doubly linked records reached from both ends. */
module IoPorts {
  import opened IoTable
  import opened Remainders

  class Node {
    const handler: Handler
    ghost const home: nat
    var prev: Node?
    var next: Node?

    constructor (h: Handler, port: nat)
      ensures handler == h && home == port && prev == null && next == null
    {
      handler, home, prev, next := h, port, null, null;
    }
  }

  function HandlersOf(s: seq<Node>): (r: seq<Handler>)
    ensures |r| == |s|
  {
    seq(|s|, i requires 0 <= i < |s| => s[i].handler)
  }

  function Before(s: seq<Node>, i: nat): Node?
    requires i < |s|
  {
    if i == 0 then null else s[i - 1]
  }

  function After(s: seq<Node>, i: nat): Node?
    requires i < |s|
  {
    if i == |s| - 1 then null else s[i + 1]
  }

  /** The records `s`, read forwards from `first` and backwards from `last`. */
  ghost predicate Linked(s: seq<Node>, first: Node?, last: Node?)
    reads s
  {
    && Distinct(s)
    && first == (if s == [] then null else s[0])
    && last == (if s == [] then null else s[|s| - 1])
    && (forall i :: 0 <= i < |s| ==> s[i].prev == Before(s, i))
    && (forall i :: 0 <= i < |s| ==> s[i].next == After(s, i))
  }

  /** A record behind the last one of a list. */
  lemma Hung(s: seq<Node>, q: Node, first: Node?)
    requires forall i :: 0 <= i < |s| ==> s[i] != q
    requires Distinct(s)
    requires forall i :: 0 <= i < |s| ==> s[i].prev == Before(s, i)
    requires forall i :: 0 <= i < |s| - 1 ==> s[i].next == After(s, i)
    requires q.next == null && first == if s == [] then q else s[0]
    requires if s == [] then q.prev == null else q.prev == s[|s| - 1] && s[|s| - 1].next == q
    ensures Linked(s + [q], first, q)
  {
  }

  /** Where record `i` of a list without its record `k` was before. */
  function Skip(i: nat, k: nat): nat {
    if i < k then i else i + 1
  }

  function Cut(s: seq<Node>, k: nat): (r: seq<Node>)
    requires k < |s|
    ensures |r| == |s| - 1 && forall i :: 0 <= i < |r| ==> r[i] == s[Skip(i, k)]
  {
    s[..k] + s[k + 1..]
  }

  /** The forward links of a list skip record `k`. */
  ghost predicate GapNext(s: seq<Node>, k: nat)
    requires k < |s|
    reads s`next
  {
    forall i :: 0 <= i < |s| && i != k ==> s[i].next == if i + 1 == k then After(s, k) else After(s, i)
  }

  /** The back links do. */
  ghost predicate GapPrev(s: seq<Node>, k: nat)
    requires k < |s|
    reads s`prev
  {
    forall i :: 0 <= i < |s| && i != k ==> s[i].prev == if i == k + 1 then Before(s, k) else Before(s, i)
  }

  ghost predicate Distinct(s: seq<Node>) {
    forall i, j :: 0 <= i < j < |s| ==> s[i] != s[j]
  }

  lemma BridgedAt(s: seq<Node>, k: nat, i: nat)
    requires k < |s| && GapNext(s, k) && GapPrev(s, k) && i < |s| - 1
    ensures Cut(s, k)[i].prev == Before(Cut(s, k), i) && Cut(s, k)[i].next == After(Cut(s, k), i)
  {
    hide Cut;
    var r := Cut(s, k);
    assert r[i] == s[Skip(i, k)];
    if i > 0 {
      assert r[i - 1] == s[Skip(i - 1, k)];
    }
    if i < |r| - 1 {
      assert r[i + 1] == s[Skip(i + 1, k)];
    }
  }

  /** A list with record `k` bridged over. */
  lemma Bridged(s: seq<Node>, k: nat, first: Node?, last: Node?)
    requires k < |s| && Distinct(s) && GapNext(s, k) && GapPrev(s, k)
    requires first == if k == 0 then After(s, 0) else s[0]
    requires last == if k == |s| - 1 then Before(s, k) else s[|s| - 1]
    ensures Linked(Cut(s, k), first, last)
  {
    hide GapNext, GapPrev, Cut, Before, After;
    var r := Cut(s, k);
    CutEnds(s, k, first, last);
    forall i | 0 <= i < |r| ensures r[i].prev == Before(r, i) && r[i].next == After(r, i) {
      BridgedAt(s, k, i);
    }
    forall i, j | 0 <= i < j < |r| ensures r[i] != r[j] {
      assert r[i] == s[Skip(i, k)] && r[j] == s[Skip(j, k)];
    }
  }

  lemma CutEnds(s: seq<Node>, k: nat, first: Node?, last: Node?)
    requires k < |s|
    requires first == if k == 0 then After(s, 0) else s[0]
    requires last == if k == |s| - 1 then Before(s, k) else s[|s| - 1]
    ensures var r := Cut(s, k);
            first == (if r == [] then null else r[0]) && last == if r == [] then null else r[|r| - 1]
  {
  }

  function ViewOf(lists: seq<seq<Node>>): Table
    requires |lists| == PORTS
  {
    seq(PORTS, p requires 0 <= p < PORTS => HandlersOf(lists[p]))
  }

  lemma HandlersAt(s: seq<Node>)
    ensures forall i :: 0 <= i < |s| ==> HandlersOf(s)[i] == s[i].handler
  {
  }

  lemma ViewAt(lists: seq<seq<Node>>, p: nat)
    requires |lists| == PORTS && p < PORTS
    ensures ViewOf(lists)[p] == HandlersOf(lists[p])
  {
  }

  lemma ViewSet(lists: seq<seq<Node>>, p: nat, s: seq<Node>)
    requires |lists| == PORTS && p < PORTS
    ensures ViewOf(lists[p := s]) == ViewOf(lists)[p := HandlersOf(s)]
  {
    hide HandlersOf;
  }

  lemma CutHandlers(s: seq<Node>, k: nat)
    requires k < |s|
    ensures HandlersOf(Cut(s, k)) == HandlersOf(s)[..k] + HandlersOf(s)[k + 1..]
  {
    hide Cut;
    var u, h := HandlersOf(Cut(s, k)), HandlersOf(s);
    var v := h[..k] + h[k + 1..];
    forall i | 0 <= i < |v| ensures u[i] == v[i] {
      assert Cut(s, k)[i] == s[Skip(i, k)];
      assert v[i] == h[Skip(i, k)];
    }
  }

  class Ports {
    const first: array<Node?>
    const last: array<Node?>
    ghost var lists: seq<seq<Node>>
    ghost var owned: set<Node>

    /** Every record belongs to the list of one port. */
    ghost predicate Shape()
      reads this
    {
      && first != last && first.Length == last.Length == |lists| == PORTS
      && (forall p, i :: 0 <= p < PORTS && 0 <= i < |lists[p]| ==> lists[p][i] in owned && lists[p][i].home == p)
    }

    ghost predicate Valid()
      reads this, first, last, owned
    {
      && Shape()
      && (forall p :: 0 <= p < PORTS ==> Linked(lists[p], first[p], last[p]))
    }

    ghost function View(): Table
      requires Shape()
      reads this
    {
      ViewOf(lists)
    }

    constructor ()
      ensures Valid() && fresh(first) && fresh(last) && fresh(owned) && View() == seq(PORTS, _ => [])
    {
      first := new Node?[PORTS](_ => null);
      last := new Node?[PORTS](_ => null);
      lists := seq(PORTS, _ => []);
      owned := {};
    }

    /** The pointer writes that hang `q` behind the last record of a port. */
    method Hang(ghost s: seq<Node>, port: nat, q: Node)
      requires first != last && first.Length == last.Length == PORTS && port < PORTS
      requires Linked(s, first[port], last[port]) && q !in s && q.prev == null && q.next == null
      modifies first, last, s, q
      ensures Linked(s + [q], first[port], last[port])
      ensures forall r :: 0 <= r < PORTS && r != port ==> first[r] == old(first[r]) && last[r] == old(last[r])
    {
      var p := last[port];
      if p != null {
        p.next := q;
        q.prev := p;
      } else {
        first[port] := q;
      }
      last[port] := q;
      Hung(s, q, first[port]);
    }

    /** A record is allocated and hung behind the last one. */
    method Append(port: nat, h: Handler)
      requires Valid() && port < PORTS
      modifies this, first, last, lists[port]
      ensures Valid() && fresh(owned - old(owned)) && old(owned) <= owned
      ensures |lists| == PORTS && View() == old(View())[port := old(View())[port] + [h]]
    {
      hide Linked;
      ghost var s, before := lists[port], View();
      var q := new Node(h, port);
      Hang(s, port, q);
      lists := lists[port := s + [q]];
      owned := owned + {q};
      forall r | 0 <= r < PORTS ensures View()[r] == before[port := before[port] + [h]][r] {
      }
    }

    /** The pointer writes that take record `k` out of the list of a port. */
    method Unhang(ghost s: seq<Node>, ghost k: nat, port: nat, p: Node)
      requires first != last && first.Length == last.Length == PORTS && port < PORTS
      requires Linked(s, first[port], last[port]) && k < |s| && p == s[k]
      modifies first, last, s
      ensures Linked(Cut(s, k), first[port], last[port])
      ensures forall r :: 0 <= r < PORTS && r != port ==> first[r] == old(first[r]) && last[r] == old(last[r])
    {
      hide Before, After, Cut, GapNext, GapPrev, Distinct;
      BridgeNext(s, k, port, p);
      BridgePrev(s, k, port, p);
      Bridged(s, k, first[port], last[port]);
    }

    method BridgeNext(ghost s: seq<Node>, ghost k: nat, port: nat, p: Node)
      requires first.Length == PORTS && port < PORTS && k < |s| && p == s[k] && Distinct(s)
      requires p.prev == Before(s, k) && p.next == After(s, k)
      requires forall i :: 0 <= i < |s| ==> s[i].next == After(s, i)
      modifies first, s`next
      ensures GapNext(s, k) && p.next == After(s, k)
      ensures first[port] == if k == 0 then After(s, 0) else old(first[port])
      ensures forall r :: 0 <= r < PORTS && r != port ==> first[r] == old(first[r])
    {
      if p.prev != null {
        p.prev.next := p.next;
      } else {
        first[port] := p.next;
      }
    }

    method BridgePrev(ghost s: seq<Node>, ghost k: nat, port: nat, p: Node)
      requires last.Length == PORTS && port < PORTS && k < |s| && p == s[k] && Distinct(s)
      requires p.prev == Before(s, k) && p.next == After(s, k)
      requires forall i :: 0 <= i < |s| ==> s[i].prev == Before(s, i)
      modifies last, s`prev
      ensures GapPrev(s, k)
      ensures last[port] == if k == |s| - 1 then Before(s, k) else old(last[port])
      ensures forall r :: 0 <= r < PORTS && r != port ==> last[r] == old(last[r])
    {
      if p.next != null {
        p.next.prev := p.prev;
      } else {
        last[port] := p.prev;
      }
    }

    /** The first record equal to `h`, or null, walking forwards. */
    method Find(port: nat, h: Handler) returns (p: Node?, ghost k: nat)
      requires Valid() && port < PORTS
      ensures p != null ==> k < |lists[port]| && lists[port][k] == p && p.handler == h
      ensures forall j :: 0 <= j < (if p == null then |lists[port]| else k) ==> lists[port][j].handler != h
    {
      ghost var s := lists[port];
      assert Linked(s, first[port], last[port]);
      p := first[port];
      k := 0;
      while p != null
        invariant k <= |s| && p == (if k < |s| then s[k] else null)
        invariant forall j :: 0 <= j < k ==> s[j].handler != h
        decreases |s| - k
      {
        if p.handler == h {
          return;
        }
        assert p.next == After(s, k);
        p := p.next;
        k := k + 1;
      }
    }

    method RemoveFirst(port: nat, h: Handler)
      requires Valid() && port < PORTS
      modifies this`lists, first, last, lists[port]
      ensures Valid()
      ensures |lists| == PORTS && View() == old(View())[port := Without(old(View())[port], h)]
    {
      hide Linked, Without, ViewOf, HandlersOf;
      ghost var s, before := lists[port], View();
      var p, k := Find(port, h);
      ghost var hs := HandlersOf(s);
      HandlersAt(s);
      ViewAt(lists, port);
      if p == null {
        WithoutAbsent(hs, h);
        return;
      }
      WithoutAt(hs, h, k);
      Unhang(s, k, port, p);
      CutHandlers(s, k);
      ViewSet(lists, port, Cut(s, k));
      assert forall i :: 0 <= i < |Cut(s, k)| ==> Cut(s, k)[i] in s;
      lists := lists[port := Cut(s, k)];
    }

    /** `io_sethandler_common`: one new record at the end of each named port's list. */
    method SetHandler(base: nat, size: nat, step: nat, h: Handler)
      requires Valid() && base + size <= PORTS && step > 0
      modifies this, first, last, owned
      ensures Valid() && fresh(owned - old(owned))
      ensures View() == Added(old(View()), base, size, step, h)
    {
      hide Linked, ViewOf, Covers, Added;
      ghost var t := View();
      var c := 0;
      NothingYet(t, base, step, h);
      while c < size
        invariant Valid() && fresh(owned - old(owned))
        invariant c % step == 0 && c < size + step
        invariant View() == Added(t, base, c, step, h)
      {
        AddedStep(t, base, c, step, h);
        Append(base + c, h);
        NextMultiple(c, c, step);
        c := c + step;
      }
      LastStep(t, base, size, c, step, h);
    }

    /** `io_removehandler_common`: from each named port's list the first equal record. */
    method RemoveHandler(base: nat, size: nat, step: nat, h: Handler)
      requires Valid() && base + size <= PORTS && step > 0
      modifies this`lists, first, last, owned
      ensures Valid()
      ensures View() == Removed(old(View()), base, size, step, h)
    {
      hide Linked, ViewOf, Covers, Removed, Without;
      ghost var t := View();
      var c := 0;
      NothingYet(t, base, step, h);
      while c < size
        invariant Valid() && c % step == 0 && c < size + step
        invariant View() == Removed(t, base, c, step, h)
      {
        RemovedStep(t, base, c, step, h);
        RemoveFirst(base + c, h);
        NextMultiple(c, c, step);
        c := c + step;
      }
      LastStep(t, base, size, c, step, h);
    }

    /** The handlers of a port in order, by the forward links. */
    method Forwards(port: nat) returns (r: seq<Handler>)
      requires Valid() && port < PORTS
      ensures r == View()[port]
    {
      hide Distinct, Before, HandlersOf, ViewOf;
      ghost var s := lists[port];
      assert Linked(s, first[port], last[port]);
      HandlersAt(s);
      ViewAt(lists, port);
      r := [];
      var p := first[port];
      while p != null
        invariant |r| <= |s| && p == (if |r| < |s| then s[|r|] else null)
        invariant forall i :: 0 <= i < |r| ==> r[i] == s[i].handler
        decreases |s| - |r|
      {
        assert p.next == After(s, |r|);
        r := r + [p.handler];
        p := p.next;
      }
      assert r == HandlersOf(s);
    }

    /** The same handlers from the last to the first, by the back links. */
    method Backwards(port: nat) returns (r: seq<Handler>)
      requires Valid() && port < PORTS
      ensures |r| == |View()[port]| && forall i :: 0 <= i < |r| ==> r[i] == View()[port][|r| - 1 - i]
    {
      hide Distinct, After, HandlersOf, ViewOf;
      ghost var s := lists[port];
      assert Linked(s, first[port], last[port]);
      HandlersAt(s);
      ViewAt(lists, port);
      r := [];
      var p := last[port];
      while p != null
        invariant |r| <= |s| && p == (if |r| < |s| then s[|s| - 1 - |r|] else null)
        invariant forall i :: 0 <= i < |r| ==> r[i] == s[|s| - 1 - i].handler
        decreases |s| - |r|
      {
        assert p.prev == Before(s, |s| - 1 - |r|);
        r := r + [p.handler];
        p := p.prev;
      }
    }
  }

  // ---- the ports named so far ----

  lemma NothingYet(t: Table, base: nat, step: nat, h: Handler)
    requires step > 0
    ensures Added(t, base, 0, step, h) == t == Removed(t, base, 0, step, h)
  {
    hide Without;
  }

  /** One more step names one more port. */
  lemma CoversStep(base: nat, c: nat, step: nat, p: nat)
    requires step > 0 && c % step == 0
    ensures Covers(base, c + step, step, p) <==> Covers(base, c, step, p) || p == base + c
    ensures !Covers(base, c, step, base + c)
  {
    if p >= base {
      NextMultiple(c, p - base, step);
    }
  }

  /** Between a multiple and the next one there is none. */
  lemma NextMultiple(c: nat, d: nat, step: nat)
    requires step > 0 && c % step == 0
    ensures (c + step) % step == 0
    ensures c <= d < c + step && d % step == 0 ==> d == c
  {
    var q := c / step;
    assert c == step * q;
    assert step * (q + 1) == step * q + step;
    RemainderUnique(c + step, step, q + 1, 0);
    if c <= d < c + step {
      RemainderUnique(d, step, q, d - c);
    }
  }

  lemma AddedStep(t: Table, base: nat, c: nat, step: nat, h: Handler)
    requires step > 0 && c % step == 0 && base + c < PORTS
    ensures Added(t, base, c + step, step, h) ==
            Added(t, base, c, step, h)[base + c := Added(t, base, c, step, h)[base + c] + [h]]
  {
    hide Covers;
    var u, v := Added(t, base, c + step, step, h), Added(t, base, c, step, h)[base + c := Added(t, base, c, step, h)[base + c] + [h]];
    forall p | 0 <= p < PORTS ensures u[p] == v[p] {
      CoversStep(base, c, step, p);
    }
  }

  lemma RemovedStep(t: Table, base: nat, c: nat, step: nat, h: Handler)
    requires step > 0 && c % step == 0 && base + c < PORTS
    ensures Removed(t, base, c + step, step, h) ==
            Removed(t, base, c, step, h)[base + c := Without(Removed(t, base, c, step, h)[base + c], h)]
  {
    hide Covers, Without;
    var u, v := Removed(t, base, c + step, step, h), Removed(t, base, c, step, h)[base + c := Without(Removed(t, base, c, step, h)[base + c], h)];
    forall p | 0 <= p < PORTS ensures u[p] == v[p] {
      CoversStep(base, c, step, p);
    }
  }

  /** No multiple lies between the size and the next multiple. */
  lemma NoneBetween(base: nat, size: nat, c: nat, step: nat, p: nat)
    requires step > 0 && c % step == 0 && size <= c < size + step
    ensures Covers(base, c, step, p) == Covers(base, size, step, p)
  {
    if base + size <= p < base + c {
      var d, q := p - base, c / step;
      assert c == step * q && step * (q - 1) == step * q - step;
      RemainderUnique(d, step, q - 1, d - (c - step));
    }
  }

  lemma LastStep(t: Table, base: nat, size: nat, c: nat, step: nat, h: Handler)
    requires step > 0 && c % step == 0 && size <= c < size + step
    ensures Added(t, base, c, step, h) == Added(t, base, size, step, h)
    ensures Removed(t, base, c, step, h) == Removed(t, base, size, step, h)
  {
    hide Without, Covers;
    forall p: nat ensures Covers(base, c, step, p) == Covers(base, size, step, p) {
      NoneBetween(base, size, c, step, p);
    }
  }
}
