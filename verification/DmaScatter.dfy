/** Bus-master byte ranges and scatter/gather over a descriptor chain in memory (src/dma.c). */
module DmaScatter {
  import opened Bits
  import opened PhysMem

  /** The bytes at `n` successive addresses. */
  function Range(m: seq<Byte>, a: int, n: nat): (r: seq<Byte>)
    ensures |r| == n && forall k :: 0 <= k < n ==> r[k] == At(m, a + k)
  {
    if n == 0 then [] else Range(m, a, n - 1) + [At(m, a + n - 1)]
  }

  /** Memory after `vals` has been written to successive addresses. */
  function PutRange(m: seq<Byte>, a: int, vals: seq<Byte>): (r: seq<Byte>)
    ensures |r| == |m|
  {
    if vals == [] then m
    else With(PutRange(m, a, vals[..|vals| - 1]), a + |vals| - 1, vals[|vals| - 1])
  }

  predicate TransferSize(ts: nat) {
    ts == 1 || ts == 2 || ts == 4
  }

  /** `data` with `vals` laid over it from `pos`. */
  function Over(data: seq<Byte>, pos: nat, vals: seq<Byte>): (r: seq<Byte>)
    requires pos + |vals| <= |data|
    ensures |r| == |data|
  {
    data[..pos] + vals + data[pos + |vals|..]
  }

  lemma OverMore(data: seq<Byte>, pos: nat, a: seq<Byte>, b: seq<Byte>)
    requires pos + |a| + |b| <= |data|
    ensures Over(Over(data, pos, a), pos + |a|, b) == Over(data, pos, a + b)
  {
  }

  lemma {:induction false} RangeMore(m: seq<Byte>, a: int, i: nat, j: nat)
    ensures Range(m, a, i) + Range(m, a + i, j) == Range(m, a, i + j)
  {
    hide At;
    if j > 0 {
      RangeMore(m, a, i, j - 1);
    }
  }

  // ---- reading ----

  /** One bus access of `ts` bytes. */
  method PhysRead(m: array<Byte>, a: int, ts: nat, data: array<Byte>, pos: nat)
    requires m != data && pos + ts <= data.Length
    modifies data
    ensures data[..] == Over(old(data[..]), pos, Range(m[..], a, ts))
  {
    hide At, Range, Over;
    ghost var was := data[..];
    OverNothing(was, pos, m[..], a);
    for i := 0 to ts
      invariant data[..] == Over(was, pos, Range(m[..], a, i))
    {
      var v := ReadByte(m, a + i);
      data[pos + i] := v;
      OverByte(was, pos, m[..], a, i, data[..]);
    }
  }

  lemma OverNothing(data: seq<Byte>, pos: nat, m: seq<Byte>, a: int)
    requires pos <= |data|
    ensures Over(data, pos, Range(m, a, 0)) == data
  {
  }

  lemma OverByte(was: seq<Byte>, pos: nat, m: seq<Byte>, a: int, i: nat, now: seq<Byte>)
    requires pos + i < |was| && now == Over(was, pos, Range(m, a, i))[pos + i := At(m, a + i)]
    ensures now == Over(was, pos, Range(m, a, i + 1))
  {
    hide At;
  }

  /** A copy between two buffers. */
  method Keep(data: array<Byte>, pos: nat, bytes: array<Byte>, from: nat, n: nat)
    requires data != bytes && from + n <= bytes.Length && pos + n <= data.Length
    modifies data
    ensures data[..] == Over(old(data[..]), pos, bytes[from..from + n])
  {
    forall k | 0 <= k < n {
      data[pos + k] := bytes[from + k];
    }
  }

  lemma Prefix(m: seq<Byte>, a: int, n: nat, ts: nat, zeros: seq<Byte>)
    requires n <= ts <= |zeros|
    ensures Over(zeros, 0, Range(m, a, ts))[..n] == Range(m, a, n)
  {
    hide At;
  }

  /** The last, partial access goes through a four-byte buffer. */
  method ReadTail(m: array<Byte>, a: int, data: array<Byte>, pos: nat, n: nat, ts: nat)
    requires m != data && pos + n <= data.Length && n <= ts <= 4
    modifies data
    ensures data[..] == Over(old(data[..]), pos, Range(m[..], a, n))
  {
    hide At, Range, Over;
    var bytes := new Byte[4](_ => 0);
    ghost var zeros := bytes[..];
    PhysRead(m, a, ts, bytes, 0);
    Prefix(m[..], a, n, ts, zeros);
    assert bytes[..][..n] == bytes[0..0 + n];
    Keep(data, pos, bytes, 0, n);
  }

  /** Whole accesses first, then one access of which only the first bytes are kept. */
  method BmRead(m: array<Byte>, a: int, data: array<Byte>, pos: nat, size: nat, ts: nat)
    requires m != data && pos + size <= data.Length && TransferSize(ts)
    modifies data
    ensures data[..] == Over(old(data[..]), pos, Range(m[..], a, size))
  {
    hide At, Range, Over;
    ghost var was := data[..];
    var n := size - size % ts;
    var n2 := size - n;
    OverNothing(was, pos, m[..], a);
    Divides(size, ts);
    var i := 0;
    while i < n
      invariant 0 <= i <= n && (n - i) % ts == 0
      invariant data[..] == Over(was, pos, Range(m[..], a, i))
    {
      Room(n, i, ts);
      PhysRead(m, a + i, ts, data, pos + i);
      OverMore(was, pos, Range(m[..], a, i), Range(m[..], a + i, ts));
      RangeMore(m[..], a, i, ts);
      i := i + ts;
    }
    if n2 > 0 {
      ReadTail(m, a + n, data, pos + n, n2, ts);
      OverMore(was, pos, Range(m[..], a, n), Range(m[..], a + n, n2));
      RangeMore(m[..], a, n, n2);
    }
  }

  lemma Divides(size: nat, ts: nat)
    requires TransferSize(ts)
    ensures (size - size % ts) % ts == 0 && size % ts < ts
  {
  }

  lemma Room(n: nat, i: nat, ts: nat)
    requires TransferSize(ts) && i < n && (n - i) % ts == 0
    ensures i + ts <= n && (n - (i + ts)) % ts == 0
  {
  }

  // ---- writing ----

  lemma {:induction false} PutMore(m: seq<Byte>, a: int, x: seq<Byte>, y: seq<Byte>)
    ensures PutRange(PutRange(m, a, x), a + |x|, y) == PutRange(m, a, x + y)
  {
    hide With;
    if y == [] {
      assert x + y == x;
    } else {
      var n := |y| - 1;
      PutMore(m, a, x, y[..n]);
      assert (x + y)[..|x + y| - 1] == x + y[..n];
    }
  }

  /** Bytes past the range are untouched. */
  lemma {:induction false} PutFrame(m: seq<Byte>, a: int, vals: seq<Byte>, b: int)
    requires a + |vals| <= b < a + ADDRESSES
    ensures At(PutRange(m, a, vals), b) == At(m, b)
  {
    if vals != [] {
      PutFrame(m, a, vals[..|vals| - 1], b);
      Distinct(a + |vals| - 1, b);
    }
  }

  lemma Distinct(a: int, b: int)
    requires a < b < a + ADDRESSES
    ensures a % ADDRESSES != b % ADDRESSES
  {
  }

  lemma WithSame(m: seq<Byte>, b: int)
    ensures With(m, b, At(m, b)) == m
  {
  }

  /** Writing back what was read changes nothing. */
  lemma {:induction false} WriteBack(m: seq<Byte>, a: int, vals: seq<Byte>, j: nat)
    requires |vals| + j <= ADDRESSES
    ensures PutRange(m, a, vals + Range(m, a + |vals|, j)) == PutRange(m, a, vals)
  {
    hide With, At;
    if j == 0 {
      assert vals + Range(m, a + |vals|, 0) == vals;
    } else {
      WriteBack(m, a, vals, j - 1);
      var all := vals + Range(m, a + |vals|, j);
      assert all[..|all| - 1] == vals + Range(m, a + |vals|, j - 1);
      var b := a + |vals| + j - 1;
      PutFrame(m, a, vals, b);
      WithSame(PutRange(m, a, vals), b);
    }
  }

  method PhysWrite(m: array<Byte>, a: int, ts: nat, data: array<Byte>, pos: nat)
    requires m != data && pos + ts <= data.Length
    modifies m
    ensures m[..] == PutRange(old(m[..]), a, data[pos..pos + ts])
  {
    hide With;
    ghost var was := m[..];
    for i := 0 to ts
      invariant m[..] == PutRange(was, a, data[pos..pos + i])
    {
      WriteByte(m, a + i, data[pos + i]);
      assert data[pos..pos + i + 1][..i] == data[pos..pos + i];
    }
  }

  /** The last, partial access reads, replaces the first bytes and writes the whole access back. */
  method WriteTail(m: array<Byte>, a: int, data: array<Byte>, pos: nat, n: nat, ts: nat)
    requires m != data && pos + n <= data.Length && n <= ts <= 4
    modifies m
    ensures m[..] == PutRange(old(m[..]), a, data[pos..pos + n])
  {
    hide At, Range, PutRange;
    ghost var was, vals := m[..], data[pos..pos + n];
    var bytes := new Byte[4](_ => 0);
    ghost var zeros := bytes[..];
    PhysRead(m, a, ts, bytes, 0);
    Keep(bytes, 0, data, pos, n);
    Patched(was, a, ts, zeros, vals);
    assert bytes[..][..ts] == bytes[0..0 + ts];
    PhysWrite(m, a, ts, bytes, 0);
    WriteBack(was, a, vals, ts - n);
  }

  lemma Patched(m: seq<Byte>, a: int, ts: nat, zeros: seq<Byte>, vals: seq<Byte>)
    requires |vals| <= ts <= |zeros|
    ensures Over(Over(zeros, 0, Range(m, a, ts)), 0, vals)[..ts] == vals + Range(m, a + |vals|, ts - |vals|)
  {
    hide At;
  }

  method BmWrite(m: array<Byte>, a: int, data: array<Byte>, pos: nat, size: nat, ts: nat)
    requires m != data && pos + size <= data.Length && TransferSize(ts)
    modifies m
    ensures m[..] == PutRange(old(m[..]), a, data[pos..pos + size])
  {
    hide At, PutRange;
    ghost var was := m[..];
    var n := size - size % ts;
    var n2 := size - n;
    PutNothing(was, a, data[pos..pos]);
    Divides(size, ts);
    var i := 0;
    while i < n
      invariant 0 <= i <= n && (n - i) % ts == 0
      invariant m[..] == PutRange(was, a, data[pos..pos + i])
    {
      Room(n, i, ts);
      PhysWrite(m, a + i, ts, data, pos + i);
      Joined(data, pos, pos + i, pos + i + ts);
      PutMore(was, a, data[pos..pos + i], data[pos + i..pos + i + ts]);
      i := i + ts;
    }
    if n2 > 0 {
      WriteTail(m, a + n, data, pos + n, n2, ts);
      Joined(data, pos, pos + n, pos + size);
      PutMore(was, a, data[pos..pos + n], data[pos + n..pos + size]);
    }
  }

  lemma Joined(data: array<Byte>, i: nat, j: nat, k: nat)
    requires i <= j <= k <= data.Length
    ensures data[i..j] + data[j..k] == data[i..k]
  {
  }

  lemma PutNothing(m: seq<Byte>, a: int, vals: seq<Byte>)
    requires vals == []
    ensures PutRange(m, a, vals) == m
  {
  }

  /** What a range write stores a range read of the same mapped range returns. */
  lemma {:induction false} WrittenReadsBack(m: seq<Byte>, a: nat, vals: seq<Byte>)
    requires a + |vals| <= |m| <= ADDRESSES
    ensures Range(PutRange(m, a, vals), a, |vals|) == vals
  {
    hide At, With;
    if vals != [] {
      var n := |vals| - 1;
      var p, q := PutRange(m, a, vals[..n]), PutRange(m, a, vals);
      WrittenReadsBack(m, a, vals[..n]);
      forall k | 0 <= k < |vals| ensures Range(q, a, |vals|)[k] == vals[k] {
        AtWith(p, a + n, a + k, vals[n]);
        if k < n {
          assert Range(p, a, n)[k] == vals[..n][k] == vals[k];
        }
      }
    }
  }
}
