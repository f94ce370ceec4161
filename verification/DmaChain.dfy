/** Scatter/gather: a transfer to a device delivers the concatenation of the descriptor chain's blocks. */
module DmaChain {
  import opened Bits
  import opened PhysMem
  import opened DmaScatter

  /** The current block, whether it is the last, and where the next descriptor is; `regs` are the channel registers. */
  datatype Sg = Sg(addr: nat, count: nat, eot: bool, ptr: nat, regs: Regs)

  /** The channel's registers and the copies of its page. */
  datatype Regs = Regs(ab: nat, ac: nat, cb: Word, cc: int, page: Byte, pageL: Byte, pageH: Byte)

  function RegsFor(addr: nat, n: Word, mask: nat): Regs {
    var a := And(addr, mask);
    Regs(a, a, n, n, a / 0x1_0000 % 0x100, a / 0x1_0000 % 0x100, a / 0x100_0000 % 0x100)
  }

  /** A little-endian double word. */
  function Long(b: seq<Byte>): (v: nat)
    requires |b| == 4
    ensures v < ADDRESSES
  {
    b[0] as int + 0x100 * (b[1] as int) + 0x1_0000 * (b[2] as int) + 0x100_0000 * (b[3] as int)
  }

  function LongAt(m: seq<Byte>, a: int): (v: nat)
    ensures v < ADDRESSES
  {
    Long(Range(m, a, 4))
  }

  /** The low sixteen bits without bit 0. */
  function EvenCount(w: nat): Word {
    (w / 2) % 0x8000 * 2
  }

  /** The next descriptor: address, count with zero standing for 65536, and the end mark in bit 31. */
  function Next(m: seq<Byte>, s: Sg, ts: nat, mask: nat): (t: Sg)
    ensures t.count > 0
  {
    var a, w := LongAt(m, s.ptr), LongAt(m, s.ptr + 4);
    var n := EvenCount(w);
    var addr := if ts == 2 then a - a % 2 else a;
    Sg(addr, if n == 0 then 0x1_0000 else n, w >= 0x8000_0000, (s.ptr + 8) % ADDRESSES,
       RegsFor(addr, n, mask))
  }

  // ---- the stream a chain stands for ----

  /** Byte `k` of the concatenated blocks. */
  function StreamByte(m: seq<Byte>, s: Sg, ts: nat, mask: nat, k: nat): Byte
    requires s.count > 0
    decreases k
  {
    if k < s.count then At(m, s.addr + k)
    else if s.eot then 0
    else StreamByte(m, Next(m, s, ts, mask), ts, mask, k - s.count)
  }

  /** How many of the first `n` bytes the chain has. */
  function Available(m: seq<Byte>, s: Sg, ts: nat, mask: nat, n: nat): (r: nat)
    requires s.count > 0
    ensures r <= n
    decreases n
  {
    if n <= s.count then n
    else if s.eot then s.count
    else s.count + Available(m, Next(m, s, ts, mask), ts, mask, n - s.count)
  }

  /** The last block lies entirely within the first `n` bytes. */
  predicate Ends(m: seq<Byte>, s: Sg, ts: nat, mask: nat, n: nat)
    requires s.count > 0
    decreases n
  {
    s.count <= n && (s.eot || Ends(m, Next(m, s, ts, mask), ts, mask, n - s.count))
  }

  function Stream(m: seq<Byte>, s: Sg, ts: nat, mask: nat, n: nat): (r: seq<Byte>)
    requires s.count > 0
    ensures |r| == n
  {
    seq(n, k requires 0 <= k < n => StreamByte(m, s, ts, mask, k))
  }

  /** 4: the chain was shorter than the transfer; 5: exactly as long; 1: longer. */
  function Code(m: seq<Byte>, s: Sg, ts: nat, mask: nat, n: nat): nat
    requires s.count > 0
  {
    if !Ends(m, s, ts, mask, n) then 1 else if Available(m, s, ts, mask, n) < n then 4 else 5
  }

  /** The descriptor state a transfer of `n` bytes leaves behind. */
  function AfterBytes(m: seq<Byte>, s: Sg, ts: nat, mask: nat, n: nat): (t: Sg)
    requires s.count > 0
    ensures t.count > 0
    decreases n
  {
    if n < s.count then s.(addr := (s.addr + n) % ADDRESSES, count := s.count - n)
    else if n == s.count || s.eot then s
    else AfterBytes(m, Next(m, s, ts, mask), ts, mask, n - s.count)
  }

  /** `pos` bytes into the chain the block `s` starts, with `left` bytes to go. */
  ghost predicate Reaches(m: seq<Byte>, s0: Sg, ts: nat, mask: nat, pos: nat, left: nat, s: Sg)
    requires s0.count > 0 && s.count > 0
  {
    && (forall k: nat :: StreamByte(m, s0, ts, mask, pos + k) == StreamByte(m, s, ts, mask, k))
    && Available(m, s0, ts, mask, pos + left) == pos + Available(m, s, ts, mask, left)
    && Ends(m, s0, ts, mask, pos + left) == Ends(m, s, ts, mask, left)
    && AfterBytes(m, s0, ts, mask, pos + left) == AfterBytes(m, s, ts, mask, left)
  }

  lemma ReachesNext(m: seq<Byte>, s0: Sg, ts: nat, mask: nat, pos: nat, left: nat, s: Sg)
    requires s0.count > 0 && s.count > 0 && Reaches(m, s0, ts, mask, pos, left, s) && s.count < left && !s.eot
    ensures Reaches(m, s0, ts, mask, pos + s.count, left - s.count, Next(m, s, ts, mask))
  {
    hide Next, At;
    forall k: nat
      ensures StreamByte(m, s0, ts, mask, pos + s.count + k) == StreamByte(m, Next(m, s, ts, mask), ts, mask, k)
    {
      assert StreamByte(m, s0, ts, mask, pos + (s.count + k)) == StreamByte(m, s, ts, mask, s.count + k);
    }
  }

  lemma StreamNothing(m: seq<Byte>, s: Sg, ts: nat, mask: nat, data: seq<Byte>)
    requires s.count > 0
    ensures Over(data, 0, Stream(m, s, ts, mask, 0)) == data
  {
  }

  /** The next `j` bytes of the block are the next `j` bytes of the stream. */
  lemma Extends(m: seq<Byte>, s0: Sg, ts: nat, mask: nat, pos: nat, j: nat, left: nat, s: Sg, data: seq<Byte>)
    requires s0.count > 0 && s.count > 0 && Reaches(m, s0, ts, mask, pos, left, s)
    requires j <= s.count && j <= left && pos + left <= |data|
    ensures Over(Over(data, 0, Stream(m, s0, ts, mask, pos)), pos, Range(m, s.addr, j)) ==
            Over(data, 0, Stream(m, s0, ts, mask, pos + j))
  {
    hide At, Next, Over, Reaches;
    var p, r, q := Stream(m, s0, ts, mask, pos), Range(m, s.addr, j), Stream(m, s0, ts, mask, pos + j);
    forall k | 0 <= k < pos + j ensures (p + r)[k] == q[k] {
      if k >= pos {
        BlockByte(m, s0, ts, mask, pos, left, s, k - pos);
      }
    }
    assert p + r == q;
    OverMore(data, 0, p, r);
  }

  lemma BlockByte(m: seq<Byte>, s0: Sg, ts: nat, mask: nat, pos: nat, left: nat, s: Sg, k: nat)
    requires s0.count > 0 && s.count > 0 && Reaches(m, s0, ts, mask, pos, left, s) && k < s.count
    ensures StreamByte(m, s0, ts, mask, pos + k) == At(m, s.addr + k)
  {
    hide At, Next;
    assert StreamByte(m, s0, ts, mask, pos + k) == StreamByte(m, s, ts, mask, k);
  }

  lemma ReachesStart(m: seq<Byte>, s: Sg, ts: nat, mask: nat, n: nat)
    requires s.count > 0
    ensures Reaches(m, s, ts, mask, 0, n, s)
  {
  }

  /** How the transfer ends if it ends in block `s`. */
  lemma Finishes(m: seq<Byte>, s0: Sg, ts: nat, mask: nat, pos: nat, left: nat, s: Sg)
    requires s0.count > 0 && s.count > 0 && Reaches(m, s0, ts, mask, pos, left, s)
    ensures var n := pos + left;
            if left < s.count then
              Code(m, s0, ts, mask, n) == 1 && Available(m, s0, ts, mask, n) == n
              && AfterBytes(m, s0, ts, mask, n) == s.(addr := (s.addr + left) % ADDRESSES, count := s.count - left)
            else if left == s.count then
              Code(m, s0, ts, mask, n) == (if s.eot then 5 else 1) && Available(m, s0, ts, mask, n) == n
              && AfterBytes(m, s0, ts, mask, n) == s
            else s.eot ==>
              Code(m, s0, ts, mask, n) == 4 && Available(m, s0, ts, mask, n) == pos + s.count
              && AfterBytes(m, s0, ts, mask, n) == s
  {
    hide Next, At, StreamByte;
    assert !Ends(m, Next(m, s, ts, mask), ts, mask, 0);
  }

  // ---- the command register ----

  predicate Starts(was: Byte, value: Byte) {
    Bit(value, 0) && !Bit(was, 0)
  }

  function CommandStatus(status: Byte, was: Byte, value: Byte): (r: Byte) {
    AndBound(status, 0xF6);
    AndBound(status, 0x7E);
    if Starts(was, value) then And(status, 0xF6) + 1
    else if Bit(was, 0) && !Bit(value, 0) then And(status, 0x7E)
    else status
  }

  /**
   Transfers are enabled exactly while bit 0 of the last command is up; a start clears the terminal count mark
   (bit 3), a stop the status bit 7, and nothing else of the status moves.
   */
  lemma EnabledFollowsCommand(status: Byte, was: Byte, value: Byte, k: nat)
    requires Bit(status, 0) == Bit(was, 0) && k < 8
    ensures var t := CommandStatus(status, was, value);
            Bit(t, k) == if k == 0 then Bit(value, 0)
                         else if k == 3 && Starts(was, value) then false
                         else if k == 7 && Bit(was, 0) && !Bit(value, 0) then false
                         else Bit(status, k)
  {
    AndBit(status, 0xF6, k);
    AndBit(status, 0x7E, k);
    OddBits(And(status, 0xF6), k);
    MaskBits(k);
    AndBit(status, 0xF6, 0);
  }

  lemma MaskBits(k: nat)
    requires k < 8
    ensures Bit(0xF6, k) == (k != 0 && k != 3) && Bit(0x7E, k) == (k != 0 && k != 7)
  {
    assert k in {0, 1, 2, 3, 4, 5, 6, 7};
  }

  /** Setting bit 0 of an even number. */
  lemma OddBits(v: nat, k: nat)
    requires v % 2 == 0
    ensures Bit(v + 1, k) == (k == 0 || Bit(v, k))
  {
    assert (v + 1) / 2 == v / 2;
  }

  // ---- the other way: a device's bytes into the chain's blocks ----

  datatype Filled = Filled(m: seq<Byte>, s: Sg, code: nat)

  /** Memory, descriptor state and result; each descriptor is read from memory as the transfer has left it by then. */
  function Fill(m: seq<Byte>, s: Sg, ts: nat, mask: nat, vals: seq<Byte>): (f: Filled)
    requires s.count > 0
    ensures f.s.count > 0
    decreases |vals|
  {
    if |vals| < s.count then
      Filled(PutRange(m, s.addr, vals), s.(addr := (s.addr + |vals|) % ADDRESSES, count := s.count - |vals|), 1)
    else
      var p, rest := PutRange(m, s.addr, vals[..s.count]), vals[s.count..];
      if rest == [] then Filled(p, s, if s.eot then 5 else 1)
      else if s.eot then Filled(p, s, 4)
      else Fill(p, Next(p, s, ts, mask), ts, mask, rest)
  }

  class SgChannel {
    var addr: nat
    var count: nat
    var eot: bool
    var ptr: nat
    var regs: Regs
    var status: Byte
    var command: Byte
    const ts: nat
    const mask: nat

    function View(): Sg
      reads this
    {
      Sg(addr, count, eot, ptr, regs)
    }

    predicate Enabled()
      reads this`status
    {
      Bit(status, 0)
    }

    constructor (s: Sg, size: nat, addressMask: nat)
      requires TransferSize(size)
      ensures View() == s && status == 0 && command == 0 && ts == size && mask == addressMask
    {
      addr, count, eot, ptr, regs := s.addr, s.count, s.eot, s.ptr, s.regs;
      status, command := 0, 0;
      ts, mask := size, addressMask;
    }

    method ReadLong(m: array<Byte>, a: int) returns (v: nat)
      requires TransferSize(ts)
      ensures v == LongAt(m[..], a)
    {
      hide Over, Range, At;
      var b := new Byte[4](_ => 0);
      ghost var zeros := b[..];
      BmRead(m, a, b, 0, 4, ts);
      Whole(zeros, Range(m[..], a, 4));
      assert b[..] == Range(m[..], a, 4);
      v := Long(b[..]);
    }

    method NextAddr(m: array<Byte>)
      requires TransferSize(ts)
      modifies this`addr, this`count, this`eot, this`ptr, this`regs
      ensures View() == Next(m[..], old(View()), ts, mask)
    {
      hide LongAt, And;
      addr := ReadLong(m, ptr);
      var w := ReadLong(m, ptr + 4);
      eot := w / 0x8000_0000 == 1;
      var n := EvenCount(w);
      count := if n == 0 then 0x1_0000 else n;
      if ts == 2 {
        addr := addr - addr % 2;
      }
      var a := And(addr, mask);
      regs := Regs(a, a, n, n, a / 0x1_0000 % 0x100, a / 0x1_0000 % 0x100, a / 0x100_0000 % 0x100);
      ptr := (ptr + 8) % ADDRESSES;
    }

    /** A write to the command register: bit 0 going up fetches the first descriptor at the programmed pointer. */
    method Command(m: array<Byte>, pointer: nat, value: Byte)
      requires TransferSize(ts)
      modifies this
      ensures command == value && status == CommandStatus(old(status), old(command), value)
      ensures View() == if Starts(old(command), value) then Next(m[..], old(View()).(ptr := pointer), ts, mask) else old(View())
    {
      hide Next, And;
      AndBound(status, 0xF6);
      AndBound(status, 0x7E);
      if Bit(value, 0) && !Bit(command, 0) {
        ptr := pointer;
        NextAddr(m);
        status := And(status, 0xF6) + 1;
      }
      if !Bit(value, 0) && Bit(command, 0) {
        status := And(status, 0x7E);
      }
      command := value;
    }

    /** Deliver up to `length` bytes of the chain into `data`. */
    method Transfer(m: array<Byte>, data: array<Byte>, length: nat) returns (code: nat)
      requires TransferSize(ts) && count > 0 && m != data && length <= data.Length
      modifies this, data
      ensures !old(Enabled()) ==> code == 2 && View() == old(View()) && data[..] == old(data[..])
      ensures old(Enabled()) ==>
                && code == Code(m[..], old(View()), ts, mask, length)
                && View() == AfterBytes(m[..], old(View()), ts, mask, length)
                && data[..] == Over(old(data[..]), 0, Stream(m[..], old(View()), ts, mask,
                                                             Available(m[..], old(View()), ts, mask, length)))
      ensures status == old(status) && command == old(command)
    {
      hide At, Range, Over, Next, Stream, Code, AfterBytes, Available, Ends, Reaches, StreamByte;
      if !Enabled() {
        return 2;
      }
      ghost var s0, d0 := View(), data[..];
      var left: nat, pos: nat := length, 0;
      ReachesStart(m[..], s0, ts, mask, length);
      StreamNothing(m[..], s0, ts, mask, d0);
      while true
        invariant count > 0 && pos + left == length && status == old(status) && command == old(command)
        invariant Reaches(m[..], s0, ts, mask, pos, left, View())
        invariant data[..] == Over(d0, 0, Stream(m[..], s0, ts, mask, pos))
        decreases left
      {
        ghost var s := View();
        Finishes(m[..], s0, ts, mask, pos, left, s);
        if count <= left {
          BmRead(m, addr, data, pos, count, 4);
          Extends(m[..], s0, ts, mask, pos, count, left, s, d0);
          left := left - count;
          pos := pos + count;
        } else {
          BmRead(m, addr, data, pos, left, 4);
          Extends(m[..], s0, ts, mask, pos, left, left, s, d0);
          addr := (addr + left) % ADDRESSES;
          count := count - left;
          return 1;
        }
        if left == 0 && !eot {
          return 1;
        } else if left > 0 && eot {
          return 4;
        } else if eot {
          return 5;
        }
        ReachesNext(m[..], s0, ts, mask, pos - count, left + count, s);
        NextAddr(m);
      }
    }

    /** Take up to `length` bytes of `data` into the chain's blocks. */
    method TransferIn(m: array<Byte>, data: array<Byte>, length: nat) returns (code: nat)
      requires TransferSize(ts) && count > 0 && m != data && length <= data.Length
      modifies this, m
      ensures status == old(status) && command == old(command)
      ensures !old(Enabled()) ==> code == 2 && View() == old(View()) && m[..] == old(m[..])
      ensures old(Enabled()) ==> Filled(m[..], View(), code) == Fill(old(m[..]), old(View()), ts, mask, data[..length])
    {
      hide PutRange, Next;
      if !Enabled() {
        return 2;
      }
      ghost var goal := Fill(m[..], View(), ts, mask, data[..length]);
      var left: nat, pos: nat := length, 0;
      while true
        invariant count > 0 && pos + left == length && status == old(status) && command == old(command)
        invariant Fill(m[..], View(), ts, mask, data[pos..length]) == goal
        decreases left
      {
        if left < count {
          BmWrite(m, addr, data, pos, left, 4);
          addr := (addr + left) % ADDRESSES;
          count := count - left;
          return 1;
        }
        assert data[pos..length][..count] == data[pos..pos + count];
        assert data[pos..length][count..] == data[pos + count..length];
        BmWrite(m, addr, data, pos, count, 4);
        left := left - count;
        pos := pos + count;
        if left == 0 && !eot {
          return 1;
        } else if left > 0 && eot {
          return 4;
        } else if eot {
          return 5;
        }
        NextAddr(m);
      }
    }
  }

  lemma Whole(zeros: seq<Byte>, vals: seq<Byte>)
    requires |zeros| == |vals|
    ensures Over(zeros, 0, vals) == vals
  {
  }

  // ---- resuming ----

  /** The transfer stops strictly inside a block. */
  predicate Inside(m: seq<Byte>, s: Sg, ts: nat, mask: nat, n: nat)
    requires s.count > 0
    decreases n
  {
    n < s.count || (n > s.count && !s.eot && Inside(m, Next(m, s, ts, mask), ts, mask, n - s.count))
  }

  /**
   A transfer that stops inside a block is resumed by the next one exactly where it stopped: the two together
   deliver what one transfer of their total length would, and end the same way.
   */
  lemma {:induction false} Resumes(m: seq<Byte>, s: Sg, ts: nat, mask: nat, n: nat)
    requires s.count > 0 && Inside(m, s, ts, mask, n)
    ensures Continues(m, s, AfterBytes(m, s, ts, mask, n), ts, mask, n)
    decreases n
  {
    hide Next, At;
    if n < s.count {
      ShortBlock(m, s, ts, mask, n);
    } else {
      var t, c := Next(m, s, ts, mask), s.count;
      Resumes(m, t, ts, mask, n - c);
      var r := AfterBytes(m, s, ts, mask, n);
      forall k: nat ensures StreamByte(m, s, ts, mask, n + k) == StreamByte(m, r, ts, mask, k) {
        assert StreamByte(m, t, ts, mask, (n - c) + k) == StreamByte(m, r, ts, mask, k);
      }
      forall i: nat ensures Available(m, s, ts, mask, n + i) == n + Available(m, r, ts, mask, i) {
        assert Available(m, t, ts, mask, (n - c) + i) == (n - c) + Available(m, r, ts, mask, i);
      }
      forall i: nat ensures Ends(m, s, ts, mask, n + i) == Ends(m, r, ts, mask, i) {
        assert Ends(m, t, ts, mask, (n - c) + i) == Ends(m, r, ts, mask, i);
      }
    }
  }

  /** A block with its first `n` bytes taken off. */
  lemma ShortBlock(m: seq<Byte>, s: Sg, ts: nat, mask: nat, n: nat)
    requires n < s.count
    ensures var r := AfterBytes(m, s, ts, mask, n);
            Continues(m, s, r, ts, mask, n)
  {
    hide Next, At;
    var r := AfterBytes(m, s, ts, mask, n);
    NextSame(m, s, r, ts, mask);
    forall k: nat ensures StreamByte(m, s, ts, mask, n + k) == StreamByte(m, r, ts, mask, k) {
      AtWraps(m, s.addr + n, k);
      assert s.addr + (n + k) == s.addr + n + k;
    }
    forall i: nat ensures Available(m, s, ts, mask, n + i) == n + Available(m, r, ts, mask, i) {
    }
    forall i: nat ensures Ends(m, s, ts, mask, n + i) == Ends(m, r, ts, mask, i) {
    }
  }

  /** From `p` bytes into the chain at `s` on, the chain at `s` is the chain at `r`. */
  ghost predicate Continues(m: seq<Byte>, s: Sg, r: Sg, ts: nat, mask: nat, p: nat)
    requires s.count > 0 && r.count > 0
  {
    && (forall k: nat :: StreamByte(m, s, ts, mask, p + k) == StreamByte(m, r, ts, mask, k))
    && (forall i: nat :: Available(m, s, ts, mask, p + i) == p + Available(m, r, ts, mask, i))
    && (forall i: nat :: Ends(m, s, ts, mask, p + i) == Ends(m, r, ts, mask, i))
  }

  /** Where in the chain the transfer after one of `n` bytes starts. */
  function NextStart(m: seq<Byte>, s: Sg, ts: nat, mask: nat, n: nat): int
    requires s.count > 0
  {
    if Inside(m, s, ts, mask, n) then n
    else Available(m, s, ts, mask, n) - AfterBytes(m, s, ts, mask, n).count
  }

  /** A transfer that stops at the end of a block, or finds the chain too short, leaves its last block to be delivered again. */
  lemma {:induction false} RepeatsBlock(m: seq<Byte>, s: Sg, ts: nat, mask: nat, n: nat)
    requires s.count > 0 && !Inside(m, s, ts, mask, n)
    ensures 0 <= NextStart(m, s, ts, mask, n) < n
    ensures Continues(m, s, AfterBytes(m, s, ts, mask, n), ts, mask, NextStart(m, s, ts, mask, n))
    decreases n
  {
    hide Next, At, Continues;
    if n == s.count || s.eot {
      SameContinues(m, s, ts, mask);
    } else {
      RepeatsBlock(m, Next(m, s, ts, mask), ts, mask, n - s.count);
      ContinuesNext(m, s, AfterBytes(m, s, ts, mask, n), ts, mask, NextStart(m, s, ts, mask, n) - s.count);
    }
  }

  lemma SameContinues(m: seq<Byte>, s: Sg, ts: nat, mask: nat)
    requires s.count > 0
    ensures Continues(m, s, s, ts, mask, 0)
  {
    hide StreamByte, Available, Ends;
  }

  lemma ContinuesNext(m: seq<Byte>, s: Sg, r: Sg, ts: nat, mask: nat, p: nat)
    requires s.count > 0 && r.count > 0 && !s.eot && Continues(m, Next(m, s, ts, mask), r, ts, mask, p)
    ensures Continues(m, s, r, ts, mask, s.count + p)
  {
    hide Next, At, StreamByte, Available, Ends;
    forall k: nat ensures StreamByte(m, s, ts, mask, s.count + p + k) == StreamByte(m, r, ts, mask, k) {
      NextBytes(m, s, ts, mask, p + k);
      assert s.count + (p + k) == s.count + p + k;
    }
    forall i: nat ensures Available(m, s, ts, mask, s.count + p + i) == s.count + p + Available(m, r, ts, mask, i) {
      NextBytes(m, s, ts, mask, p + i);
      assert s.count + (p + i) == s.count + p + i;
    }
    forall i: nat ensures Ends(m, s, ts, mask, s.count + p + i) == Ends(m, r, ts, mask, i) {
      NextBytes(m, s, ts, mask, p + i);
      assert s.count + (p + i) == s.count + p + i;
    }
  }

  /** What lies beyond a block that is not the last is the rest of the chain. */
  lemma NextBytes(m: seq<Byte>, s: Sg, ts: nat, mask: nat, j: nat)
    requires s.count > 0 && !s.eot
    ensures var t := Next(m, s, ts, mask);
            && StreamByte(m, s, ts, mask, s.count + j) == StreamByte(m, t, ts, mask, j)
            && Available(m, s, ts, mask, s.count + j) == s.count + Available(m, t, ts, mask, j)
            && Ends(m, s, ts, mask, s.count + j) == Ends(m, t, ts, mask, j)
  {
    hide Next, At;
  }

  /**
   Where the next transfer starts, for every length of this one: where this one stopped exactly when it stopped inside
   a block, and otherwise at the beginning of what was left of its last block. What it delivers and how it ends are what
   the chain holds from there on.
   */
  lemma NextTransfer(m: seq<Byte>, s: Sg, ts: nat, mask: nat, n: nat, i: nat)
    requires s.count > 0
    ensures var r, p := AfterBytes(m, s, ts, mask, n), NextStart(m, s, ts, mask, n);
            && 0 <= p <= n && (p == n <==> Inside(m, s, ts, mask, n))
            && Available(m, s, ts, mask, p + i) == p + Available(m, r, ts, mask, i)
            && Stream(m, r, ts, mask, i) == Stream(m, s, ts, mask, p + i)[p..]
            && Code(m, r, ts, mask, i) == Code(m, s, ts, mask, p + i)
  {
    hide Next, At, StreamByte, Available, Ends, AfterBytes, Inside;
    if Inside(m, s, ts, mask, n) {
      Resumes(m, s, ts, mask, n);
    } else {
      RepeatsBlock(m, s, ts, mask, n);
    }
    assert Continues(m, s, AfterBytes(m, s, ts, mask, n), ts, mask, NextStart(m, s, ts, mask, n));
  }

  lemma NextSame(m: seq<Byte>, s: Sg, r: Sg, ts: nat, mask: nat)
    requires r.ptr == s.ptr
    ensures Next(m, r, ts, mask) == Next(m, s, ts, mask)
  {
  }

  lemma AtWraps(m: seq<Byte>, x: nat, k: nat)
    ensures At(m, x % ADDRESSES + k) == At(m, x + k)
  {
    assert x == x / ADDRESSES * ADDRESSES + x % ADDRESSES;
    assert (x + k) % ADDRESSES == (x % ADDRESSES + k) % ADDRESSES;
  }
}
