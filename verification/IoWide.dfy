/** Port reads and writes of one, two and four bytes, assembled from whatever the handlers offer (src/io.c). */
module IoWide {
  import opened Bits
  import opened IoTable
  import opened IoPorts

  type Long = x: int | 0 <= x < 0x1_0000_0000 witness 0

  /** What the entry points answer, given their private pointer and the port. */
  datatype Devices = Devices(rb: (int, int, nat) -> Byte, rw: (int, int, nat) -> Word, rl: (int, int, nat) -> Long)

  function Port(p: nat, i: nat): nat {
    (p + i) % PORTS
  }

  /** A byte handler takes part in an access only if it has no entry point of a wider size up to that access. */
  predicate AsByte(h: Handler, width: nat) {
    h.inb != 0 && (width >= 2 ==> h.inw == 0) && (width >= 4 ==> h.inl == 0)
  }

  predicate AsWord(h: Handler, width: nat) {
    h.inw != 0 && (width >= 4 ==> h.inl == 0)
  }

  function AndByte(a: Byte, b: Byte): Byte {
    AndBound(a, b);
    And(a, b)
  }

  function AndWord(a: Word, b: Word): Word {
    AndBound(a, b);
    And(a, b)
  }

  function AndLong(a: Long, b: Long): Long {
    AndBound(a, b);
    And(a, b)
  }

  // ---- one list ----

  function Bytes(d: Devices, s: seq<Handler>, port: nat, width: nat, init: Byte): Byte {
    if s == [] then init
    else
      var h, r := s[|s| - 1], Bytes(d, s[..|s| - 1], port, width, init);
      if AsByte(h, width) then AndByte(r, d.rb(h.inb, h.priv, port)) else r
  }

  function Words(d: Devices, s: seq<Handler>, port: nat, width: nat, init: Word): Word {
    if s == [] then init
    else
      var h, r := s[|s| - 1], Words(d, s[..|s| - 1], port, width, init);
      if AsWord(h, width) then AndWord(r, d.rw(h.inw, h.priv, port)) else r
  }

  function Longs(d: Devices, s: seq<Handler>, port: nat): Long {
    if s == [] then 0xffff_ffff
    else
      var h, r := s[|s| - 1], Longs(d, s[..|s| - 1], port);
      if h.inl != 0 then AndLong(r, d.rl(h.inl, h.priv, port)) else r
  }

  // ---- the three widths ----

  function InB(d: Devices, t: Table, p: nat): Byte
    requires p < PORTS
  {
    Bytes(d, t[p], p, 1, 0xff)
  }

  /** Word handlers of the port first, then each byte lane with the byte handlers of its own port. */
  function WordLanes(d: Devices, t: Table, p: nat, width: nat, w: Word): Word
    requires p < PORTS
  {
    var q := Port(p, 1);
    var b0: int, b1: int := Bytes(d, t[p], p, width, w % 0x100), Bytes(d, t[q], q, width, w / 0x100);
    b1 * 0x100 + b0
  }

  function InW(d: Devices, t: Table, p: nat): Word
    requires p < PORTS
  {
    WordLanes(d, t, p, 2, Words(d, t[p], p, 2, 0xffff))
  }

  function InL(d: Devices, t: Table, p: nat): Long
    requires p < PORTS
  {
    var l, q := Longs(d, t[p], p), Port(p, 2);
    var w0: int := WordLanes(d, t, p, 4, Words(d, t[p], p, 4, l % 0x1_0000));
    var w1: int := WordLanes(d, t, q, 4, Words(d, t[q], q, 4, l / 0x1_0000));
    w1 * 0x1_0000 + w0
  }

  // ---- narrower accesses ----

  predicate NoWords(s: seq<Handler>) {
    forall i :: 0 <= i < |s| ==> s[i].inw == 0
  }

  predicate NoLongs(s: seq<Handler>) {
    forall i :: 0 <= i < |s| ==> s[i].inl == 0
  }

  lemma {:induction false} BytesNarrow(d: Devices, s: seq<Handler>, port: nat, init: Byte)
    ensures NoWords(s) ==> Bytes(d, s, port, 2, init) == Bytes(d, s, port, 1, init) && Words(d, s, port, 2, 0xffff) == 0xffff
    ensures NoLongs(s) ==> Bytes(d, s, port, 4, init) == Bytes(d, s, port, 2, init) && Longs(d, s, port) == 0xffff_ffff
  {
    if s != [] {
      BytesNarrow(d, s[..|s| - 1], port, init);
    }
  }

  lemma {:induction false} WordsNarrow(d: Devices, s: seq<Handler>, port: nat, init: Word)
    ensures NoLongs(s) ==> Words(d, s, port, 4, init) == Words(d, s, port, 2, init)
  {
    if s != [] {
      WordsNarrow(d, s[..|s| - 1], port, init);
    }
  }

  /** Without word handlers on the two ports a word read is two byte reads. */
  lemma WordIsTwoBytes(d: Devices, t: Table, p: nat)
    requires p < PORTS && NoWords(t[p]) && NoWords(t[Port(p, 1)])
    ensures InW(d, t, p) == InB(d, t, p) + 0x100 * InB(d, t, Port(p, 1))
  {
    hide Bytes, Words, NoWords;
    BytesNarrow(d, t[p], p, 0xff);
    BytesNarrow(d, t[Port(p, 1)], Port(p, 1), 0xff);
  }

  lemma LanesNarrow(d: Devices, t: Table, p: nat, w: Word)
    requires p < PORTS && NoLongs(t[p]) && NoLongs(t[Port(p, 1)])
    ensures WordLanes(d, t, p, 4, w) == WordLanes(d, t, p, 2, w)
  {
    hide Bytes, NoLongs;
    BytesNarrow(d, t[p], p, w % 0x100);
    BytesNarrow(d, t[Port(p, 1)], Port(p, 1), w / 0x100);
  }

  lemma PortAdds(p: nat, i: nat, j: nat)
    ensures Port(Port(p, i), j) == Port(p, i + j)
  {
  }

  /** Without double-word handlers on the four ports a double-word read is two word reads. */
  lemma LongIsTwoWords(d: Devices, t: Table, p: nat)
    requires p < PORTS && forall i :: 0 <= i < 4 ==> NoLongs(t[Port(p, i)])
    ensures InL(d, t, p) == InW(d, t, p) + 0x1_0000 * InW(d, t, Port(p, 2))
  {
    hide Bytes, Words, Longs, NoLongs, WordLanes;
    var q := Port(p, 2);
    PortAdds(p, 2, 1);
    assert Port(p, 0) == p;
    BytesNarrow(d, t[p], p, 0);
    WordsNarrow(d, t[p], p, 0xffff);
    WordsNarrow(d, t[q], q, 0xffff);
    LanesNarrow(d, t, p, Words(d, t[p], p, 2, 0xffff));
    LanesNarrow(d, t, q, Words(d, t[q], q, 2, 0xffff));
  }

  /** Over byte-only handlers a double-word read is the four byte reads of its lanes. */
  lemma LongIsFourBytes(d: Devices, t: Table, p: nat)
    requires p < PORTS && forall i :: 0 <= i < 4 ==> NoLongs(t[Port(p, i)]) && NoWords(t[Port(p, i)])
    ensures InL(d, t, p) == InB(d, t, p) + 0x100 * InB(d, t, Port(p, 1)) + 0x1_0000 * InB(d, t, Port(p, 2))
                            + 0x100_0000 * InB(d, t, Port(p, 3))
  {
    hide InB, InW, InL, NoLongs, NoWords;
    assert Port(p, 0) == p;
    PortAdds(p, 2, 1);
    LongIsTwoWords(d, t, p);
    WordIsTwoBytes(d, t, p);
    WordIsTwoBytes(d, t, Port(p, 2));
  }

  // ---- what a bit of the answer means ----

  /** Every taking-part byte handler of the list answers with bit `k` up. */
  predicate AllBytes(d: Devices, s: seq<Handler>, port: nat, width: nat, k: nat) {
    forall i :: 0 <= i < |s| && AsByte(s[i], width) ==> Bit(d.rb(s[i].inb, s[i].priv, port), k)
  }

  predicate AllWords(d: Devices, s: seq<Handler>, port: nat, width: nat, k: nat) {
    forall i :: 0 <= i < |s| && AsWord(s[i], width) ==> Bit(d.rw(s[i].inw, s[i].priv, port), k)
  }

  predicate AllLongs(d: Devices, s: seq<Handler>, port: nat, k: nat) {
    forall i :: 0 <= i < |s| && s[i].inl != 0 ==> Bit(d.rl(s[i].inl, s[i].priv, port), k)
  }

  lemma {:induction false} BytesBit(d: Devices, s: seq<Handler>, port: nat, width: nat, init: Byte, k: nat)
    ensures Bit(Bytes(d, s, port, width, init), k) <==> Bit(init, k) && AllBytes(d, s, port, width, k)
  {
    hide And, Bit, AsByte;
    if s != [] {
      var t, h := s[..|s| - 1], s[|s| - 1];
      BytesBit(d, t, port, width, init, k);
      AndBit(Bytes(d, t, port, width, init), d.rb(h.inb, h.priv, port), k);
      assert forall i :: 0 <= i < |t| ==> t[i] == s[i];
    }
  }

  lemma {:induction false} WordsBit(d: Devices, s: seq<Handler>, port: nat, width: nat, init: Word, k: nat)
    ensures Bit(Words(d, s, port, width, init), k) <==> Bit(init, k) && AllWords(d, s, port, width, k)
  {
    hide And, Bit, AsWord;
    if s != [] {
      var t, h := s[..|s| - 1], s[|s| - 1];
      WordsBit(d, t, port, width, init, k);
      AndBit(Words(d, t, port, width, init), d.rw(h.inw, h.priv, port), k);
      assert forall i :: 0 <= i < |t| ==> t[i] == s[i];
    }
  }

  lemma {:induction false} LongsBit(d: Devices, s: seq<Handler>, port: nat, k: nat)
    requires k < 32
    ensures Bit(Longs(d, s, port), k) <==> AllLongs(d, s, port, k)
  {
    hide And, Bit;
    if s == [] {
      SixteenTwos();
      Ones(32, 0xffff_ffff, k);
    } else {
      var t, h := s[..|s| - 1], s[|s| - 1];
      LongsBit(d, t, port, k);
      AndBit(Longs(d, t, port), d.rl(h.inl, h.priv, port), k);
      assert forall i :: 0 <= i < |t| ==> t[i] == s[i];
    }
  }

  /** All the bits below the width are ones. */
  lemma {:induction false} Ones(width: nat, v: nat, k: nat)
    requires v == Pow2(width) - 1 && k < width
    ensures Bit(v, k)
  {
    var q := Pow2(width - 1);
    assert v == 2 * (q - 1) + 1;
    assert v / 2 == q - 1 && v % 2 == 1;
    if k > 0 {
      Ones(width - 1, v / 2, k - 1);
    }
  }

  lemma ByteBits(v: nat, k: nat)
    requires v < 0x1_0000
    ensures Bit(v, k) <==> if k < 8 then Bit(v % 0x100, k) else Bit(v / 0x100, k - 8)
  {
    hide Bit;
    EightTwos();
    JoinBit(v % 0x100, v / 0x100, 8, k);
  }

  lemma EightTwos()
    ensures Pow2(8) == 0x100
  {
    assert Pow2(4) == 16;
    assert Pow2(8) == 2 * (2 * (2 * (2 * Pow2(4))));
  }

  /**
   A bit of a one-byte read is up exactly when it is up in the answer of every handler of the port that has a
   byte entry point: the order of the list does not matter.
   */
  lemma ByteReadBit(d: Devices, t: Table, p: nat, k: nat)
    requires p < PORTS && k < 8
    ensures Bit(InB(d, t, p), k) <==> AllBytes(d, t[p], p, 1, k)
  {
    hide Bit, AllBytes;
    EightTwos();
    Ones(8, 0xff, k);
    BytesBit(d, t[p], p, 1, 0xff, k);
  }

  lemma LaneBit(d: Devices, t: Table, p: nat, width: nat, w: Word, k: nat)
    requires p < PORTS && k < 16
    ensures Bit(WordLanes(d, t, p, width, w), k) <==>
            Bit(w, k) && AllBytes(d, t[Port(p, k / 8)], Port(p, k / 8), width, k % 8)
  {
    hide Bit, AllBytes, Bytes;
    var q := Port(p, 1);
    assert Port(p, 0) == p;
    ByteBits(w, k);
    ByteBits(WordLanes(d, t, p, width, w), k);
    if k < 8 {
      BytesBit(d, t[p], p, width, w % 0x100, k);
    } else {
      BytesBit(d, t[q], q, width, w / 0x100, k - 8);
    }
  }

  /** A bit of a two-byte read: the word handlers of the port and the byte-only handlers of the bit's own port. */
  lemma WordReadBit(d: Devices, t: Table, p: nat, k: nat)
    requires p < PORTS && k < 16
    ensures Bit(InW(d, t, p), k) <==>
            AllWords(d, t[p], p, 2, k) && AllBytes(d, t[Port(p, k / 8)], Port(p, k / 8), 2, k % 8)
  {
    hide Bit, AllBytes, AllWords, WordLanes, Words;
    SixteenTwos();
    Ones(16, 0xffff, k);
    WordsBit(d, t[p], p, 2, 0xffff, k);
    LaneBit(d, t, p, 2, Words(d, t[p], p, 2, 0xffff), k);
  }

  lemma SixteenTwos()
    ensures Pow2(16) == 0x1_0000 && Pow2(32) == 0x1_0000_0000
  {
    EightTwos();
    Pow2Adds(8, 8);
    Pow2Adds(16, 16);
  }

  lemma {:induction false} Pow2Adds(a: nat, b: nat)
    ensures Pow2(a + b) == Pow2(a) * Pow2(b)
  {
    if b > 0 {
      Pow2Adds(a, b - 1);
      assert Pow2(a + b) == 2 * Pow2(a + b - 1);
      TwiceProduct(Pow2(a), Pow2(b - 1));
    }
  }

  lemma TwiceProduct(x: nat, y: nat)
    ensures x * (2 * y) == 2 * (x * y)
  {
  }

  lemma WordBits(v: nat, k: nat)
    requires v < 0x1_0000_0000
    ensures Bit(v, k) <==> if k < 16 then Bit(v % 0x1_0000, k) else Bit(v / 0x1_0000, k - 16)
  {
    hide Bit, Pow2;
    SixteenTwos();
    JoinBit(v % 0x1_0000, v / 0x1_0000, 16, k);
  }

  /** A bit of a four-byte read: double-word handlers of the port, word handlers of its half, byte handlers of its lane. */
  lemma LongReadBit(d: Devices, t: Table, p: nat, k: nat)
    requires p < PORTS && k < 32
    ensures var half, lane := Port(p, k / 16 * 2), Port(p, k / 8);
            Bit(InL(d, t, p), k) <==>
              && AllLongs(d, t[p], p, k)
              && AllWords(d, t[half], half, 4, k % 16)
              && AllBytes(d, t[lane], lane, 4, k % 8)
  {
    hide Bit, AllBytes, AllWords, AllLongs, WordLanes, Words, Longs;
    var l, q := Longs(d, t[p], p), Port(p, 2);
    assert Port(p, 0) == p;
    LongsBit(d, t[p], p, k);
    WordBits(l, k);
    WordBits(InL(d, t, p), k);
    if k < 16 {
      WordsBit(d, t[p], p, 4, l % 0x1_0000, k);
      LaneBit(d, t, p, 4, Words(d, t[p], p, 4, l % 0x1_0000), k);
    } else {
      PortAdds(p, 2, (k - 16) / 8);
      WordsBit(d, t[q], q, 4, l / 0x1_0000, k - 16);
      LaneBit(d, t, q, 4, Words(d, t[q], q, 4, l / 0x1_0000), k - 16);
    }
  }

  // ---- writes ----

  /** One call of a handler's entry point. */
  datatype Call = Call(fn: int, priv: int, port: nat, val: int)

  predicate OutAsByte(h: Handler, width: nat) {
    h.outb != 0 && (width >= 2 ==> h.outw == 0) && (width >= 4 ==> h.outl == 0)
  }

  predicate OutAsWord(h: Handler, width: nat) {
    h.outw != 0 && (width >= 4 ==> h.outl == 0)
  }

  function ByteCalls(s: seq<Handler>, port: nat, width: nat, v: Byte): seq<Call> {
    if s == [] then []
    else
      var h, r := s[|s| - 1], ByteCalls(s[..|s| - 1], port, width, v);
      if OutAsByte(h, width) then r + [Call(h.outb, h.priv, port, v)] else r
  }

  function WordCalls(s: seq<Handler>, port: nat, width: nat, v: Word): seq<Call> {
    if s == [] then []
    else
      var h, r := s[|s| - 1], WordCalls(s[..|s| - 1], port, width, v);
      if OutAsWord(h, width) then r + [Call(h.outw, h.priv, port, v)] else r
  }

  function LongCalls(s: seq<Handler>, port: nat, v: Long): seq<Call> {
    if s == [] then []
    else
      var h, r := s[|s| - 1], LongCalls(s[..|s| - 1], port, v);
      if h.outl != 0 then r + [Call(h.outl, h.priv, port, v)] else r
  }

  function OutB(t: Table, p: nat, v: Byte): seq<Call>
    requires p < PORTS
  {
    ByteCalls(t[p], p, 1, v)
  }

  function OutW(t: Table, p: nat, v: Word): seq<Call>
    requires p < PORTS
  {
    var q := Port(p, 1);
    WordCalls(t[p], p, 2, v) + ByteCalls(t[p], p, 2, v % 0x100) + ByteCalls(t[q], q, 2, v / 0x100)
  }

  function OutL(t: Table, p: nat, v: Long): seq<Call>
    requires p < PORTS
  {
    var a, b, c := Port(p, 1), Port(p, 2), Port(p, 3);
    LongCalls(t[p], p, v)
    + WordCalls(t[p], p, 4, v % 0x1_0000) + WordCalls(t[b], b, 4, v / 0x1_0000)
    + ByteCalls(t[p], p, 4, v % 0x100) + ByteCalls(t[a], a, 4, v / 0x100 % 0x100)
    + ByteCalls(t[b], b, 4, v / 0x1_0000 % 0x100) + ByteCalls(t[c], c, 4, v / 0x100_0000)
  }

  predicate NoOutWords(s: seq<Handler>) {
    forall i :: 0 <= i < |s| ==> s[i].outw == 0
  }

  predicate NoOutLongs(s: seq<Handler>) {
    forall i :: 0 <= i < |s| ==> s[i].outl == 0
  }

  lemma {:induction false} CallsNarrow(s: seq<Handler>, port: nat, b: Byte, w: Word, l: Long)
    ensures NoOutWords(s) ==> ByteCalls(s, port, 2, b) == ByteCalls(s, port, 1, b) && WordCalls(s, port, 2, w) == []
    ensures NoOutLongs(s) ==> ByteCalls(s, port, 4, b) == ByteCalls(s, port, 2, b)
                              && WordCalls(s, port, 4, w) == WordCalls(s, port, 2, w) && LongCalls(s, port, l) == []
  {
    if s != [] {
      CallsNarrow(s[..|s| - 1], port, b, w, l);
    }
  }

  /** Over byte-only handlers a two-byte write is the two byte writes, low byte first. */
  lemma OutWordIsTwoBytes(t: Table, p: nat, v: Word)
    requires p < PORTS && NoOutWords(t[p]) && NoOutWords(t[Port(p, 1)])
    ensures OutW(t, p, v) == OutB(t, p, v % 0x100) + OutB(t, Port(p, 1), v / 0x100)
  {
    hide ByteCalls, WordCalls, NoOutWords;
    CallsNarrow(t[p], p, v % 0x100, v, 0);
    CallsNarrow(t[Port(p, 1)], Port(p, 1), v / 0x100, v, 0);
  }

  /**
   Without double-word handlers a four-byte write makes exactly the calls of the two word writes of its halves;
   it only orders them by width first.
   */
  lemma OutLongIsTwoWords(t: Table, p: nat, v: Long)
    requires p < PORTS && forall i :: 0 <= i < 4 ==> NoOutLongs(t[Port(p, i)])
    ensures multiset(OutL(t, p, v)) ==
            multiset(OutW(t, p, v % 0x1_0000)) + multiset(OutW(t, Port(p, 2), v / 0x1_0000))
  {
    hide ByteCalls, WordCalls, LongCalls, NoOutLongs;
    var a, b, c := Port(p, 1), Port(p, 2), Port(p, 3);
    assert Port(p, 0) == p;
    PortAdds(p, 2, 1);
    Quarters(v);
    CallsNarrow(t[p], p, v % 0x100, v % 0x1_0000, v);
    CallsNarrow(t[a], a, v / 0x100 % 0x100, 0, 0);
    CallsNarrow(t[b], b, v / 0x1_0000 % 0x100, v / 0x1_0000, 0);
    CallsNarrow(t[c], c, v / 0x100_0000, 0, 0);
    Regroup(WordCalls(t[p], p, 2, v % 0x1_0000), WordCalls(t[b], b, 2, v / 0x1_0000),
            ByteCalls(t[p], p, 2, v % 0x100), ByteCalls(t[a], a, 2, v / 0x100 % 0x100),
            ByteCalls(t[b], b, 2, v / 0x1_0000 % 0x100), ByteCalls(t[c], c, 2, v / 0x100_0000));
  }

  lemma Quarters(v: Long)
    ensures v % 0x1_0000 % 0x100 == v % 0x100 && v % 0x1_0000 / 0x100 == v / 0x100 % 0x100
    ensures v / 0x1_0000 / 0x100 == v / 0x100_0000
  {
  }

  lemma Regroup(w0: seq<Call>, w1: seq<Call>, b0: seq<Call>, b1: seq<Call>, b2: seq<Call>, b3: seq<Call>)
    ensures multiset([] + w0 + w1 + b0 + b1 + b2 + b3) == multiset(w0 + b0 + b1) + multiset(w1 + b2 + b3)
  {
    assert [] + w0 + w1 + b0 + b1 + b2 + b3 == w0 + w1 + b0 + b1 + b2 + b3;
  }

  /** Over byte-only handlers it is the four byte writes in order. */
  lemma OutLongIsFourBytes(t: Table, p: nat, v: Long)
    requires p < PORTS && forall i :: 0 <= i < 4 ==> NoOutLongs(t[Port(p, i)]) && NoOutWords(t[Port(p, i)])
    ensures OutL(t, p, v) == OutB(t, p, v % 0x100) + OutB(t, Port(p, 1), v / 0x100 % 0x100)
                             + OutB(t, Port(p, 2), v / 0x1_0000 % 0x100) + OutB(t, Port(p, 3), v / 0x100_0000)
  {
    hide ByteCalls, WordCalls, LongCalls, NoOutLongs, NoOutWords;
    var a, b, c := Port(p, 1), Port(p, 2), Port(p, 3);
    assert Port(p, 0) == p;
    CallsNarrow(t[p], p, v % 0x100, v % 0x1_0000, v);
    CallsNarrow(t[a], a, v / 0x100 % 0x100, 0, 0);
    CallsNarrow(t[b], b, v / 0x1_0000 % 0x100, v / 0x1_0000, 0);
    CallsNarrow(t[c], c, v / 0x100_0000, 0, 0);
  }

  // ---- walking the lists ----

  lemma PrefixOf(s: seq<Node>, k: nat)
    requires k < |s|
    ensures HandlersOf(s)[..k + 1][..k] == HandlersOf(s)[..k] && HandlersOf(s)[k] == s[k].handler
  {
  }

  method ReadBytes(io: Ports, d: Devices, port: nat, width: nat, init: Byte) returns (r: Byte)
    requires io.Valid() && port < PORTS
    ensures r == Bytes(d, io.View()[port], port, width, init)
  {
    hide And, HandlersOf;
    ghost var s, k := io.lists[port], 0;
    ghost var hs := HandlersOf(s);
    r := init;
    assert Linked(s, io.first[port], io.last[port]);
    var p := io.first[port];
    while p != null
      invariant k <= |s| && p == (if k < |s| then s[k] else null)
      invariant r == Bytes(d, hs[..k], port, width, init)
      decreases |s| - k
    {
      PrefixOf(s, k);
      assert p.next == After(s, k);
      var h := p.handler;
      if AsByte(h, width) {
        r := AndByte(r, d.rb(h.inb, h.priv, port));
      }
      p := p.next;
      k := k + 1;
    }
    assert hs[..k] == hs;
  }

  method ReadWords(io: Ports, d: Devices, port: nat, width: nat, init: Word) returns (r: Word)
    requires io.Valid() && port < PORTS
    ensures r == Words(d, io.View()[port], port, width, init)
  {
    hide And, HandlersOf;
    ghost var s, k := io.lists[port], 0;
    ghost var hs := HandlersOf(s);
    r := init;
    assert Linked(s, io.first[port], io.last[port]);
    var p := io.first[port];
    while p != null
      invariant k <= |s| && p == (if k < |s| then s[k] else null)
      invariant r == Words(d, hs[..k], port, width, init)
      decreases |s| - k
    {
      PrefixOf(s, k);
      assert p.next == After(s, k);
      var h := p.handler;
      if AsWord(h, width) {
        r := AndWord(r, d.rw(h.inw, h.priv, port));
      }
      p := p.next;
      k := k + 1;
    }
    assert hs[..k] == hs;
  }

  method ReadLongs(io: Ports, d: Devices, port: nat) returns (r: Long)
    requires io.Valid() && port < PORTS
    ensures r == Longs(d, io.View()[port], port)
  {
    hide And, HandlersOf;
    ghost var s, k := io.lists[port], 0;
    ghost var hs := HandlersOf(s);
    r := 0xffff_ffff;
    assert Linked(s, io.first[port], io.last[port]);
    var p := io.first[port];
    while p != null
      invariant k <= |s| && p == (if k < |s| then s[k] else null)
      invariant r == Longs(d, hs[..k], port)
      decreases |s| - k
    {
      PrefixOf(s, k);
      assert p.next == After(s, k);
      var h := p.handler;
      if h.inl != 0 {
        r := AndLong(r, d.rl(h.inl, h.priv, port));
      }
      p := p.next;
      k := k + 1;
    }
    assert hs[..k] == hs;
  }

  method ReadB(io: Ports, d: Devices, port: nat) returns (r: Byte)
    requires io.Valid() && port < PORTS
    ensures r == InB(d, io.View(), port)
  {
    hide Bytes;
    r := ReadBytes(io, d, port, 1, 0xff);
  }

  /** The byte lanes of one word, low port first. */
  method ReadLanes(io: Ports, d: Devices, port: nat, width: nat, w: Word) returns (r: Word)
    requires io.Valid() && port < PORTS
    ensures r == WordLanes(d, io.View(), port, width, w)
  {
    hide Bytes, Linked, HandlersOf;
    var b0: int := ReadBytes(io, d, port, width, w % 0x100);
    var b1: int := ReadBytes(io, d, (port + 1) % PORTS, width, w / 0x100);
    r := b1 * 0x100 + b0;
  }

  method ReadW(io: Ports, d: Devices, port: nat) returns (r: Word)
    requires io.Valid() && port < PORTS
    ensures r == InW(d, io.View(), port)
  {
    hide WordLanes, Words, Linked, HandlersOf;
    var w := ReadWords(io, d, port, 2, 0xffff);
    r := ReadLanes(io, d, port, 2, w);
  }

  method ReadL(io: Ports, d: Devices, port: nat) returns (r: Long)
    requires io.Valid() && port < PORTS
    ensures r == InL(d, io.View(), port)
  {
    hide WordLanes, Words, Longs, Linked, HandlersOf;
    var l := ReadLongs(io, d, port);
    var w0 := ReadWords(io, d, port, 4, l % 0x1_0000);
    var w1 := ReadWords(io, d, (port + 2) % PORTS, 4, l / 0x1_0000);
    var r0: int := ReadLanes(io, d, port, 4, w0);
    var r1: int := ReadLanes(io, d, (port + 2) % PORTS, 4, w1);
    r := r1 * 0x1_0000 + r0;
  }

  method WriteBytes(io: Ports, port: nat, width: nat, v: Byte) returns (calls: seq<Call>)
    requires io.Valid() && port < PORTS
    ensures calls == ByteCalls(io.View()[port], port, width, v)
  {
    hide HandlersOf;
    ghost var s, k := io.lists[port], 0;
    ghost var hs := HandlersOf(s);
    calls := [];
    assert Linked(s, io.first[port], io.last[port]);
    var p := io.first[port];
    while p != null
      invariant k <= |s| && p == (if k < |s| then s[k] else null)
      invariant calls == ByteCalls(hs[..k], port, width, v)
      decreases |s| - k
    {
      PrefixOf(s, k);
      assert p.next == After(s, k);
      var h := p.handler;
      if OutAsByte(h, width) {
        calls := calls + [Call(h.outb, h.priv, port, v)];
      }
      p := p.next;
      k := k + 1;
    }
    assert hs[..k] == hs;
  }

  method WriteWords(io: Ports, port: nat, width: nat, v: Word) returns (calls: seq<Call>)
    requires io.Valid() && port < PORTS
    ensures calls == WordCalls(io.View()[port], port, width, v)
  {
    hide HandlersOf;
    ghost var s, k := io.lists[port], 0;
    ghost var hs := HandlersOf(s);
    calls := [];
    assert Linked(s, io.first[port], io.last[port]);
    var p := io.first[port];
    while p != null
      invariant k <= |s| && p == (if k < |s| then s[k] else null)
      invariant calls == WordCalls(hs[..k], port, width, v)
      decreases |s| - k
    {
      PrefixOf(s, k);
      assert p.next == After(s, k);
      var h := p.handler;
      if OutAsWord(h, width) {
        calls := calls + [Call(h.outw, h.priv, port, v)];
      }
      p := p.next;
      k := k + 1;
    }
    assert hs[..k] == hs;
  }

  method WriteLongs(io: Ports, port: nat, v: Long) returns (calls: seq<Call>)
    requires io.Valid() && port < PORTS
    ensures calls == LongCalls(io.View()[port], port, v)
  {
    hide HandlersOf;
    ghost var s, k := io.lists[port], 0;
    ghost var hs := HandlersOf(s);
    calls := [];
    assert Linked(s, io.first[port], io.last[port]);
    var p := io.first[port];
    while p != null
      invariant k <= |s| && p == (if k < |s| then s[k] else null)
      invariant calls == LongCalls(hs[..k], port, v)
      decreases |s| - k
    {
      PrefixOf(s, k);
      assert p.next == After(s, k);
      var h := p.handler;
      if h.outl != 0 {
        calls := calls + [Call(h.outl, h.priv, port, v)];
      }
      p := p.next;
      k := k + 1;
    }
    assert hs[..k] == hs;
  }

  method WriteB(io: Ports, port: nat, v: Byte) returns (calls: seq<Call>)
    requires io.Valid() && port < PORTS
    ensures calls == OutB(io.View(), port, v)
  {
    hide ByteCalls;
    calls := WriteBytes(io, port, 1, v);
  }

  method WriteW(io: Ports, port: nat, v: Word) returns (calls: seq<Call>)
    requires io.Valid() && port < PORTS
    ensures calls == OutW(io.View(), port, v)
  {
    hide ByteCalls, WordCalls, Linked, HandlersOf;
    calls := WriteWords(io, port, 2, v);
    var low := WriteBytes(io, port, 2, v % 0x100);
    var high := WriteBytes(io, (port + 1) % PORTS, 2, v / 0x100);
    calls := calls + low + high;
  }

  method WriteL(io: Ports, port: nat, v: Long) returns (calls: seq<Call>)
    requires io.Valid() && port < PORTS
    ensures calls == OutL(io.View(), port, v)
  {
    hide ByteCalls, WordCalls, LongCalls, Linked, HandlersOf, Ports.Valid;
    calls := WriteLongs(io, port, v);
    var w0 := WriteWords(io, port, 4, v % 0x1_0000);
    var w1 := WriteWords(io, (port + 2) % PORTS, 4, v / 0x1_0000);
    var b0 := WriteBytes(io, port, 4, v % 0x100);
    var b1 := WriteBytes(io, (port + 1) % PORTS, 4, v / 0x100 % 0x100);
    var b2 := WriteBytes(io, (port + 2) % PORTS, 4, v / 0x1_0000 % 0x100);
    var b3 := WriteBytes(io, (port + 3) % PORTS, 4, v / 0x100_0000);
    calls := calls + w0 + w1 + b0 + b1 + b2 + b3;
  }
}
