/** Physical memory as the bus sees it: 32-bit addresses, FFh where nothing answers. */
module PhysMem {
  import opened Bits

  const ADDRESSES: nat := 0x1_0000_0000

  function At(m: seq<Byte>, a: int): Byte {
    if a % ADDRESSES < |m| then m[a % ADDRESSES] else 0xff
  }

  function With(m: seq<Byte>, a: int, v: Byte): (r: seq<Byte>)
    ensures |r| == |m|
  {
    if a % ADDRESSES < |m| then m[a % ADDRESSES := v] else m
  }

  method ReadByte(m: array<Byte>, a: int) returns (v: Byte)
    ensures v == At(m[..], a)
  {
    v := if a % ADDRESSES < m.Length then m[a % ADDRESSES] else 0xff;
  }

  method WriteByte(m: array<Byte>, a: int, v: Byte)
    modifies m
    ensures m[..] == With(old(m[..]), a, v)
  {
    if a % ADDRESSES < m.Length {
      m[a % ADDRESSES] := v;
    }
  }

  /** A word is written low byte first. */
  function WithWord(m: seq<Byte>, a: int, v: Word): seq<Byte> {
    With(With(m, a, v % 0x100), a + 1, v / 0x100)
  }

  function WordAt(m: seq<Byte>, a: int): Word {
    At(m, a) + 0x100 * At(m, a + 1)
  }

  /** A mapped byte reads back as written; the others are as they were. */
  lemma AtWith(m: seq<Byte>, a: nat, b: nat, v: Byte)
    requires a < |m| && b < |m| <= ADDRESSES
    ensures At(With(m, a, v), b) == if a == b then v else At(m, b)
  {
  }
}
