/** One channel of the AT-style controllers of src/dma.c, byte-wide or word-wide, without PS/2 or extended modes. */
module DmaLegacy {
  import opened Bits
  import opened PhysMem
  import opened DmaXt
  import opened DmaRun
  import opened DmaStore

  /** The controller's disable and software-request flags and this channel's bits of the shared registers. */
  datatype Gate = Gate(disabled: bool, enabled: bool, masked: bool, soft: bool)

  datatype Marks = Marks(tc: bool, served: bool, pend: bool)

  datatype Legacy = Legacy(gate: Gate, marks: Marks, d: Chan, g: Geometry)

  predicate Refuses(l: Legacy, a: Access) {
    var k := KindOf(l.d.mode);
    || l.gate.disabled || !l.gate.enabled || (l.gate.masked && !l.gate.soft)
    || (if a == Reading then k != ReadMem else k != WriteMem && k != Verify)
  }

  /** The count side of a transfer. */
  function Retire(l: Legacy): Legacy {
    var d := l.d;
    if !Over(d) then l.(d := d.(cc := d.cc - 1))
    else if AutoInit(d.mode) then l.(d := d.(cc := d.cb, ac := d.ab), marks := l.marks.(tc := true))
    else l.(d := d.(cc := d.cc - 1), marks := l.marks.(tc := true), gate := l.gate.(masked := true))
  }

  function Settled(l: Legacy): Legacy {
    l.(marks := l.marks.(pend := false))
  }

  /** `dma_channel_advance`: finish a transfer that was only peeked at. */
  function Advanced(l: Legacy): Legacy {
    if l.marks.pend then Settled(Retire(l)) else l
  }

  /** The address side of a transfer. */
  function Stepped(l: Legacy): Legacy {
    l.(d := l.d.(ac := StepIn(l.d, l.g)), marks := l.marks.(served := true))
  }

  function Ready(l: Legacy, a: Access): Legacy {
    if a == Reading then Advanced(l) else Settled(l)
  }

  /** A transfer's new state. */
  function Transfer(l: Legacy, a: Access): Legacy {
    if Refuses(l, a) then l else Retire(Stepped(Ready(l, a)))
  }

  /** What the caller gets: a write reports the end by the mask, a read by the count. */
  function Result(l: Legacy, a: Access): Outcome {
    if Refuses(l, a) then NoData
    else
      var r := Ready(l, a);
      Moved(r.d.ac, KindOf(l.d.mode) == Verify, if a == Reading then Over(r.d) else Transfer(l, a).gate.masked)
  }

  function Peek(l: Legacy): Legacy {
    if Refuses(l, Reading) then l
    else var s := Stepped(Advanced(l)); s.(marks := s.marks.(pend := true))
  }

  class Channel {
    var gate: Gate
    var marks: Marks
    var d: Chan
    const g: Geometry

    function View(): Legacy
      reads this
    {
      Legacy(gate, marks, d, g)
    }

    constructor (l: Legacy)
      ensures View() == l
    {
      gate, marks, d, g := l.gate, l.marks, l.d, l.g;
    }

    method CountDown() returns (tc: bool)
      modifies this
      ensures View() == Retire(old(View())) && tc == Over(old(d))
    {
      tc := false;
      d := d.(cc := d.cc - 1);
      if d.cc < 0 {
        tc := true;
        if AutoInit(d.mode) {
          d := d.(cc := d.cb, ac := d.ab);
        } else {
          gate := gate.(masked := true);
        }
        marks := marks.(tc := true);
      }
    }

    method StepAddress()
      modifies this`d
      ensures d == old(d).(ac := StepIn(old(d), g))
    {
      var unit := if g.wide then 0x2_0000 else 0x1_0000;
      var step := if g.wide then 2 else 1;
      if Down(d.mode) {
        d := d.(ac := And(d.ac / unit, g.pageMask) * unit + (d.ac % unit - step) % unit);
      } else {
        d := d.(ac := And(d.ac / unit, g.pageMask) * unit + (d.ac % unit + step) % unit);
      }
    }

    method Advance() returns (tc: bool)
      modifies this
      ensures View() == Advanced(old(View())) && tc == (old(marks.pend) && Over(old(d)))
    {
      tc := false;
      if marks.pend {
        tc := CountDown();
        marks := marks.(pend := false);
      }
    }

    method Data(m: array<Byte>) returns (v: Word)
      ensures v == DataAt(g, m[..], d.ac)
    {
      var low := ReadByte(m, d.ac);
      v := low;
      if g.wide {
        var high: int := ReadByte(m, d.ac + 1);
        v := low + 0x100 * high;
      }
    }

    method ReadOnly(m: array<Byte>) returns (v: int)
      modifies this
      ensures View() == Peek(old(View()))
      ensures v == if Refuses(old(View()), Reading) then DMA_NODATA
                   else DataAt(g, m[..], Advanced(old(View())).d.ac)
    {
      if gate.disabled || !gate.enabled || (gate.masked && !gate.soft) || KindOf(d.mode) != ReadMem {
        return DMA_NODATA;
      }
      var tc := Advance();
      v := Data(m);
      StepAddress();
      marks := marks.(served := true, pend := true);
    }

    method Read(m: array<Byte>) returns (v: int)
      modifies this
      ensures View() == Transfer(old(View()), Reading)
      ensures v == match Result(old(View()), Reading)
                   case NoData => DMA_NODATA
                   case Moved(a, _, tc) => DataAt(g, m[..], a) + (if tc then DMA_OVER else 0)
    {
      if gate.disabled || !gate.enabled || (gate.masked && !gate.soft) || KindOf(d.mode) != ReadMem {
        return DMA_NODATA;
      }
      if marks.pend {
        var tc := Advance();
      }
      v := Data(m);
      StepAddress();
      marks := marks.(served := true);
      var tc := CountDown();
      if tc {
        v := v + DMA_OVER;
      }
    }

    method Write(m: array<Byte>, val: Word) returns (v: int)
      modifies this, m
      ensures View() == Transfer(old(View()), Writing)
      ensures v == match Result(old(View()), Writing)
                   case NoData => DMA_NODATA
                   case Moved(_, _, tc) => if tc then DMA_OVER else 0
      ensures m[..] == match Result(old(View()), Writing)
                       case Moved(a, false, _) =>
                         WithData(g, old(m[..]), a, val)
                       case _ => old(m[..])
    {
      if gate.disabled || !gate.enabled || (gate.masked && !gate.soft)
         || (KindOf(d.mode) != WriteMem && KindOf(d.mode) != Verify) {
        return DMA_NODATA;
      }
      if KindOf(d.mode) == WriteMem {
        WriteByte(m, d.ac, val % 0x100);
        if g.wide {
          WriteByte(m, d.ac + 1, val / 0x100);
        }
      }
      StepAddress();
      marks := marks.(served := true, pend := false);
      var tc := CountDown();
      v := if gate.masked then DMA_OVER else 0;
    }
  }

  // ---- runs ----

  function After(l: Legacy, a: Access, n: nat): Legacy {
    if n == 0 then l else Transfer(After(l, a, n - 1), a)
  }

  /** Programmed and idle, with nothing that refuses the access: only a software request passes the mask. */
  predicate Fresh(l: Legacy, a: Access) {
    !Refuses(l, a) && !l.marks.pend && Loaded(l.d, l.g)
  }

  lemma TransferMoves(l: Legacy, a: Access)
    requires !Refuses(l, a) && !l.marks.pend
    ensures Transfer(l, a) ==
            l.(d := Move(l.d, l.g),
               marks := Marks(l.marks.tc || Over(l.d), true, false),
               gate := if Over(l.d) && !AutoInit(l.d.mode) then l.gate.(masked := true) else l.gate)
  {
    hide Bit, And;
  }

  /** How many of `n` attempts take place: a software request is not stopped by terminal count. */
  function Taken(l: Legacy, n: nat): nat {
    if l.gate.soft then n else Done(l.d, n)
  }

  /** The registers after `n` attempts: moved by exactly the transfers that took place. */
  function Expected(l: Legacy, n: nat): Legacy {
    l.(d := Moves(l.d, l.g, Taken(l, n)),
       marks := Marks(l.marks.tc || n > l.d.cb, l.marks.served || n > 0, false),
       gate := l.gate.(masked := l.gate.masked || (!AutoInit(l.d.mode) && n > l.d.cb)))
  }

  lemma {:induction false} RunState(l: Legacy, a: Access, n: nat)
    requires Fresh(l, a)
    ensures After(l, a, n) == Expected(l, n)
  {
    hide Bit, And, Transfer, Loaded, Expected;
    if n == 0 {
      StartExpected(l, a);
    } else {
      RunState(l, a, n - 1);
      NextExpected(l, a, n - 1);
    }
  }

  lemma StartExpected(l: Legacy, a: Access)
    requires Fresh(l, a)
    ensures Expected(l, 0) == l
  {
    hide Bit, And, Move;
  }

  lemma NextExpected(l: Legacy, a: Access, n: nat)
    requires Fresh(l, a)
    ensures Transfer(Expected(l, n), a) == Expected(l, n + 1)
  {
    hide Bit, And, Transfer, Loaded, Move, Over;
    var p := Expected(l, n);
    Placed(l.d, l.g, Taken(l, n));
    if !l.gate.soft && !AutoInit(l.d.mode) && n > l.d.cb {
      RefusedStays(p, a);
    } else {
      TransferMoves(p, a);
    }
  }

  lemma RefusedStays(l: Legacy, a: Access)
    requires Refuses(l, a)
    ensures Transfer(l, a) == l
  {
  }

  /** Whether attempt `n` reports the end: a read by the count, a write by the mask bit it leaves. */
  predicate ReportsEnd(l: Legacy, a: Access, n: nat) {
    if a == Reading then Place(l.d, n) >= l.d.cb
    else l.gate.masked || (!AutoInit(l.d.mode) && n >= l.d.cb)
  }

  /**
   Attempt `n` of a run: it moves the byte or word at the base address advanced by its place in the period, with wrap
   inside the page. Without auto-initialise everything after the terminal transfer is refused to a device, while a
   software request goes on along the page, each transfer reporting the end again.
   */
  lemma RunResult(l: Legacy, a: Access, n: nat)
    requires Fresh(l, a)
    ensures Result(After(l, a, n), a) ==
            if l.gate.soft || AutoInit(l.d.mode) || n <= l.d.cb
            then Moved(Walk(l.d, l.g, Place(l.d, n)), KindOf(l.d.mode) == Verify, ReportsEnd(l, a, n))
            else NoData
    ensures After(l, a, n).marks.tc == (l.marks.tc || n > l.d.cb)
  {
    hide Bit, And, Transfer, Loaded, Move, Over, Walk;
    RunState(l, a, n);
    var p := After(l, a, n);
    Placed(l.d, l.g, Taken(l, n));
    if !Refuses(p, a) {
      TransferMoves(p, a);
    }
  }

  /** A write reports the end by the mask bit, so with auto-initialise it never does, although the status bit is set. */
  lemma AutoInitWriteSilent(l: Legacy, n: nat)
    requires Fresh(l, Writing) && AutoInit(l.d.mode) && !l.gate.masked
    ensures Result(After(l, Writing, n), Writing) == Moved(Walk(l.d, l.g, n % (l.d.cb + 1)), KindOf(l.d.mode) == Verify, false)
    ensures n > l.d.cb ==> After(l, Writing, n).marks.tc
  {
    hide Bit, Fresh, After, Result, Walk;
    RunResult(l, Writing, n);
  }

  /** Peeking and then advancing is one read. */
  lemma PeekThenAdvance(l: Legacy)
    requires !l.marks.pend
    ensures !Refuses(l, Reading) ==> Advanced(Peek(l)) == Transfer(l, Reading)
    ensures Refuses(l, Reading) ==> Peek(l) == l
  {
    hide Bit, And;
  }

  // ---- a block in memory ----

  /** Memory after the device has handed over `vals` one by one. */
  function Stored(l: Legacy, m: seq<Byte>, vals: seq<Word>): (r: seq<Byte>)
    ensures |r| == |m|
  {
    if vals == [] then m
    else
      var n := |vals| - 1;
      var r := Stored(l, m, vals[..n]);
      match Result(After(l, Writing, n), Writing)
      case Moved(a, false, _) => WithData(l.g, r, a, vals[n])
      case _ => r
  }

  /** The address of attempt `k` of a first pass. */
  lemma FirstPass(l: Legacy, a: Access, k: nat)
    requires Fresh(l, a) && k <= l.d.cb
    ensures var r := Result(After(l, a, k), a);
            r.Moved? && r.addr == Walk(l.d, l.g, k) && r.verify == (KindOf(l.d.mode) == Verify)
  {
    hide Walk, Fresh, Result, After, Loaded, Bit;
    RunResult(l, a, k);
    PlaceFirst(l.d, k);
  }

  /** What the device stores is the block laid along the walk. */
  lemma {:induction false} StoredIsLaid(l: Legacy, m: seq<Byte>, vals: seq<Word>)
    requires Fresh(l, Writing) && KindOf(l.d.mode) == WriteMem && |vals| <= l.d.cb + 1
    ensures Stored(l, m, vals) == Laid(m, l.d, l.g, vals)
  {
    hide Walk, Fresh, Result, After, Bit, WithData;
    if vals != [] {
      StoredIsLaid(l, m, vals[..|vals| - 1]);
      FirstPass(l, Writing, |vals| - 1);
    }
  }

  /** A block written by a device lies at the walked addresses in order, and nothing else in memory changes. */
  lemma BlockStored(l: Legacy, m: seq<Byte>, vals: seq<Word>)
    requires Fresh(l, Writing) && KindOf(l.d.mode) == WriteMem && |vals| <= l.d.cb + 1
    requires Mapped(l.d, l.g, m) && Aligned(l.d, l.g) && Fits(l.g, vals)
    ensures forall k :: 0 <= k < |vals| ==> DataAt(l.g, Stored(l, m, vals), Walk(l.d, l.g, k)) == vals[k]
    ensures forall a: nat :: a < |m| && !Covers(l.d, l.g, |vals|, a) ==> At(Stored(l, m, vals), a) == At(m, a)
  {
    hide Walk, Fresh, Stored, Laid, DataAt, At, Mapped, Aligned, Fits, Covers, Bit;
    StoredIsLaid(l, m, vals);
    forall k | 0 <= k < |vals| ensures DataAt(l.g, Stored(l, m, vals), Walk(l.d, l.g, k)) == vals[k] {
      LaidAt(m, l.d, l.g, vals, k);
    }
    forall a: nat | a < |m| && !Covers(l.d, l.g, |vals|, a) ensures At(Stored(l, m, vals), a) == At(m, a) {
      LaidElsewhere(m, l.d, l.g, vals, a);
    }
  }

  /** What one device stores another fetches back, when the two channels are programmed for the same block. */
  lemma BlockRoundTrip(l: Legacy, r: Legacy, m: seq<Byte>, vals: seq<Word>, k: nat)
    requires Fresh(l, Writing) && KindOf(l.d.mode) == WriteMem && |vals| <= l.d.cb + 1
    requires Mapped(l.d, l.g, m) && Aligned(l.d, l.g) && Fits(l.g, vals)
    requires Fresh(r, Reading) && r.g.wide == l.g.wide
    requires r.d.ab == l.d.ab && r.d.cb == l.d.cb && Down(r.d.mode) == Down(l.d.mode)
    requires k < |vals|
    ensures var t := Result(After(r, Reading, k), Reading);
            t.Moved? && DataAt(r.g, Stored(l, m, vals), t.addr) == vals[k]
  {
    hide Fresh, Result, After, Bit, Stored, Mapped, Aligned, Fits, Walk, Covers, At;
    BlockStored(l, m, vals);
    FirstPass(r, Reading, k);
    WalkSame(r.d, r.g, l.d, l.g, k);
  }
}
