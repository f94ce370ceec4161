/**
 Latched reads: whatever else happens to the counter, the bytes of a latched count and a latched
 status are the ones that were current when the latch command arrived.
 */
module PitLatch {
  import opened Bits
  import opened PitExact

  /** Everything a program or the board can do to a counter without a new control word. */
  datatype Access =
    | Signal(event: Event)
    | LatchCountCommand
    | LatchStatusCommand
    | ReadByte

  /** The channel, the bytes that count reads returned and the bytes that status reads returned. */
  datatype History = History(channel: Channel, counts: seq<Byte>, statuses: seq<Byte>)

  function Perform(h: History, e: Access): History {
    var c := h.channel;
    match e
    case Signal(event) => h.(channel := Apply(c, event))
    case LatchCountCommand => h.(channel := c.(bus := LatchCount(c.bus, c.core.ce)))
    case LatchStatusCommand => h.(channel := c.(bus := LatchStatus(c.bus, StatusByte(c))))
    case ReadByte =>
      var r := DataRead(c);
      var d := c.(bus := r.bus);
      if c.bus.statusLatched then History(d, h.counts, h.statuses + [r.value])
      else History(d, h.counts + [r.value], h.statuses)
  }

  function Session(h: History, es: seq<Access>): History {
    if es == [] then h else Perform(Session(h, es[..|es| - 1]), es[|es| - 1])
  }

  /** The bytes a latched count is read back as, in the programmed access mode. */
  function LatchedBytes(rwMode: Byte, value: Word): seq<Byte> {
    if rwMode == 1 then [value % 0x100]
    else if rwMode == 2 then [value / 0x100]
    else [value % 0x100, value / 0x100]
  }

  /** `done` bytes of the latched count `value` have been read; the rest are still to come. */
  ghost predicate Holding(c: Channel, value: Word, done: nat) {
    && c.bus.countLatched && c.bus.outputLatch == value
    && done < |LatchedBytes(c.cfg.rwMode, value)|
    && (c.cfg.rwMode == 3 ==> c.bus.readPhase == done)
  }

  lemma OtherEventsKeepLatch(h: History, e: Access, value: Word, done: nat)
    requires Holding(h.channel, value, done) && !e.ReadByte?
    ensures var d := Perform(h, e).channel;
            && Holding(d, value, done) && d.cfg == h.channel.cfg
            && Perform(h, e).counts == h.counts && Perform(h, e).statuses == h.statuses
            && (h.channel.bus.statusLatched ==>
                  d.bus.statusLatched && d.bus.statusLatch == h.channel.bus.statusLatch)
  {
  }

  /** Position in the read-back after a run: either still holding, or released with every byte delivered. */
  ghost predicate Delivered(h: History, start: History, value: Word) {
    var bytes := LatchedBytes(start.channel.cfg.rwMode, value);
    && h.channel.cfg == start.channel.cfg
    && |h.counts| >= |start.counts|
    && var seen := h.counts[|start.counts|..];
       if |seen| < |bytes| then Holding(h.channel, value, |seen|) && seen == bytes[..|seen|]
       else seen[..|bytes|] == bytes
  }

  lemma DeliveredStep(h: History, start: History, value: Word, e: Access)
    requires 1 <= start.channel.cfg.rwMode <= 3 && Delivered(h, start, value)
    ensures Delivered(Perform(h, e), start, value)
  {
    var bytes := LatchedBytes(start.channel.cfg.rwMode, value);
    var seen := h.counts[|start.counts|..];
    if |seen| < |bytes| && !e.ReadByte? {
      OtherEventsKeepLatch(h, e, value, |seen|);
    } else {
      var g := Perform(h, e);
      if g.counts != h.counts {
        assert g.counts[|start.counts|..] == seen + [g.counts[|h.counts|]];
      }
    }
  }

  lemma {:induction false} DeliveredRun(start: History, value: Word, es: seq<Access>)
    requires 1 <= start.channel.cfg.rwMode <= 3 && Holding(start.channel, value, 0)
    ensures Delivered(Session(start, es), start, value)
  {
    hide Perform;
    if es == [] {
      assert start.counts[|start.counts|..] == [];
    } else {
      DeliveredRun(start, value, es[..|es| - 1]);
      DeliveredStep(Session(start, es[..|es| - 1]), start, value, es[|es| - 1]);
    }
  }

  /**
   The count latched by a latch command is what the next count reads return, byte by byte, through any
   interleaving of clocks, GATE edges, count writes, further latch commands and status reads.
   */
  lemma LatchedCount(c: Channel, es: seq<Access>)
    requires 1 <= c.cfg.rwMode <= 3 && !c.bus.countLatched
    ensures var bytes := LatchedBytes(c.cfg.rwMode, VisibleCount(c.core.ce));
            var counts := Session(Perform(History(c, [], []), LatchCountCommand), es).counts;
            forall i :: 0 <= i < |counts| && i < |bytes| ==> counts[i] == bytes[i]
  {
    var start := Perform(History(c, [], []), LatchCountCommand);
    DeliveredRun(start, VisibleCount(c.core.ce), es);
    var bytes := LatchedBytes(c.cfg.rwMode, VisibleCount(c.core.ce));
    var counts := Session(start, es).counts;
    assert counts[|start.counts|..] == counts;
    forall i | 0 <= i < |counts| && i < |bytes|
      ensures counts[i] == bytes[i]
    {
      if |counts| < |bytes| {
        assert counts == bytes[..|counts|];
      } else {
        assert counts[..|bytes|][i] == bytes[i];
      }
    }
  }

  /** The read that delivers the last byte releases the latch: the next reads are live again. */
  lemma LastByteReleases(c: Channel, value: Word)
    requires 1 <= c.cfg.rwMode <= 3 && !c.bus.statusLatched
    requires Holding(c, value, |LatchedBytes(c.cfg.rwMode, value)| - 1)
    ensures var r := DataRead(c);
            && r.value == LatchedBytes(c.cfg.rwMode, value)[|LatchedBytes(c.cfg.rwMode, value)| - 1]
            && !r.bus.countLatched
  {
  }

  ghost predicate StatusHeld(h: History, status: Byte) {
    if h.statuses == [] then h.channel.bus.statusLatched && h.channel.bus.statusLatch == status
    else h.statuses[0] == status
  }

  lemma StatusStep(h: History, status: Byte, e: Access)
    requires StatusHeld(h, status)
    ensures StatusHeld(Perform(h, e), status)
  {
  }

  lemma {:induction false} StatusRun(h: History, status: Byte, es: seq<Access>)
    requires StatusHeld(h, status)
    ensures StatusHeld(Session(h, es), status)
  {
    hide Perform;
    if es != [] {
      StatusRun(h, status, es[..|es| - 1]);
      StatusStep(Session(h, es[..|es| - 1]), status, es[|es| - 1]);
    }
  }

  /** A latched status is the first byte read: no count byte comes before it, and it does not change. */
  lemma LatchedStatusFirst(c: Channel, es: seq<Access>)
    requires !c.bus.statusLatched
    ensures var h := Session(Perform(History(c, [], []), LatchStatusCommand), es);
            && (h.statuses != [] ==> h.statuses[0] == StatusByte(c))
            && (h.counts != [] ==> h.statuses != [])
  {
    var start := Perform(History(c, [], []), LatchStatusCommand);
    StatusRun(start, StatusByte(c), es);
    NoCountBeforeStatus(start, es);
  }

  lemma {:induction false} NoCountBeforeStatus(h: History, es: seq<Access>)
    requires h.statuses == [] && h.counts == [] && h.channel.bus.statusLatched
    ensures var g := Session(h, es);
            g.statuses == [] ==> g.counts == [] && g.channel.bus.statusLatched
  {
    if es != [] {
      NoCountBeforeStatus(h, es[..|es| - 1]);
    }
  }
}
