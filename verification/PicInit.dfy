/**
 The usual initialisation words, written to one chip or to two in any order of the chips, while devices raise and drop
 their lines: every state of the pair becomes one that the runs of the other modules may start from.
 */
module PicInit {
  import opened Bits
  import opened PicSpec
  import S = PicSteps
  import opened PicNesting
  import opened PicFairness

  datatype Event =
    | Word(chip: Which, data: bool, value: Byte)
    | Edge(num: set<int>, up: bool)
    | Level(num: set<int>, up: bool, was: bool)
    | Refresh

  function Happen(p: Pics, e: Event, pci: bool): Pics
    requires Lined(p)
  {
    match e
    case Word(w, data, v) => WritePort(p, w, data, v, pci)
    case Edge(num, up) => PicInt(p, num, up)
    case Level(num, up, was) => PicIntLevel(p, num, up, was)
    case Refresh => UpdatePending(p)
  }

  function Run(p: Pics, es: seq<Event>, pci: bool): (q: Pics)
    requires Lined(p)
    ensures Lined(q) && q.board == p.board && q.master.icw.isMaster == p.master.icw.isMaster
  {
    if es == [] then p
    else
      HappenLined(Run(p, es[..|es| - 1], pci), es[|es| - 1], pci);
      Happen(Run(p, es[..|es| - 1], pci), es[|es| - 1], pci)
  }

  // ---- the script ----

  /** The words for one chip, with the base of its vectors: port and value. */
  function Script(at: bool, w: Which, base: Byte): seq<(bool, Byte)> {
    if at then [(false, 0x11), (true, base), (true, if w == Master then 4 else 2), (true, 1)]
    else if w == Master then [(false, 0x13), (true, base), (true, 1)]
    else []
  }

  /** How many words chip `w` has been given. */
  function Given(es: seq<Event>, w: Which): nat {
    if es == [] then 0
    else Given(es[..|es| - 1], w) + if es[|es| - 1].Word? && es[|es| - 1].chip == w then 1 else 0
  }

  /** Each chip is given its words in order, and nothing else. */
  predicate Scripted(es: seq<Event>, at: bool, bases: (Byte, Byte)) {
    es == []
    || (Scripted(es[..|es| - 1], at, bases)
        && match es[|es| - 1]
           case Word(w, data, v) =>
             var k, script := Given(es[..|es| - 1], w), Script(at, w, if w == Master then bases.0 else bases.1);
             k < |script| && script[k] == (data, v)
           case _ => true)
  }

  predicate Complete(es: seq<Event>, at: bool) {
    Given(es, Master) == (if at then 4 else 3) && (at ==> Given(es, Slave) == 4)
  }

  // ---- how far a chip has got ----

  function Wants(at: bool, k: nat): nat {
    if k == 1 then WANTS_ICW2
    else if at then (if k == 2 then WANTS_ICW3 else if k == 3 then WANTS_ICW4 else 0)
    else if k == 2 then WANTS_ICW4 else 0
  }

  predicate Progress(c: Chip, at: bool, w: Which, k: nat) {
    k > 0 ==>
      && c.icw.icw1 == (if at then 0x11 else 0x13) && c.icw.state == Wants(at, k)
      && (at && k >= 3 ==> c.icw.icw3 == if w == Master then 4 else 2) && (!at ==> c.icw.icw3 == 0)
      && (c.icw.state == 0 ==> c.icw.icw4 == 1)
      && c.reg.isr == {} && !c.ctl.specialMask && !c.out.interrupt.frozen && c.out.ackBytes == 0
  }

  /** What requests, refreshes and writes to the other chip leave as it was. */
  predicate Kept(c: Chip, d: Chip) {
    && d.icw == c.icw && d.reg.isr == c.reg.isr && d.ctl.specialMask == c.ctl.specialMask
    && d.out.ackBytes == c.out.ackBytes && |d.lines| == |c.lines|
    && (!c.out.interrupt.frozen ==> !d.out.interrupt.frozen)
  }

  lemma KeptProgress(c: Chip, d: Chip, at: bool, w: Which, k: nat)
    requires Kept(c, d) && Progress(c, at, w, k)
    ensures Progress(d, at, w, k)
  {
  }

  lemma UpdateKept(p: Pics)
    ensures Kept(p.master, UpdatePending(p).master) && Kept(p.slave, UpdatePending(p).slave)
  {
    hide Best;
  }

  lemma DriveKept(p: Pics, num: set<int>, up: bool)
    ensures Kept(p.master, Drive(p, num, up).master) && Kept(p.slave, Drive(p, num, up).slave)
  {
    hide UpdatePending;
    UpdateKept(Pics(Request(p.master, LowLines(num), up), Request(p.slave, HighLines(num), up), p.board));
  }

  lemma RequestKept(p: Pics, e: Event, pci: bool)
    requires Lined(p) && !e.Word?
    ensures var q := Happen(p, e, pci); Kept(p.master, q.master) && Kept(p.slave, q.slave)
  {
    hide UpdatePending, Drive, Reachable, Routed, TouchedLines, CountedLines;
    match e
    case Edge(num, up) => DriveKept(p, Reachable(p, Routed(p, num)), up);
    case Level(num, up, was) =>
      var r := Routed(p, num);
      DriveKept(if was != up then LevelLines(p, r, up) else p, Reachable(p, TouchedLines(p, r, up, was)), up);
    case Refresh => UpdateKept(p);
  }

  lemma HappenLined(p: Pics, e: Event, pci: bool)
    requires Lined(p)
    ensures var q := Happen(p, e, pci);
            Lined(q) && q.board == p.board && q.master.icw.isMaster == p.master.icw.isMaster
  {
    hide UpdatePending, Drive, Reachable, Routed, TouchedLines, CountedLines, Bit, NonSpecific, Action, NextWord, MaskOf;
    match e
    case Word(w, data, v) => PortLined(p, w, data, v, pci);
    case _ => RequestKept(p, e, pci); BoardKept(p, e, pci);
  }

  lemma BoardKept(p: Pics, e: Event, pci: bool)
    requires Lined(p) && !e.Word?
    ensures Happen(p, e, pci).board == p.board
  {
    hide Best, CascadeLine, Reachable, Routed, TouchedLines, CountedLines;
  }

  lemma PortLined(p: Pics, w: Which, data: bool, v: Byte, pci: bool)
    requires Lined(p)
    ensures var q := WritePort(p, w, data, v, pci);
            Lined(q) && q.board == p.board && q.master.icw.isMaster == p.master.icw.isMaster
  {
    hide UpdatePending, WriteOcw2, WriteOcw3, WriteImr, Bit;
    S.CommandFixed(p, w, v);
    S.Ocw3Fixed(p, w, v);
    S.ImrFixed(p, w, v);
    S.UpdateFixed(Put(p, w, Restarted(Get(p, w), v)));
  }

  // ---- a word ----

  lemma UsualBits()
    ensures Bit(0x11, 0) && !Bit(0x11, 1) && Bit(0x11, 4) && Bit(0x13, 0) && Bit(0x13, 1) && Bit(0x13, 4)
  {
    assert Bit(0x11, 4) == Bit(8, 3) == Bit(4, 2) == Bit(2, 1) == Bit(1, 0);
    assert Bit(0x13, 4) == Bit(9, 3) == Bit(4, 2);
    assert Bit(0x11, 1) == Bit(8, 0) && Bit(0x13, 1) == Bit(9, 0);
  }

  lemma WordProgress(p: Pics, w: Which, k: nat, base: Byte, pci: bool)
    requires Lined(p) && k < |Script(p.board.at, w, base)| && Progress(Get(p, w), p.board.at, w, k)
    ensures var word := Script(p.board.at, w, base)[k];
            var q := WritePort(p, w, word.0, word.1, pci);
            && Progress(Get(q, w), p.board.at, w, k + 1)
            && Kept(if w == Master then p.slave else p.master, if w == Master then q.slave else q.master)
  {
    hide UpdatePending, WriteImr, WriteOcw2, WriteOcw3, Bit;
    UsualBits();
    if k == 0 {
      UpdateKept(Put(p, w, Restarted(Get(p, w), if p.board.at then 0x11 else 0x13)));
    }
  }

  // ---- the run ----

  lemma {:induction false} RunProgress(p: Pics, es: seq<Event>, bases: (Byte, Byte), pci: bool)
    requires Lined(p) && Scripted(es, p.board.at, bases)
    ensures var q, at := Run(p, es, pci), p.board.at;
            && Progress(q.master, at, Master, Given(es, Master)) && Progress(q.slave, at, Slave, Given(es, Slave))
            && (!at ==> q.slave.reg.isr == p.slave.reg.isr && q.slave.ctl.specialMask == p.slave.ctl.specialMask)
  {
    hide Happen, Progress, Kept, Lined;
    if es != [] {
      var init, e := es[..|es| - 1], es[|es| - 1];
      RunProgress(p, init, bases, pci);
      StepProgress(Run(p, init, pci), e, Given(init, Master), Given(init, Slave), bases, pci);
    } else {
      NoProgress(p);
    }
  }

  lemma NoProgress(p: Pics)
    ensures Progress(p.master, p.board.at, Master, 0) && Progress(p.slave, p.board.at, Slave, 0)
  {
  }

  lemma StepProgress(r: Pics, e: Event, m: nat, s: nat, bases: (Byte, Byte), pci: bool)
    requires Lined(r) && Progress(r.master, r.board.at, Master, m) && Progress(r.slave, r.board.at, Slave, s)
    requires match e
             case Word(w, data, v) =>
               var k, script := if w == Master then m else s, Script(r.board.at, w, if w == Master then bases.0 else bases.1);
               k < |script| && script[k] == (data, v)
             case _ => true
    ensures var q, at := Happen(r, e, pci), r.board.at;
            && Progress(q.master, at, Master, if e.Word? && e.chip == Master then m + 1 else m)
            && Progress(q.slave, at, Slave, if e.Word? && e.chip == Slave then s + 1 else s)
            && (!at ==> q.slave.reg.isr == r.slave.reg.isr && q.slave.ctl.specialMask == r.slave.ctl.specialMask)
  {
    hide Progress, Lined, WritePort, PicInt, PicIntLevel, UpdatePending;
    var q, at := Happen(r, e, pci), r.board.at;
    match e
    case Word(w, _, _) =>
      if w == Master {
        WordProgress(r, w, m, bases.0, pci);
        KeptProgress(r.slave, q.slave, at, Slave, s);
      } else {
        WordProgress(r, w, s, bases.1, pci);
        KeptProgress(r.master, q.master, at, Master, m);
      }
    case _ =>
      RequestKept(r, e, pci);
      KeptProgress(r.master, q.master, at, Master, m);
      KeptProgress(r.slave, q.slave, at, Slave, s);
  }

  /** The board itself: vectors that are overrides or none, a master that knows it is one, no service on a missing slave. */
  predicate Installed(p: Pics) {
    && Lined(p) && |p.board.vectors| == 8 && (forall j: Line :: -1 <= p.board.vectors[j] < 0x100)
    && (if p.board.at then p.master.icw.isMaster else p.slave.reg.isr == {} && !p.slave.ctl.specialMask)
  }

  /**
   From any state of the pair: once each chip has been given its words, with requests and refreshes anywhere between them
   and the chips' words interleaved as they may, the next refresh leaves a state all runs may start from.
   */
  lemma Initialisation(p: Pics, es: seq<Event>, bases: (Byte, Byte), pci: bool)
    requires Installed(p) && Scripted(es, p.board.at, bases) && Complete(es, p.board.at)
    ensures var q := UpdatePending(Run(p, es, pci)); Clean(q) && Calm(q)
  {
    hide Run, UpdatePending, Clean, Calm, Scripted, Given;
    RunProgress(p, es, bases, pci);
    StandardInitialisation(Run(p, es, pci));
  }
}
