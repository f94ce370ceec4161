/**
 The 8259 interrupt controllers of src/pic.c: the registers of the pair as values and what the entry
 points do to them. An eight-bit request, mask or service register is the set of its one bits.
 */
module PicSpec {
  import opened Bits

  type Line = x: int | 0 <= x < 8 witness 0

  /** What the initialisation words leave behind; `state` is 0 once initialisation is complete. */
  datatype Icw = Icw(icw1: Byte, icw2: Byte, icw3: Byte, icw4: Byte, isMaster: bool, elcr: set<Line>, state: nat)

  datatype Reg = Reg(imr: set<Line>, isr: set<Line>, irr: set<Line>, priority: Line)

  datatype Ctl = Ctl(specialMask: bool, autoEoiRotate: bool, ocw2: Byte, ocw3: Byte)

  /** The `interrupt` byte: line number, 10h (nothing to deliver), 20h (frozen), 40h (slave pending). */
  datatype Interrupt = Interrupt(line: Line, none: bool, frozen: bool, slave: bool)

  datatype Out = Out(interrupt: Interrupt, intPending: bool, ackBytes: nat, dataBus: Byte)

  /** `lines` counts the devices that hold each level-shared input. */
  datatype Chip = Chip(icw: Icw, reg: Reg, ctl: Ctl, out: Out, lines: seq<nat>)

  /** `at`: two chips; `imrUpdates`: an IMR write refreshes the pending state; `vectors`: overrides, -1 for none. */
  datatype Board = Board(at: bool, elcrEnabled: bool, imrUpdates: bool, vectors: seq<int>)

  datatype Pics = Pics(master: Chip, slave: Chip, board: Board)

  datatype Which = Master | Slave

  const IDLE: Interrupt := Interrupt(7, true, false, false)

  const LINES_MODULUS: nat := 0x1_0000_0000

  function Get(p: Pics, w: Which): Chip {
    if w == Master then p.master else p.slave
  }

  function Put(p: Pics, w: Which, c: Chip): Pics {
    if w == Master then p.(master := c) else p.(slave := c)
  }

  /** Every input has its counter. */
  predicate Lined(p: Pics) {
    |p.master.lines| == 8 && |p.slave.lines| == 8
  }

  predicate Wired(p: Pics) {
    && Lined(p) && |p.board.vectors| == 8
    && (forall j: Line :: Bit(p.master.icw.icw3, j) ==> j == 2 && p.board.at)
    && (forall j: Line :: -1 <= p.board.vectors[j] < 0x100)
  }

  predicate I86(c: Chip) {
    Bit(c.icw.icw4, 0)
  }

  predicate Cascaded(c: Chip) {
    !Bit(c.icw.icw1, 1)
  }

  // ---- priority resolution ----

  function At(c: Chip, i: nat): Line {
    (i + c.reg.priority) % 8
  }

  predicate Requested(c: Chip, j: Line) {
    c.icw.state == 0 && j in c.reg.irr && j !in c.reg.imr
  }

  /** Scan from the highest priority: stop at a line in service, deliver the first unmasked request. */
  function FindFrom(c: Chip, i: nat): int
    decreases 8 - i
  {
    if i >= 8 then -1
    else if At(c, i) in c.reg.isr then -1
    else if Requested(c, At(c, i)) then At(c, i)
    else FindFrom(c, i + 1)
  }

  lemma FindFromRange(c: Chip, i: nat)
    ensures -1 <= FindFrom(c, i) < 8
    decreases 8 - i
  {
  }

  function Best(c: Chip): (j: int)
    ensures -1 <= j < 8
  {
    FindFromRange(c, 0);
    FindFrom(c, 0)
  }

  function WithBest(c: Chip): Chip {
    var j := Best(c);
    c.(out := c.out.(interrupt := if j == -1 then IDLE else Interrupt(j, false, false, false), intPending := j != -1))
  }

  function CascadeLine(slave: Chip): set<Line> {
    if slave.icw.icw3 < 8 then {slave.icw.icw3} else {}
  }

  function UpdatePending(p: Pics): Pics {
    if p.master.out.interrupt.frozen then p
    else if !p.board.at then p.(master := WithBest(p.master))
    else
      var s := WithBest(p.slave);
      var line := CascadeLine(s);
      var irr := if s.out.intPending then p.master.reg.irr + line else p.master.reg.irr - line;
      Pics(WithBest(p.master.(reg := p.master.reg.(irr := irr))), s, p.board)
  }

  // ---- end of interrupt and rotation ----

  predicate LevelTriggered(b: Board, icw: Icw, j: Line) {
    if b.elcrEnabled then j in icw.elcr else Bit(icw.icw1, 3)
  }

  function AcknowledgeReg(b: Board, c: Chip): Reg
    requires |c.lines| == 8
  {
    var j := c.out.interrupt.line;
    Reg(c.reg.imr, c.reg.isr + {j},
        if !LevelTriggered(b, c.icw, j) || c.lines[j] == 0 then c.reg.irr - {j} else c.reg.irr,
        c.reg.priority)
  }

  predicate Retirable(c: Chip, j: Line) {
    j in c.reg.isr && !(c.ctl.specialMask && j in c.reg.imr)
  }

  function NonSpecificFrom(c: Chip, i: nat): int
    decreases 8 - i
  {
    if i >= 8 then -1
    else if Retirable(c, At(c, i)) then At(c, i)
    else NonSpecificFrom(c, i + 1)
  }

  lemma NonSpecificRange(c: Chip, i: nat)
    ensures -1 <= NonSpecificFrom(c, i) < 8
    decreases 8 - i
  {
  }

  function NonSpecific(c: Chip): (j: int)
    ensures -1 <= j < 8
  {
    NonSpecificRange(c, 0);
    NonSpecificFrom(c, 0)
  }

  function ActionReg(r: Reg, j: Line, eoi: bool, rotate: bool): Reg {
    Reg(r.imr, if eoi then r.isr - {j} else r.isr, r.irr, if rotate then (j + 1) % 8 else r.priority)
  }

  function Action(p: Pics, w: Which, j: int, eoi: bool, rotate: bool): Pics
    requires -1 <= j < 8
  {
    if j == -1 then p
    else UpdatePending(Put(p, w, Get(p, w).(reg := ActionReg(Get(p, w).reg, j, eoi, rotate))))
  }

  function AutoEoi(p: Pics, w: Which): Pics {
    var c := Get(p, w);
    if Bit(c.icw.icw4, 1) then Action(p, w, NonSpecific(c), true, c.ctl.autoEoiRotate) else p
  }

  function Command(p: Pics, w: Which): Pics {
    var c := Get(p, w);
    var v := c.ctl.ocw2;
    if Bit(v, 6) then Action(p, w, v % 8, Bit(v, 5), Bit(v, 7))
    else if Bit(v, 5) then Action(p, w, NonSpecific(c), true, Bit(v, 7))
    else Put(p, w, c.(ctl := c.ctl.(autoEoiRotate := Bit(v, 7))))
  }

  function OnBus(c: Chip, v: Byte): Chip {
    c.(out := c.out.(dataBus := v))
  }

  function WriteOcw2(p: Pics, w: Which, v: Byte): Pics {
    var c := OnBus(Get(p, w), v);
    Command(Put(p, w, c.(ctl := c.ctl.(ocw2 := v))), w)
  }

  function Ocw3Ctl(k: Ctl, v: Byte): Ctl {
    k.(ocw3 := v, specialMask := if Bit(v, 6) then Bit(v, 5) else k.specialMask)
  }

  function WriteOcw3(p: Pics, w: Which, v: Byte): Pics {
    var c := OnBus(Get(p, w), v);
    var out := if Bit(v, 2) then c.out.(interrupt := c.out.interrupt.(frozen := true)) else c.out;
    Put(p, w, c.(ctl := Ocw3Ctl(c.ctl, v), out := out))
  }

  /** The mask register as the byte that is written to it. */
  function MaskOf(v: Byte): set<Line> {
    set j: Line | Bit(v, j)
  }

  function WriteImr(p: Pics, w: Which, v: Byte): Pics {
    var c := OnBus(Get(p, w), v);
    var q := Put(p, w, c.(reg := c.reg.(imr := MaskOf(v))));
    if p.board.imrUpdates then UpdatePending(q) else q
  }

  // ---- initialisation ----

  /** What the data port expects next while a chip is being initialised. */
  const WANTS_ICW2: nat := 1
  const WANTS_ICW3: nat := 2
  const WANTS_ICW4: nat := 3

  /** ICW1: only the sharing counters, the trigger register and perhaps ICW4 survive. */
  function Restarted(c: Chip, v: Byte): Chip
    requires |c.lines| == 8
  {
    Chip(Icw(v, 0, 0, if Bit(v, 0) then c.icw.icw4 else 0, c.icw.isMaster, c.icw.elcr, WANTS_ICW2),
         Reg({}, {}, set j: Line | c.lines[j] > 0, 0), Ctl(false, false, 0, 0), Out(IDLE, false, 0, v), c.lines)
  }

  /** Behind a PCI bridge an ICW1 with any of bits 7 to 5 is not taken. */
  function WriteIcw1(p: Pics, w: Which, v: Byte, pci: bool): Pics
    requires Lined(p)
  {
    if pci && v >= 0x20 then Put(p, w, OnBus(Get(p, w), v)) else UpdatePending(Put(p, w, Restarted(Get(p, w), v)))
  }

  function AfterIcw3(icw1: Byte): nat {
    if Bit(icw1, 0) then WANTS_ICW4 else 0
  }

  function NextWord(icw: Icw, v: Byte): Icw {
    if icw.state == WANTS_ICW2 then
      icw.(icw2 := v, state := if !Bit(icw.icw1, 1) then WANTS_ICW3 else AfterIcw3(icw.icw1))
    else if icw.state == WANTS_ICW3 then icw.(icw3 := v, state := AfterIcw3(icw.icw1))
    else if icw.state == WANTS_ICW4 then icw.(icw4 := v, state := 0)
    else icw
  }

  /** Any write to a chip's two ports. */
  function WritePort(p: Pics, w: Which, data: bool, v: Byte, pci: bool): Pics
    requires Lined(p)
  {
    if data then
      if Get(p, w).icw.state == 0 then WriteImr(p, w, v)
      else Put(p, w, OnBus(Get(p, w), v).(icw := NextWord(Get(p, w).icw, v)))
    else if Bit(v, 4) then WriteIcw1(p, w, v, pci)
    else if Bit(v, 3) then WriteOcw3(p, w, v)
    else WriteOcw2(p, w, v)
  }

  // ---- request lines ----

  /** Slave inputs of the master are not lines; on an AT a request for IRQ 2 goes to IRQ 9. */
  function Routed(p: Pics, num: set<int>): set<int> {
    var kept := set i | i in num && !(0 <= i < 8 && Bit(p.master.icw.icw3, i));
    if p.board.at && 2 in num && Bit(p.master.icw.icw3, 2) then kept + {9} else kept
  }

  predicate HasSlaves(p: Pics) {
    p.master.icw.icw3 != 0
  }

  function ChipOf(p: Pics, i: int): Chip {
    if i < 8 then p.master else p.slave
  }

  function MaxLine(p: Pics): int {
    if HasSlaves(p) then 16 else 8
  }

  function Counted(n: nat, up: bool): nat {
    if up then (n + 1) % LINES_MODULUS else if n == 0 then LINES_MODULUS - 1 else n - 1
  }

  /** Sharing counts after a device changes its own state on the routed lines `num`. */
  function CountedLines(lines: seq<nat>, num: set<int>, base: int, max: int, set_: bool): (r: seq<nat>)
    requires |lines| == 8
    ensures |r| == 8
  {
    seq(8, b requires 0 <= b < 8 => if base + b in num && base + b < max then Counted(lines[b], set_) else lines[b])
  }

  /** The lines whose request bit a level-API call touches. */
  predicate Touches(p: Pics, num: set<int>, set_: bool, was: bool, i: int)
    requires Lined(p)
  {
    && i in num && 0 <= i < MaxLine(p)
    && var n := Counted(ChipOf(p, i).lines[i % 8], set_);
       (!LevelTriggered(p.board, ChipOf(p, i).icw, i % 8) || (was != set_ && n == (if set_ then 1 else 0)))
  }

  function TouchedLines(p: Pics, num: set<int>, set_: bool, was: bool): set<int>
    requires Lined(p)
  {
    set i | i in num && Touches(p, num, set_, was, i)
  }

  function LevelLines(p: Pics, num: set<int>, set_: bool): Pics
    requires Lined(p)
  {
    p.(master := p.master.(lines := CountedLines(p.master.lines, num, 0, MaxLine(p), set_)),
       slave := p.slave.(lines := CountedLines(p.slave.lines, num, 8, MaxLine(p), set_)))
  }

  function LowLines(num: set<int>): set<Line> {
    set j: Line | j in num
  }

  predicate OnSlave(num: set<int>, j: Line) {
    j + 8 in num
  }

  function HighLines(num: set<int>): set<Line> {
    set j: Line | OnSlave(num, j)
  }

  function Request(c: Chip, which: set<Line>, set_: bool): Chip {
    c.(reg := c.reg.(irr := if set_ then c.reg.irr + which else c.reg.irr - which))
  }

  /** Raise or lower request bits. */
  function Drive(p: Pics, num: set<int>, set_: bool): Pics {
    if num == {} then p
    else UpdatePending(Pics(Request(p.master, LowLines(num), set_), Request(p.slave, HighLines(num), set_), p.board))
  }

  function Reachable(p: Pics, num: set<int>): set<int> {
    if HasSlaves(p) then num else set i | i in num && i < 8
  }

  /** `picint_common` through the edge API. */
  function PicInt(p: Pics, num: set<int>, set_: bool): Pics {
    Drive(p, Reachable(p, Routed(p, num)), set_)
  }

  /** `picint_common` through the level API; `was` is the caller's `irq_state` before the call. */
  function PicIntLevel(p: Pics, num: set<int>, set_: bool, was: bool): Pics
    requires Lined(p)
  {
    var r := Routed(p, num);
    var q := if was != set_ then LevelLines(p, r, set_) else p;
    if r == {} then p else Drive(q, Reachable(p, TouchedLines(p, r, set_, was)), set_)
  }

  /** The caller's `irq_state` after the call. */
  function IrqStateAfter(p: Pics, num: set<int>, set_: bool, was: bool): bool {
    if Routed(p, num) == {} then was else set_
  }

  // ---- acknowledge ----

  predicate SlaveOn(c: Chip) {
    && Cascaded(c) && (c.icw.isMaster || (Bit(c.icw.icw4, 2) && Bit(c.icw.icw4, 3)))
    && !c.out.interrupt.none && !c.out.interrupt.frozen && !c.out.interrupt.slave
    && Bit(c.icw.icw3, c.out.interrupt.line)
  }

  function Freeze(b: Board, c: Chip): Chip
    requires |c.lines| == 8
  {
    c.(reg := AcknowledgeReg(b, c), out := c.out.(interrupt := c.out.interrupt.(frozen := true)))
  }

  function Vector(c: Chip): Byte {
    c.out.interrupt.line + (c.icw.icw2 - c.icw.icw2 % 8)
  }

  function MasterVector(b: Board, c: Chip): Byte
    requires |b.vectors| == 8
    requires forall j: Line :: -1 <= b.vectors[j] < 0x100
  {
    var j := c.out.interrupt.line;
    if b.vectors[j] >= 0 then b.vectors[j] else Vector(c)
  }

  /** The CALL address bytes of the 8080 mode. */
  function CallLow(c: Chip): Byte {
    if Bit(c.icw.icw1, 2) then c.out.interrupt.line * 4 + (c.icw.icw1 - c.icw.icw1 % 0x20)
    else c.out.interrupt.line * 8 + (c.icw.icw1 - c.icw.icw1 % 0x40)
  }

  function NotPending(c: Chip): Chip {
    c.(out := c.out.(intPending := false))
  }

  /** One acknowledge byte from a chip that answers for itself. */
  function AckChip(p: Pics, w: Which, phase: nat): Pics
    requires Wired(p)
  {
    var c := Get(p, w);
    if phase == 0 then Put(p, w, OnBus(Freeze(p.board, c), if I86(c) then 0xff else 0xcd))
    else if I86(c) then
      AutoEoi(Put(p, w, OnBus(NotPending(c), if w == Master then MasterVector(p.board, c) else Vector(c))), w)
    else if phase == 1 then Put(p, w, OnBus(c, CallLow(c)))
    else if phase == 2 then AutoEoi(Put(p, w, OnBus(NotPending(c), c.icw.icw2)), w)
    else p
  }

  /** One acknowledge byte from the master, passed on to the slave when the slave is being served. */
  function AckRead(p: Pics, phase: nat): Pics
    requires Wired(p)
  {
    var m := p.master;
    if !m.out.interrupt.slave then AckChip(p, Master, phase)
    else if phase == 0 then
      var q := AckChip(p.(master := Freeze(p.board, m)), Slave, 0);
      q.(master := OnBus(q.master, q.slave.out.dataBus))
    else if I86(m) || phase == 2 then
      var q := AckChip(p.(master := NotPending(m)), Slave, phase);
      AutoEoi(q.(master := OnBus(q.master, q.slave.out.dataBus)), Master)
    else if phase == 1 then
      var q := AckChip(p, Slave, 1);
      q.(master := OnBus(q.master, q.slave.out.dataBus))
    else p
  }

  function Idle(c: Chip): Chip {
    c.(out := c.out.(interrupt := IDLE))
  }

  /** One acknowledge cycle; after the last one the freeze ends. */
  function AckCycle(p: Pics): Pics
    requires Wired(p)
  {
    var q := AckRead(p, p.master.out.ackBytes);
    var n := (q.master.out.ackBytes + 1) % (if I86(q.master) then 2 else 3);
    var r := q.(master := q.master.(out := q.master.out.(ackBytes := n)));
    if n != 0 then r
    else
      UpdatePending(r.(slave := if r.master.out.interrupt.slave then Idle(r.slave) else r.slave,
                       master := Idle(r.master)))
  }

  function MarkSlave(c: Chip): Chip {
    c.(out := c.out.(interrupt := c.out.interrupt.(slave := true)))
  }

  function Spurious(c: Chip): Chip {
    c.(out := c.out.(intPending := true, interrupt := Interrupt(7, false, false, false)))
  }

  function BeginInterrupt(p: Pics): Pics {
    if !p.master.out.intPending then p.(master := Spurious(p.master))
    else if !SlaveOn(p.master) then p
    else if !p.slave.out.intPending then p.(slave := Spurious(p.slave))
    else p.(master := MarkSlave(p.master))
  }

  /** Line 0 is about to be acknowledged, by neither a frozen nor a spurious request. */
  predicate AcknowledgesTimer(p: Pics) {
    BeginInterrupt(p).master.out.interrupt == Interrupt(0, false, false, false)
  }

  /** The byte of the last acknowledge cycle, as the processor sees it. */
  function AckValue(p: Pics): Byte
    requires Wired(p)
  {
    AckRead(p, p.master.out.ackBytes).master.out.dataBus
  }

  /** `pic_irq_ack` gives up when the master offers the slave's line and the slave has nothing. */
  predicate AckFatal(p: Pics) {
    p.master.out.ackBytes == 0 && p.master.out.intPending && SlaveOn(p.master) && !p.slave.out.intPending
  }

  function BeginAck(p: Pics): Pics {
    if p.master.out.ackBytes == 0 && p.master.out.intPending && SlaveOn(p.master)
    then p.(master := MarkSlave(p.master))
    else p
  }
}
