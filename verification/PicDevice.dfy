/** The interrupt controller pair as src/pic.c runs it: two chips updated in place. */
module PicDevice {
  import opened Bits
  import opened PicSpec
  import opened PicSteps

  class PicChip {
    var icw: Icw
    var imr: set<Line>
    var isr: set<Line>
    var irr: set<Line>
    var priority: Line
    var ctl: Ctl
    var interrupt: Interrupt
    var intPending: bool
    var ackBytes: nat
    var dataBus: Byte
    var lines: seq<nat>

    function View(): Chip
      reads this
    {
      Chip(icw, Reg(imr, isr, irr, priority), ctl, Out(interrupt, intPending, ackBytes, dataBus), lines)
    }

    constructor (c: Chip)
      ensures View() == c
    {
      icw, imr, isr, irr, priority := c.icw, c.reg.imr, c.reg.isr, c.reg.irr, c.reg.priority;
      ctl, lines := c.ctl, c.lines;
      interrupt, intPending, ackBytes, dataBus := c.out.interrupt, c.out.intPending, c.out.ackBytes, c.out.dataBus;
    }

    method FindBestInterrupt() returns (ret: int)
      modifies this`interrupt
      ensures ret == Best(old(View()))
      ensures interrupt == if ret == -1 then IDLE else Interrupt(ret, false, false, false)
    {
      ret := -1;
      ghost var c := View();
      var i := 0;
      while i < 8
        invariant 0 <= i <= 8 && ret == -1 && View() == c
        invariant Best(c) == FindFrom(c, i)
      {
        var j: Line := (i + priority) % 8;
        if j in isr {
          break;
        } else if icw.state == 0 && j in irr && j !in imr {
          ret := j;
          break;
        }
        i := i + 1;
      }
      interrupt := if ret == -1 then IDLE else Interrupt(ret, false, false, false);
    }

    method NonSpecificFind() returns (irq: int)
      ensures irq == NonSpecific(View())
    {
      irq := -1;
      for i := 0 to 8
        invariant NonSpecific(View()) == NonSpecificFrom(View(), i)
      {
        var j: Line := (i + priority) % 8;
        if j in isr && (!ctl.specialMask || j !in imr) {
          return j;
        }
      }
    }

    method Acknowledge(b: Board)
      requires |lines| == 8
      modifies this`isr, this`irr
      ensures Reg(imr, isr, irr, priority) == AcknowledgeReg(b, old(View()))
    {
      var j := interrupt.line;
      isr := isr + {j};
      if !LevelTriggered(b, icw, j) || lines[j] == 0 {
        irr := irr - {j};
      }
    }

    method Restart(v: Byte)
      requires |lines| == 8
      modifies this
      ensures View() == Restarted(old(View()), v)
    {
      hide Bit;
      dataBus := v;
      icw := icw.(icw1 := v, icw2 := 0, icw3 := 0, icw4 := if Bit(v, 0) then icw.icw4 else 0, state := WANTS_ICW2);
      ctl := Ctl(false, false, 0, 0);
      irr := set j: Line | lines[j] > 0;
      imr, isr := {}, {};
      ackBytes, priority := 0, 0;
      interrupt, intPending := IDLE, false;
    }

    method Refresh()
      modifies this`interrupt, this`intPending
      ensures View() == WithBest(old(View()))
    {
      var j := FindBestInterrupt();
      intPending := j != -1;
    }
  }

  class PicPair {
    const master: PicChip
    const slave: PicChip
    const board: Board

    ghost predicate Valid() {
      master != slave
    }

    function View(): Pics
      reads master, slave
    {
      Pics(master.View(), slave.View(), board)
    }

    constructor (p: Pics)
      ensures Valid() && fresh(master) && fresh(slave) && View() == p
    {
      master := new PicChip(p.master);
      slave := new PicChip(p.slave);
      board := p.board;
    }

    function ChipFor(w: Which): PicChip {
      if w == Master then master else slave
    }

    /** Nothing is refreshed while the master is frozen. */
    method Update()
      requires Valid()
      modifies master, slave
      ensures View() == UpdatePending(old(View()))
    {
      if master.interrupt.frozen {
        return;
      }
      if board.at {
        slave.Refresh();
        if slave.icw.icw3 < 8 {
          if slave.intPending {
            master.irr := master.irr + {slave.icw.icw3};
          } else {
            master.irr := master.irr - {slave.icw.icw3};
          }
        }
      }
      master.Refresh();
    }

    method DoAction(w: Which, irq: int, eoi: bool, rotate: bool)
      requires Valid() && -1 <= irq < 8
      modifies master, slave
      ensures View() == Action(old(View()), w, irq, eoi, rotate)
    {
      var dev := ChipFor(w);
      if irq != -1 {
        if eoi {
          dev.isr := dev.isr - {irq};
        }
        if rotate {
          dev.priority := (irq + 1) % 8;
        }
        Update();
      }
    }

    method AutoNonSpecificEoi(w: Which)
      requires Valid()
      modifies master, slave
      ensures View() == AutoEoi(old(View()), w)
    {
      var dev := ChipFor(w);
      if Bit(dev.icw.icw4, 1) {
        var irq := dev.NonSpecificFind();
        DoAction(w, irq, true, dev.ctl.autoEoiRotate);
      }
    }

    method WriteCommand(w: Which, v: Byte)
      requires Valid()
      modifies master, slave
      ensures View() == WriteOcw2(old(View()), w, v)
    {
      var dev := ChipFor(w);
      dev.dataBus := v;
      dev.ctl := dev.ctl.(ocw2 := v);
      if Bit(v, 6) || Bit(v, 5) {
        var irq := -1;
        if Bit(v, 6) {
          irq := v % 8;
        } else {
          irq := dev.NonSpecificFind();
        }
        DoAction(w, irq, Bit(v, 5), Bit(v, 7));
      } else {
        dev.ctl := dev.ctl.(autoEoiRotate := Bit(v, 7));
      }
    }

    method WriteModes(w: Which, v: Byte)
      requires Valid()
      modifies master, slave
      ensures View() == WriteOcw3(old(View()), w, v)
    {
      var dev := ChipFor(w);
      dev.dataBus := v;
      dev.ctl := dev.ctl.(ocw3 := v);
      if Bit(v, 2) {
        dev.interrupt := dev.interrupt.(frozen := true);
      }
      if Bit(v, 6) {
        dev.ctl := dev.ctl.(specialMask := Bit(v, 5));
      }
    }

    method WriteMask(w: Which, v: Byte)
      requires Valid()
      modifies master, slave
      ensures View() == WriteImr(old(View()), w, v)
    {
      var dev := ChipFor(w);
      dev.dataBus := v;
      dev.imr := MaskOf(v);
      if board.imrUpdates {
        Update();
      }
    }

    method WriteInit(w: Which, v: Byte, pci: bool)
      requires Valid() && Lined(View())
      modifies master, slave
      ensures View() == WriteIcw1(old(View()), w, v, pci)
    {
      var dev := ChipFor(w);
      if pci && v >= 0x20 {
        dev.dataBus := v;
        return;
      }
      dev.Restart(v);
      Update();
    }

    method TakeWord(w: Which, v: Byte)
      requires Valid() && ChipFor(w).icw.state != 0
      modifies ChipFor(w)`icw, ChipFor(w)`dataBus
      ensures View() == Put(old(View()), w, OnBus(old(ChipFor(w).View()), v).(icw := NextWord(old(ChipFor(w).icw), v)))
    {
      hide Bit;
      var dev := ChipFor(w);
      dev.dataBus := v;
      var afterIcw3 := if Bit(dev.icw.icw1, 0) then WANTS_ICW4 else 0;
      if dev.icw.state == WANTS_ICW2 {
        dev.icw := dev.icw.(icw2 := v);
        dev.icw := dev.icw.(state := if !Bit(dev.icw.icw1, 1) then WANTS_ICW3 else afterIcw3);
      } else if dev.icw.state == WANTS_ICW3 {
        dev.icw := dev.icw.(icw3 := v, state := afterIcw3);
      } else if dev.icw.state == WANTS_ICW4 {
        dev.icw := dev.icw.(icw4 := v, state := 0);
      }
    }

    /** A write to one of a chip's two ports. */
    method PicWrite(w: Which, data: bool, v: Byte, pci: bool)
      requires Valid() && Lined(View())
      modifies master, slave
      ensures View() == WritePort(old(View()), w, data, v, pci)
    {
      hide WriteIcw1, WriteOcw2, WriteOcw3, WriteImr, NextWord, Bit;
      if data {
        if ChipFor(w).icw.state == 0 {
          WriteMask(w, v);
        } else {
          TakeWord(w, v);
        }
      } else if Bit(v, 4) {
        WriteInit(w, v, pci);
      } else if Bit(v, 3) {
        WriteModes(w, v);
      } else {
        WriteCommand(w, v);
      }
    }

    /** Take the slave inputs of the master out of a request. */
    method Route(num0: set<int>) returns (num: set<int>, slaves: bool)
      requires Valid() && forall i :: i in num0 ==> 0 <= i < 16
      ensures num == Routed(View(), num0)
      ensures slaves == HasSlaves(View())
    {
      num := num0;
      slaves := false;
      ghost var icw3 := master.icw.icw3;
      for i := 0 to 8
        invariant slaves ==> exists k :: 0 <= k < i && Bit(icw3, k)
        invariant !slaves ==> forall k :: 0 <= k < i ==> !Bit(icw3, k)
        invariant forall k :: k in num <==>
                    || (k in num0 && !(0 <= k < i && Bit(icw3, k)))
                    || (k == 9 && i > 2 && 2 in num0 && board.at && Bit(icw3, 2))
      {
        assert i == 8 || Bit(icw3, i) == Bit(master.icw.icw3, i);
        if Bit(master.icw.icw3, i) {
          slaves := true;
          if i in num {
            num := num - {i};
            if board.at && i == 2 {
              num := num + {9};
            }
          }
        }
      }
      ghost var k := SomeBit(icw3);
      assert forall k :: k in num <==> k in Routed(View(), num0);
    }

    /** One line of a level-API call; returns whether its request bit changes. */
    method CountLine(i: nat, up: bool, was: bool) returns (touched: bool)
      requires Valid() && Wired(View()) && i < 16
      modifies master`lines, slave`lines
      ensures ChipFor(if i < 8 then Slave else Master).lines == old(ChipFor(if i < 8 then Slave else Master).lines)
      ensures var c, b := old(ChipFor(if i < 8 then Master else Slave).View()), i % 8;
              && ChipFor(if i < 8 then Master else Slave).lines
                   == (if was != up then c.lines[b := Counted(c.lines[b], up)] else c.lines)
              && touched == (!LevelTriggered(board, c.icw, b) ||
                             (was != up && Counted(c.lines[b], up) == (if up then 1 else 0)))
    {
      var dev := if i < 8 then master else slave;
      var b := i % 8;
      if was != up {
        dev.lines := dev.lines[b := Counted(dev.lines[b], up)];
      }
      touched := !LevelTriggered(board, dev.icw, b) || (was != up && dev.lines[b] == (if up then 1 else 0));
    }

    /** The sharing counters of the level API; returns the lines whose request bit changes. */
    method CountLevel(num: set<int>, slaves: bool, up: bool, was: bool) returns (touched: set<int>)
      requires Valid() && Wired(View()) && slaves == HasSlaves(View())
      modifies master`lines, slave`lines
      ensures View() == if was != up then LevelLines(old(View()), num, up) else old(View())
      ensures touched == TouchedLines(old(View()), num, up, was)
    {
      hide CountedLines, Counted, LevelTriggered, Bit;
      touched := {};
      var max := if slaves then 16 else 8;
      ghost var p := View();
      NothingCounted(p.master.lines, num, 0, up);
      NothingCounted(p.slave.lines, num, 8, up);
      for i := 0 to max
        invariant master.lines == if was != up then CountedLines(p.master.lines, num, 0, i, up) else p.master.lines
        invariant slave.lines == if was != up then CountedLines(p.slave.lines, num, 8, i, up) else p.slave.lines
        invariant forall k :: k in touched <==> k in num && k < i && Touches(p, num, up, was, k)
      {
        ghost var c := ChipFor(if i < 8 then Master else Slave).View();
        NextCounted(p.master.lines, num, 0, i, up);
        NextCounted(p.slave.lines, num, 8, i, up);
        if i in num {
          var t := CountLine(i, up, was);
          assert t == Touches(p, num, up, was, i);
          if t {
            touched := touched + {i};
          }
        }
      }
      assert forall k :: k in touched <==> k in TouchedLines(p, num, up, was);
    }

    method DriveLines(num: set<int>, up: bool)
      requires Valid()
      modifies master, slave
      ensures View() == Drive(old(View()), num, up)
    {
      if num != {} {
        if up {
          slave.irr := slave.irr + HighLines(num);
          master.irr := master.irr + LowLines(num);
        } else {
          slave.irr := slave.irr - HighLines(num);
          master.irr := master.irr - LowLines(num);
        }
        Update();
      }
    }

    /** Edge API: `was` is returned unchanged. Level API: the caller's state follows the call. */
    method PicIntCommon(num0: set<int>, level: bool, up: bool, was: bool) returns (irqState: bool)
      requires Valid() && Wired(View()) && forall i :: i in num0 ==> 0 <= i < 16
      modifies master, slave
      ensures View() == if level then PicIntLevel(old(View()), num0, up, was) else PicInt(old(View()), num0, up)
      ensures irqState == if level then IrqStateAfter(old(View()), num0, up, was) else was
    {
      irqState := was;
      var num, slaves := Route(num0);
      if num == {} {
        return;
      }
      if level {
        num := CountLevel(num, slaves, up, was);
        if was != up {
          irqState := up;
        }
      }
      if !slaves {
        num := set i | i in num && i < 8;
      }
      DriveLines(num, up);
    }

    /** One byte from a chip that answers for itself. */
    method AckReadChip(w: Which, phase: nat)
      requires Valid() && Wired(View())
      modifies master, slave
      ensures View() == AckChip(old(View()), w, phase)
    {
      var dev := ChipFor(w);
      if phase == 0 {
        dev.interrupt := dev.interrupt.(frozen := true);
        dev.Acknowledge(board);
        dev.dataBus := if I86(dev.View()) then 0xff else 0xcd;
      } else if I86(dev.View()) {
        dev.intPending := false;
        if w == Master {
          dev.dataBus := MasterVector(board, dev.View());
        } else {
          dev.dataBus := Vector(dev.View());
        }
        AutoNonSpecificEoi(w);
      } else if phase == 1 {
        dev.dataBus := CallLow(dev.View());
      } else if phase == 2 {
        dev.intPending := false;
        dev.dataBus := dev.icw.icw2;
        AutoNonSpecificEoi(w);
      }
    }

    method IrqAckRead(phase: nat) returns (value: Byte)
      requires Valid() && Wired(View())
      modifies master, slave
      ensures View() == AckRead(old(View()), phase)
      ensures value == master.dataBus
    {
      if !master.interrupt.slave {
        AckReadChip(Master, phase);
      } else if phase == 0 {
        master.interrupt := master.interrupt.(frozen := true);
        master.Acknowledge(board);
        AckReadChip(Slave, 0);
        master.dataBus := slave.dataBus;
      } else if I86(master.View()) || phase == 2 {
        master.intPending := false;
        AckReadChip(Slave, phase);
        master.dataBus := slave.dataBus;
        AutoNonSpecificEoi(Master);
      } else if phase == 1 {
        AckReadChip(Slave, phase);
        master.dataBus := slave.dataBus;
      }
      value := master.dataBus;
    }

    method Cycle() returns (value: Byte)
      requires Valid() && Wired(View())
      modifies master, slave
      ensures View() == AckCycle(old(View()))
      ensures value == AckValue(old(View()))
    {
      value := IrqAckRead(master.ackBytes);
      master.ackBytes := (master.ackBytes + 1) % (if I86(master.View()) then 2 else 3);
      if master.ackBytes == 0 {
        if master.interrupt.slave {
          slave.interrupt := IDLE;
        }
        master.interrupt := IDLE;
        Update();
      }
    }

    /**
     The processor's interrupt acknowledge: two cycles back to back. `gateLow` says that the gate of the second timer
     chip's counter 0 is taken low: the acknowledge is of line 0.
     */
    method PicInterrupt() returns (value: Byte, gateLow: bool)
      requires Valid() && Wired(View())
      modifies master, slave
      ensures View() == BothCycles(old(View()))
      ensures value == AckValue(FirstCycle(old(View())))
      ensures gateLow == AcknowledgesTimer(old(View()))
    {
      hide Bit, UpdatePending, AckCycle, AckValue, Cascaded;
      ghost var p := View();
      if master.intPending {
        if SlaveOn(master.View()) {
          if !slave.intPending {
            slave.intPending := true;
            slave.interrupt := Interrupt(7, false, false, false);
          } else {
            master.interrupt := master.interrupt.(slave := true);
          }
        }
      } else {
        master.intPending := true;
        master.interrupt := Interrupt(7, false, false, false);
      }
      assert View() == BeginInterrupt(p);
      FixedWired(p, View());
      gateLow := master.interrupt == Interrupt(0, false, false, false);
      value := Cycle();
      assert View() == FirstCycle(p);
      value := Cycle();
    }

    /** The byte-at-a-time acknowledge. `fatal` is the source's exit on a cascade without a slave request. */
    method PicIrqAck() returns (fatal: bool, value: Byte)
      requires Valid() && Wired(View())
      modifies master, slave
      ensures fatal == AckFatal(old(View()))
      ensures View() == ByteCycle(old(View()))
      ensures !fatal ==> value == AckValue(BeginAck(old(View())))
    {
      hide Bit, UpdatePending, AckCycle, AckValue, Cascaded;
      ghost var p := View();
      fatal, value := false, 0;
      if master.ackBytes == 0 && master.intPending && SlaveOn(master.View()) {
        if !slave.intPending {
          return true, 0;
        }
        master.interrupt := master.interrupt.(slave := true);
      }
      assert View() == BeginAck(p);
      FixedWired(p, View());
      value := Cycle();
    }
  }

  lemma NothingCounted(lines: seq<nat>, num: set<int>, base: nat, up: bool)
    requires |lines| == 8
    ensures CountedLines(lines, num, base, 0, up) == lines
  {
  }

  lemma NextCounted(lines: seq<nat>, num: set<int>, base: int, i: nat, up: bool)
    requires |lines| == 8
    ensures CountedLines(lines, num, base, i + 1, up) ==
            (if i in num && base <= i < base + 8
             then CountedLines(lines, num, base, i, up)[i - base := Counted(lines[i - base], up)]
             else CountedLines(lines, num, base, i, up))
    ensures base <= i < base + 8 ==> CountedLines(lines, num, base, i, up)[i - base] == lines[i - base]
  {
  }

  lemma SomeBit(v: Byte) returns (k: nat)
    ensures v != 0 ==> k < 8 && Bit(v, k)
    ensures v == 0 ==> forall j :: 0 <= j < 8 ==> !Bit(v, j)
  {
    k := 0;
    if v != 0 {
      assert Pow2(8) == 2 * (2 * (2 * (2 * (2 * (2 * (2 * 2))))));
      k := SomeBitBelow(v, 8);
    } else {
      forall j | 0 <= j < 8 ensures !Bit(v, j) {
        ZeroHasNoBits(v, j);
      }
    }
  }

  lemma {:induction false} SomeBitBelow(v: nat, n: nat) returns (k: nat)
    requires 0 < v < Pow2(n)
    ensures k < n && Bit(v, k)
  {
    if v % 2 == 1 {
      k := 0;
    } else {
      var j := SomeBitBelow(v / 2, n - 1);
      k := j + 1;
    }
  }
}
