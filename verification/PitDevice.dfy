/**
 The counter as src/pit_exact.c runs it: one object per counter, its registers updated in place.
 Every method is tied to the corresponding function of PitExact.
 */
module PitDevice {
  import opened Bits
  import opened PitExact

  class PitChannel {
    var cfg: Config
    var bus: Bus
    var flags: Flags
    var ce: Count
    var output: bool
    var armed: bool
    var toggleOnReload: bool
    var state: State
    var gate: bool
    var clocks: nat

    function View(): Channel
      reads this
    {
      Channel(cfg, bus, flags, GetCore(), gate, clocks)
    }

    function GetCore(): Core
      reads this`ce, this`output, this`armed, this`toggleOnReload, this`state
    {
      Core(ce, output, armed, toggleOnReload, state)
    }

    constructor (chip: ChipType)
      ensures View() == ResetChannel(chip)
    {
      cfg := Config(chip, 0, 0, 0, 1, false);
      bus := Bus(0, 0, false, false, 0, 0);
      flags := Flags(0, true, true, false, false);
      ce, output, armed, toggleOnReload, state := 0, false, false, false, WaitCount;
      gate, clocks := false, 0;
    }

    method UpdateLiveLatch()
      modifies this`bus
      ensures bus == LiveLatch(old(bus), ce)
    {
      if !bus.countLatched {
        bus := bus.(outputLatch := VisibleCount(ce));
      }
    }

    method Decrement()
      modifies this`ce, this`bus
      ensures ce == DecrementValue(cfg.bcd, old(ce))
      ensures bus == LiveLatch(old(bus), ce)
    {
      if cfg.bcd {
        ce := BcdDecrement(ce);
      } else if ce == 0 {
        ce := 0xffff;
      } else if ce == 0x1_0000 {
        ce := 0xffff;
      } else {
        ce := (ce - 1) % 0x1_0000;
      }
      UpdateLiveLatch();
    }

    method DecrementN(n: nat)
      modifies this`ce, this`bus
      ensures ce == DecrementBy(cfg.bcd, old(ce), n)
      ensures bus == if n == 0 then old(bus) else LiveLatch(old(bus), ce)
    {
      var left := n;
      while left > 0
        invariant 0 <= left <= n
        invariant DecrementBy(cfg.bcd, ce, left) == DecrementBy(cfg.bcd, old(ce), n)
        invariant bus == if left == n then old(bus) else LiveLatch(old(bus), ce)
      {
        left := left - 1;
        Decrement();
      }
    }

    method EnterCounting()
      modifies this`output, this`state, this`toggleOnReload
      ensures output == LoadOutput(cfg.mode, old(GetCore()))
      ensures state == LoadState(cfg.mode, gate)
      ensures toggleOnReload == (cfg.mode != 3 && old(toggleOnReload))
    {
      match cfg.mode {
        case 0 =>
          output := false;
          state := Counting;
        case 1 =>
          output := false;
          state := Counting;
        case 2 =>
          output := true;
          state := if gate then Counting else WaitGate;
        case 3 =>
          if toggleOnReload {
            output := !output;
            toggleOnReload := false;
          } else if state != ReloadNext {
            output := true;
          }
          state := if gate then Counting else WaitGate;
        case _ =>
          output := true;
          state := Counting;
      }
    }

    /** The count register enters the counting element. */
    method Reload()
      modifies this`ce, this`flags, this`bus
      ensures ce == LoadValue(cfg, old(flags.countRegister))
      ensures flags == LoadFlags(old(View()))
      ensures bus == LiveLatch(old(bus), ce)
    {
      var load := ReloadValue(flags.countRegister);
      if cfg.chip == Pit8254 && cfg.mode == 3 && flags.countRegister % 2 == 1 {
        load := DropLowBit(load);
      }
      ce := load;
      flags := flags.(nullCount := false, ceUndefined := false);
      if cfg.rwMode == 3 && bus.writePhase == 1 {
        flags := flags.(incompleteReload := true);
      }
      UpdateLiveLatch();
    }

    method LoadCountingElement()
      modifies this`ce, this`flags, this`bus, this`output, this`state, this`toggleOnReload
      ensures View() == Load(old(View()))
    {
      Reload();
      EnterCounting();
    }

    /** The 8254 with an odd divisor: terminal count of the high half defers the toggle by one clock. */
    method RunMode3Odd8254()
      requires flags.countRegister % 2 == 1 && cfg.chip == Pit8254
      modifies this`ce, this`bus, this`output, this`toggleOnReload, this`state
      ensures GetCore() == Mode3Core(cfg, flags.countRegister, old(GetCore()))
      ensures bus == LiveLatch(old(bus), ce)
    {
      DecrementN(2);
      if VisibleCount(ce) == 0 {
        if output {
          toggleOnReload := true;
          state := ReloadNext;
        } else {
          output := true;
          ce := DropLowBit(ReloadValue(flags.countRegister));
          UpdateLiveLatch();
        }
      }
    }

    method RunMode3()
      modifies this`ce, this`bus, this`output, this`toggleOnReload, this`state
      ensures GetCore() == Mode3Core(cfg, flags.countRegister, old(GetCore()))
      ensures bus == LiveLatch(old(bus), ce)
    {
      var odd := flags.countRegister % 2 == 1;
      if odd && cfg.chip == Pit8254 {
        RunMode3Odd8254();
        return;
      }
      if odd && ce % 2 == 1 {
        DecrementN(if output then 1 else 3);
      } else {
        DecrementN(2);
      }
      if VisibleCount(ce) == 0 {
        output := !output;
        ce := ReloadValue(flags.countRegister);
        UpdateLiveLatch();
      }
    }

    /** The mode switch of a tick on a counter that is counting. */
    method Count()
      modifies this`ce, this`bus, this`output, this`armed, this`toggleOnReload, this`state
      ensures GateBlocks(cfg.mode, gate) ==> GetCore() == old(GetCore()) && bus == old(bus)
      ensures !GateBlocks(cfg.mode, gate) ==>
                GetCore() == CountCore(cfg, flags.countRegister, old(GetCore())) && bus == LiveLatch(old(bus), ce)
    {
      match cfg.mode {
        case 0 =>
          if gate {
            Decrement();
            if VisibleCount(ce) == 0 {
              output := true;
            }
          }
        case 1 =>
          Decrement();
          if VisibleCount(ce) == 0 {
            if armed {
              output := true;
            }
            armed := false;
          }
        case 2 =>
          if gate {
            Decrement();
            if VisibleCount(ce) == 1 {
              output := false;
              state := ReloadNext;
            }
          }
        case 3 =>
          if gate {
            RunMode3();
          }
        case 4 =>
          if gate {
            Decrement();
            if VisibleCount(ce) == 0 {
              output := false;
              state := StrobeRecover;
            }
          }
        case _ =>
          Decrement();
          if VisibleCount(ce) == 0 {
            output := false;
            armed := false;
            state := StrobeRecover;
          }
      }
    }

    method TickChannel()
      modifies this
      ensures View() == Tick(old(View()))
    {
      clocks := (clocks + 1) % CLOCK_MODULUS;
      match state {
        case LoadNext =>
          LoadCountingElement();
        case ReloadNext =>
          LoadCountingElement();
        case StrobeRecover =>
          output := true;
          state := Counting;
        case WaitTrigger =>
          if flags.ceUndefined && armed {
            ce := 3;
            UpdateLiveLatch();
          }
        case Counting =>
          Count();
        case _ =>
      }
    }

    method LatchCountCommand()
      modifies this`bus
      ensures bus == LatchCount(old(bus), ce)
    {
      if bus.countLatched {
        return;
      }
      bus := bus.(outputLatch := VisibleCount(ce));
      bus := bus.(countLatched := true);
      bus := bus.(readPhase := 0);
    }

    method LatchStatusCommand()
      modifies this`bus
      ensures bus == LatchStatus(old(bus), StatusByte(old(View())))
    {
      if bus.statusLatched {
        return;
      }
      bus := bus.(statusLatch := (if output then 0x80 else 0) + (if flags.nullCount then 0x40 else 0) + cfg.control % 0x40);
      bus := bus.(statusLatched := true);
    }

    method Program(value: Byte)
      modifies this
      ensures View() == ProgramMode(old(View()), value)
    {
      var raw := (value / 2) % 8;
      cfg := Config(cfg.chip, value, raw, CanonicalMode(raw), (value / 0x10) % 4, value % 2 != 0);
      bus := bus.(writePhase := 0, readPhase := 0, countLatched := false, statusLatched := false);
      flags := flags.(nullCount := true, initialLoad := true, incompleteReload := false, ceUndefined := true);
      armed := false;
      toggleOnReload := false;
      state := WaitCount;
      output := cfg.mode != 0;
    }

    method Finalize()
      modifies this`flags, this`armed, this`state
      ensures View() == FinalizeWrite(old(View()), old(flags.countRegister))
    {
      if flags.countRegister == 1 {
        if cfg.mode == 2 {
          flags := flags.(countRegister := 2);
        } else if cfg.mode == 3 {
          flags := flags.(countRegister := 0);
        }
      }
      flags := flags.(nullCount := true);
      armed := true;
      if flags.initialLoad {
        flags := flags.(initialLoad := false);
        state := if cfg.mode == 1 || cfg.mode == 5 then WaitTrigger else LoadNext;
        return;
      }
      if flags.incompleteReload || cfg.mode == 0 || cfg.mode == 4 {
        state := LoadNext;
      }
      flags := flags.(incompleteReload := false);
    }

    /** The whole count register is replaced. */
    method TakeCount(count: Word)
      modifies this`flags, this`armed, this`state
      ensures View() == FinalizeWrite(old(View()), count)
    {
      flags := flags.(countRegister := count);
      Finalize();
    }

    method WriteData(value: Byte)
      modifies this`flags, this`bus, this`state, this`output, this`armed
      ensures View() == DataWrite(old(View()), value)
    {
      hide FinalizeWrite;
      match cfg.rwMode {
        case 1 =>
          TakeCount(value);
        case 2 =>
          TakeCount(value * 0x100);
        case 3 =>
          if bus.writePhase == 0 {
            flags := flags.(countRegister := flags.countRegister / 0x100 * 0x100 + value);
            bus := bus.(writePhase := 1);
            if cfg.mode == 0 {
              state := WaitCount;
              output := false;
            }
          } else {
            bus := bus.(writePhase := 0);
            TakeCount(flags.countRegister % 0x100 + value * 0x100);
          }
        case _ =>
      }
    }

    method ReadData() returns (r: Byte)
      modifies this`bus
      ensures ReadResult(r, bus) == DataRead(old(View()))
    {
      if bus.statusLatched {
        bus := bus.(statusLatched := false);
        return bus.statusLatch;
      }
      var value := if bus.countLatched then bus.outputLatch else VisibleCount(ce);
      if !bus.countLatched && cfg.rwMode == 3 && bus.writePhase == 1 {
        return 0xff - flags.countRegister % 0x100;
      }
      match cfg.rwMode {
        case 1 =>
          bus := bus.(countLatched := false);
          r := value % 0x100;
        case 2 =>
          bus := bus.(countLatched := false);
          r := value / 0x100;
        case 3 =>
          if bus.readPhase == 0 {
            bus := bus.(readPhase := 1);
            return value % 0x100;
          }
          bus := bus.(readPhase := 0);
          bus := bus.(countLatched := false);
          r := value / 0x100;
        case _ =>
          r := 0;
      }
    }

    method ChangeGate(high: bool)
      modifies this`gate, this`armed, this`state, this`output
      ensures View() == SetGate(old(View()), high)
    {
      var was := gate;
      gate := high;
      if !was && high {
        match cfg.mode {
          case 1 =>
            if state != WaitCount {
              armed := true;
              state := LoadNext;
            }
          case 5 =>
            if state != WaitCount {
              armed := true;
              state := LoadNext;
            }
          case 2 =>
            if state != WaitCount {
              state := LoadNext;
            }
          case 3 =>
            if state != WaitCount {
              state := LoadNext;
            }
          case _ =>
        }
      } else if was && !high && (cfg.mode == 2 || cfg.mode == 3) {
        output := true;
        if state != WaitCount {
          state := WaitGate;
        }
      }
    }
  }

  class PitDevice {
    const chip: ChipType
    const channel: seq<PitChannel>
    var lastControl: Byte

    ghost predicate Valid() {
      |channel| == 3 && channel[0] != channel[1] && channel[0] != channel[2] && channel[1] != channel[2]
    }

    function View(): (d: Device)
      requires |channel| == 3
      reads this, channel
      ensures WellFormed(d)
    {
      Device(chip, [channel[0].View(), channel[1].View(), channel[2].View()], lastControl)
    }

    constructor (chip: ChipType)
      ensures Valid() && fresh(channel)
      ensures View() == Device(chip, [ResetChannel(chip), ResetChannel(chip), ResetChannel(chip)], 0)
    {
      this.chip := chip;
      var c0 := new PitChannel(chip);
      var c1 := new PitChannel(chip);
      var c2 := new PitChannel(chip);
      channel := [c0, c1, c2];
      lastControl := 0;
    }

    /** One counter's share of a read-back command. */
    method ReadBackChannel(i: nat, value: Byte)
      requires Valid() && i < 3
      modifies channel[i]
      ensures channel[i].View() == ReadBack(old(channel[i].View()), value, i)
    {
      if !Bit(value, i + 1) {
        return;
      }
      if !Bit(value, 5) {
        channel[i].LatchCountCommand();
      }
      if !Bit(value, 4) {
        channel[i].LatchStatusCommand();
      }
    }

    method WriteControl(value: Byte)
      requires Valid()
      modifies this, channel
      ensures View() == ControlWrite(old(View()), value)
    {
      var select := value / 0x40;
      lastControl := value;
      if select == 3 {
        if chip != Pit8254 {
          return;
        }
        for i := 0 to 3
          invariant lastControl == value
          invariant forall j :: 0 <= j < i ==> channel[j].View() == ReadBack(old(channel[j].View()), value, j)
          invariant forall j :: i <= j < 3 ==> channel[j].View() == old(channel[j].View())
        {
          ReadBackChannel(i, value);
        }
        return;
      }
      if (value / 0x10) % 4 == 0 {
        channel[select].LatchCountCommand();
        return;
      }
      channel[select].Program(value);
    }
  }
}
