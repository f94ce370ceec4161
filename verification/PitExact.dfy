/**
 The pin-clocked 8253/8254 counter of src/pit_exact.c: its registers as a value and
 the effect of every entry point on them.
 */
module PitExact {
  import opened Bits

  datatype ChipType = Pit8253 | Pit8254

  datatype State =
    | WaitCount | WaitTrigger | WaitGate | LoadNext | Counting | ReloadNext | StrobeRecover | Done

  /** Counting-element values; 0x10000 stands for a reload of zero. */
  type Count = x: int | 0 <= x <= 0x1_0000 witness 0

  type Mode = x: int | 0 <= x <= 5 witness 0

  /** What the control word selects. */
  datatype Config = Config(chip: ChipType, control: Byte, modeRaw: Byte, mode: Mode, rwMode: Byte, bcd: bool)

  /** The byte-wide side: half-done transfers and the count and status latches. */
  datatype Bus = Bus(writePhase: Byte, readPhase: Byte, countLatched: bool, statusLatched: bool,
                     outputLatch: Word, statusLatch: Byte)

  datatype Flags = Flags(countRegister: Word, nullCount: bool, initialLoad: bool, incompleteReload: bool,
                         ceUndefined: bool)

  /** The counting element and OUT. */
  datatype Core = Core(ce: Count, output: bool, armed: bool, toggleOnReload: bool, state: State)

  datatype Channel = Channel(cfg: Config, bus: Bus, flags: Flags, core: Core, gate: bool, clocks: nat)

  function CanonicalMode(raw: Byte): Mode {
    var r := raw % 8;
    if r > 5 then r % 4 else r
  }

  function ReloadValue(countRegister: Word): Count {
    if countRegister != 0 then countRegister else 0x1_0000
  }

  function VisibleCount(value: Count): Word {
    if value == 0x1_0000 then 0 else value
  }

  function DropLowBit(value: Count): Count {
    value - value % 2
  }

  function BcdDecrement(value: Count): Word {
    if value == 0 || value == 0x1_0000 then 0x9999
    else if value % 0x10 != 0 then value - 1
    else if (value / 0x10) % 0x10 != 0 then value - 0x7
    else if (value / 0x100) % 0x10 != 0 then value - 0x67
    else value - 0x667
  }

  function DecrementValue(bcd: bool, value: Count): Word {
    if bcd then BcdDecrement(value)
    else if value == 0 || value == 0x1_0000 then 0xffff
    else value - 1
  }

  function DecrementBy(bcd: bool, value: Count, n: nat): Count
    decreases n
  {
    if n == 0 then value else DecrementBy(bcd, DecrementValue(bcd, value), n - 1)
  }

  /** The output latch follows the counting element until a count is latched. */
  function LiveLatch(b: Bus, ce: Count): Bus {
    if b.countLatched then b else b.(outputLatch := VisibleCount(ce))
  }

  // ---- loading ----

  /** An odd count register enters the 8254 element in mode 3 with its low bit dropped. */
  function LoadValue(cfg: Config, countRegister: Word): Count {
    var load := ReloadValue(countRegister);
    if cfg.chip == Pit8254 && cfg.mode == 3 && countRegister % 2 == 1 then DropLowBit(load) else load
  }

  function LoadOutput(mode: Mode, k: Core): bool {
    if mode == 0 || mode == 1 then false
    else if mode == 3 then (if k.toggleOnReload then !k.output else k.state != ReloadNext || k.output)
    else true
  }

  function LoadState(mode: Mode, gate: bool): State {
    if (mode == 2 || mode == 3) && !gate then WaitGate else Counting
  }

  function LoadCore(cfg: Config, countRegister: Word, gate: bool, k: Core): Core {
    Core(LoadValue(cfg, countRegister), LoadOutput(cfg.mode, k), k.armed,
         cfg.mode != 3 && k.toggleOnReload, LoadState(cfg.mode, gate))
  }

  /** A load between the two bytes of a count is remembered. */
  function LoadFlags(c: Channel): Flags {
    Flags(c.flags.countRegister, false, c.flags.initialLoad,
          c.flags.incompleteReload || (c.cfg.rwMode == 3 && c.bus.writePhase == 1), false)
  }

  function Load(c: Channel): Channel {
    var k := LoadCore(c.cfg, c.flags.countRegister, c.gate, c.core);
    c.(core := k,
       bus := LiveLatch(c.bus, k.ce),
       flags := LoadFlags(c))
  }

  // ---- counting ----

  function CountDown(bcd: bool, k: Core): Core {
    k.(ce := DecrementValue(bcd, k.ce))
  }

  function Mode3Core(cfg: Config, countRegister: Word, k: Core): Core {
    var odd := countRegister % 2 == 1;
    if odd && cfg.chip == Pit8254 then
      var d := k.(ce := DecrementBy(cfg.bcd, k.ce, 2));
      if VisibleCount(d.ce) != 0 then d
      else if d.output then d.(toggleOnReload := true, state := ReloadNext)
      else d.(output := true, ce := DropLowBit(ReloadValue(countRegister)))
    else
      var n := if odd && k.ce % 2 == 1 then (if k.output then 1 else 3) else 2;
      var d := k.(ce := DecrementBy(cfg.bcd, k.ce, n));
      if VisibleCount(d.ce) != 0 then d
      else d.(output := !d.output, ce := ReloadValue(countRegister))
  }

  /** One falling edge of CLK on a counter that is counting. */
  function CountCore(cfg: Config, countRegister: Word, k: Core): Core {
    var d := CountDown(cfg.bcd, k);
    var zero := VisibleCount(d.ce) == 0;
    match cfg.mode
    case 0 => if zero then d.(output := true) else d
    case 1 => if zero then d.(output := d.output || d.armed, armed := false) else d
    case 2 => if VisibleCount(d.ce) == 1 then d.(output := false, state := ReloadNext) else d
    case 3 => Mode3Core(cfg, countRegister, k)
    case 4 => if zero then d.(output := false, state := StrobeRecover) else d
    case _ => if zero then d.(output := false, armed := false, state := StrobeRecover) else d
  }

  predicate GateBlocks(mode: Mode, gate: bool) {
    !gate && mode != 1 && mode != 5
  }

  function Step(c: Channel): Channel {
    if GateBlocks(c.cfg.mode, c.gate) then c
    else
      var k := CountCore(c.cfg, c.flags.countRegister, c.core);
      c.(core := k, bus := LiveLatch(c.bus, k.ce))
  }

  const CLOCK_MODULUS: nat := 0x1_0000_0000_0000_0000

  function Tick(c0: Channel): Channel {
    var c := c0.(clocks := (c0.clocks + 1) % CLOCK_MODULUS);
    match c.core.state
    case LoadNext => Load(c)
    case ReloadNext => Load(c)
    case StrobeRecover => c.(core := c.core.(output := true, state := Counting))
    case WaitTrigger =>
      if c.flags.ceUndefined && c.core.armed
      then c.(core := c.core.(ce := 3), bus := LiveLatch(c.bus, 3))
      else c
    case Counting => Step(c)
    case _ => c
  }

  /** `n` consecutive ticks. */
  function Ticks(c: Channel, n: nat): Channel {
    if n == 0 then c else Tick(Ticks(c, n - 1))
  }

  // ---- programming ----

  function ResetChannel(chip: ChipType): Channel {
    Channel(Config(chip, 0, 0, 0, 1, false), Bus(0, 0, false, false, 0, 0),
            Flags(0, true, true, false, false), Core(0, false, false, false, WaitCount), false, 0)
  }

  function LatchCount(b: Bus, ce: Count): Bus {
    if b.countLatched then b
    else b.(outputLatch := VisibleCount(ce), countLatched := true, readPhase := 0)
  }

  function StatusByte(c: Channel): Byte {
    (if c.core.output then 0x80 else 0) + (if c.flags.nullCount then 0x40 else 0) + c.cfg.control % 0x40
  }

  function LatchStatus(b: Bus, status: Byte): Bus {
    if b.statusLatched then b else b.(statusLatch := status, statusLatched := true)
  }

  function ProgramMode(c: Channel, control: Byte): Channel {
    var raw := (control / 2) % 8;
    var mode := CanonicalMode(raw);
    Channel(
      Config(c.cfg.chip, control, raw, mode, (control / 0x10) % 4, control % 2 == 1),
      Bus(0, 0, false, false, c.bus.outputLatch, c.bus.statusLatch),
      Flags(c.flags.countRegister, true, true, false, true),
      Core(c.core.ce, mode != 0, false, false, WaitCount),
      c.gate, c.clocks)
  }

  /** The divisor the chip really uses when it is asked for one. */
  function LegalRegister(mode: Mode, countRegister: Word): Word {
    if countRegister == 1 && mode == 2 then 2
    else if countRegister == 1 && mode == 3 then 0
    else countRegister
  }

  function StateAfterWrite(mode: Mode, f: Flags, state: State): State {
    if f.initialLoad then (if mode == 1 || mode == 5 then WaitTrigger else LoadNext)
    else if f.incompleteReload || mode == 0 || mode == 4 then LoadNext
    else state
  }

  /** The count register is complete. */
  function FinalizeWrite(c: Channel, countRegister: Word): Channel {
    c.(flags := Flags(LegalRegister(c.cfg.mode, countRegister), true, false,
                      c.flags.initialLoad && c.flags.incompleteReload, c.flags.ceUndefined),
       core := c.core.(armed := true, state := StateAfterWrite(c.cfg.mode, c.flags, c.core.state)))
  }

  function DataWrite(c: Channel, value: Byte): Channel {
    var r := c.flags.countRegister;
    if c.cfg.rwMode == 1 then FinalizeWrite(c, value)
    else if c.cfg.rwMode == 2 then FinalizeWrite(c, value * 0x100)
    else if c.cfg.rwMode == 3 then
      if c.bus.writePhase == 0 then
        var d := c.(flags := c.flags.(countRegister := r - r % 0x100 + value), bus := c.bus.(writePhase := 1));
        if d.cfg.mode == 0 then d.(core := d.core.(state := WaitCount, output := false)) else d
      else
        FinalizeWrite(c.(bus := c.bus.(writePhase := 0)), r % 0x100 + value * 0x100)
    else c
  }

  datatype ReadResult = ReadResult(value: Byte, bus: Bus)

  function DataRead(c: Channel): ReadResult {
    var b := c.bus;
    if b.statusLatched then ReadResult(b.statusLatch, b.(statusLatched := false))
    else
      var value := if b.countLatched then b.outputLatch else VisibleCount(c.core.ce);
      if !b.countLatched && c.cfg.rwMode == 3 && b.writePhase == 1 then
        ReadResult(0xff - c.flags.countRegister % 0x100, b)
      else if c.cfg.rwMode == 1 then ReadResult(value % 0x100, b.(countLatched := false))
      else if c.cfg.rwMode == 2 then ReadResult(value / 0x100, b.(countLatched := false))
      else if c.cfg.rwMode == 3 then
        if b.readPhase == 0 then ReadResult(value % 0x100, b.(readPhase := 1))
        else ReadResult(value / 0x100, b.(readPhase := 0, countLatched := false))
      else ReadResult(0, b)
  }

  function SetGate(c: Channel, gate: bool): Channel {
    var d := c.(gate := gate);
    var hardware := c.cfg.mode == 1 || c.cfg.mode == 5;
    var periodic := c.cfg.mode == 2 || c.cfg.mode == 3;
    var idle := c.core.state == WaitCount;
    if !c.gate && gate then
      if hardware && !idle then d.(core := c.core.(armed := true, state := LoadNext))
      else if periodic && !idle then d.(core := c.core.(state := LoadNext))
      else d
    else if c.gate && !gate && periodic then
      d.(core := c.core.(output := true, state := if idle then WaitCount else WaitGate))
    else d
  }

  // ---- the three-counter device ----

  datatype Device = Device(chip: ChipType, channels: seq<Channel>, lastControl: Byte)

  predicate WellFormed(d: Device) {
    |d.channels| == 3
  }

  /** Read-back on an 8254, for counter `i`: bit i + 1 addresses it, a clear bit 5 latches its count and a clear bit 4 its status. */
  function ReadBack(c: Channel, value: Byte, i: nat): Channel {
    if !Bit(value, i + 1) then c
    else
      var b := if Bit(value, 5) then c.bus else LatchCount(c.bus, c.core.ce);
      c.(bus := if Bit(value, 4) then b else LatchStatus(b, StatusByte(c)))
  }

  function ControlChannel(chip: ChipType, c: Channel, i: nat, value: Byte): Channel {
    if value / 0x40 == 3 then (if chip == Pit8254 then ReadBack(c, value, i) else c)
    else if value / 0x40 != i then c
    else if (value / 0x10) % 4 == 0 then c.(bus := LatchCount(c.bus, c.core.ce))
    else ProgramMode(c, value)
  }

  function ControlWrite(d: Device, value: Byte): Device
    requires WellFormed(d)
  {
    Device(d.chip,
           [ControlChannel(d.chip, d.channels[0], 0, value), ControlChannel(d.chip, d.channels[1], 1, value),
            ControlChannel(d.chip, d.channels[2], 2, value)],
           value)
  }

  /** The next data byte completes a count. */
  predicate CompletesCount(c: Channel) {
    c.cfg.rwMode == 1 || c.cfg.rwMode == 2 || (c.cfg.rwMode == 3 && c.bus.writePhase == 1)
  }

  // ---- runs ----

  /** What the pins and the CPU do to a counter between two control words. */
  datatype Event =
    | Clock
    | Gate(high: bool)
    | Write(value: Byte)

  function Apply(c: Channel, e: Event): Channel {
    match e
    case Clock => Tick(c)
    case Gate(high) => SetGate(c, high)
    case Write(value) => DataWrite(c, value)
  }

  function Run(c: Channel, es: seq<Event>): Channel {
    if es == [] then c else Apply(Run(c, es[..|es| - 1]), es[|es| - 1])
  }

  predicate PinsOnly(es: seq<Event>) {
    forall i :: 0 <= i < |es| ==> !es[i].Write?
  }
}
