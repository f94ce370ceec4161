/** How a count arrives in the count register, byte by byte, and what a load in the middle of it leaves behind. */
module PitInput {
  import opened Bits
  import opened PitExact

  /** What the control word selected, on which chip. */
  datatype Setup = Setup(chip: ChipType, mode: Mode, bcd: bool, rwMode: Byte)

  function SetupOf(c: Channel): Setup {
    Setup(c.cfg.chip, c.cfg.mode, c.cfg.bcd, c.cfg.rwMode)
  }

  /**
   The count register as the bytes of a count arrive: `half` after the first byte of two, `torn` if a load has taken
   the half-written count. The second byte then makes the next clock load again.
   */
  datatype Input = Input(register: Word, half: bool, torn: bool)

  function FirstByteIn(i: Input, value: Byte): Input {
    i.(register := i.register - i.register % 0x100 + value, half := true)
  }

  function CountIn(i: Input, a: Setup, value: Byte): Input {
    Input(LegalRegister(a.mode, if a.rwMode == 1 then value
                                else if a.rwMode == 2 then value * 0x100
                                else i.register % 0x100 + value * 0x100),
          false, false)
  }

  predicate Completes(i: Input, a: Setup) {
    a.rwMode != 3 || i.half
  }

  function Taken(i: Input): Input {
    i.(torn := i.torn || i.half)
  }

  /** The count register and the bytes on their way into it. */
  predicate Receiving(c: Channel, i: Input) {
    && c.flags.countRegister == i.register && c.flags.incompleteReload == i.torn
    && c.bus.writePhase == (if i.half then 1 else 0) && (i.half ==> c.cfg.rwMode == 3)
  }

  /** Loads mark a half-written count, and no other clock touches the register or its bytes. */
  lemma TickReceives(c: Channel, i: Input)
    requires Receiving(c, i)
    ensures Tick(c).cfg == c.cfg && Tick(c).gate == c.gate && Tick(c).flags.initialLoad == c.flags.initialLoad
    ensures Receiving(Tick(c), if c.core.state == LoadNext || c.core.state == ReloadNext then Taken(i) else i)
  {
    hide CountCore, LoadCore;
  }

  lemma GateReceives(c: Channel, i: Input, high: bool)
    requires Receiving(c, i)
    ensures Receiving(SetGate(c, high), i) && SetGate(c, high).cfg == c.cfg
    ensures SetGate(c, high).gate == high && SetGate(c, high).flags == c.flags
  {
  }
}
