# The PC chip set of BluMach, in Dafny

A model of the legacy chips that BluMach emulates and proofs about their runs: the 8253/8254 interval timer, the
8259 interrupt controller pair, the 8237 DMA controller, the I/O port lists and the calendar tick.

Each chip is written twice. A class with the source's registers updates them in place, branch for branch; a function
on the registers as a value says what each entry point does; every method ensures that the object's new `View()` is
that function of its old one. The properties are lemmas about the functions, and so hold of the objects.

* **Interval timer.** `PitExact` and `PitDevice` are the pin-clocked counter. `PitCounting` gives what the counting
  element counts, in binary and BCD, digits above nine included. `PitPeriodic` and `PitGate` give OUT in closed form in
  the periodic modes, without and with GATE edges, and `PitOneShot` in mode 0. `PitInput` is how a count arrives byte by
  byte; `PitWaves` (modes 0, 2 and 3) and `PitTriggered` (1, 4 and 5) give OUT under clocks, GATE edges and count bytes
  at any moment, and `PitProgram` states all six from the control word on. `PitLatch` and `PitLiveness` cover latched
  reads and mode 3 progress. `PitBridge` is the bridge to the machine's callbacks. `PitFast` is the event-driven counter
  and `PitRefinement` shows that it emits the exact counter's edges.
* **Interrupt controllers.** `PicSpec` and `PicDevice` are the pair; `PicSteps` names what can happen to it
  and `PicInit` brings it there from any state.
  `PicPriority`, `PicCascade`, `PicDelivery`, `PicNesting`, `PicFairness` and `PicLines` state priority resolution,
  cascade coherence, the frozen two-phase acknowledge, in-service nesting, bounded waiting and shared level lines, on
  boards with one chip and with two.
* **DMA.** `DmaXt`, `DmaRefresh` and `DmaDevice` are the XT controller with its refresh latch and the CPU adapter that
  grants the bus; `DmaProtocol` is the handshake over every interleaving, `DmaRun` and `DmaXtRun` the closed forms of
  a run, `DmaInterleave` those of one channel while everything else goes on. `DmaSoft` is the block requested by
  software, `DmaCopy` memory-to-memory. `DmaStore` lays a block into memory and `DmaLegacy` is one channel of the
  AT-style controllers; `DmaScatter` and `DmaChain` are the bus-master ranges and the descriptor chain, `DmaGather` what
  a transfer into memory along it leaves.
* **Ports.** `IoTable` says what is registered where, `IoPorts` edits the doubly linked lists, `IoWide` assembles
  accesses of one, two and four bytes.
* **Calendar.** `Rtc` compares the carry chain with a closed formula for elapsed seconds.

Eight-bit registers that hold one bit a line or a channel are sets. Integers are unbounded and every width or wrap
that matters is written out. A host timer is an absolute deadline, memory an array of bytes that answers FFh outside
its range, and a device behind a port is a pure function of its private pointer and the port. What the CPU's bus
state decides (when HOLD is granted, when READY ends a wait) is an input of the adapter's clock, so the handshake
holds for every choice.

Some textbook claims are false of the code; what holds instead is proved, with the condition and an input:

* Modes 4 and 5 strobe again after the counter wraps (`PitTriggered.Strobing`, `PitOneShot.StrobeTrain`).
* GATE restarts the square wave with OUT high, unless it fell on the last high clock of an odd count on an 8254: then
  the wave restarts in its low half (`GateRestartsSquareWave`).
* A data byte stalls a mode 3 half-cycle for ever if and only if the counting element is odd, no load follows and, on an
  8253, the register it leaves is even (`WriteStalls`). Count 5, one clock, count 4 gets there (`StallIsReachable`), and
  so does the low byte 4 alone (`HalfCountStalls`).
* The second byte of a count starts a mode 1 pulse without a trigger when a load took the first byte alone
  (`RetriggerablePulse`, and at an input `TornTrigger`).
* A block request does not return if and only if the base count is FFFFh (`BlockReturns`).
* The AT-style DMA write never reports the end under auto-initialise (`AutoInitWriteSilent`).
* A scatter/gather transfer that ends exactly with a block, or past the end of its chain, has the next transfer deliver
  what it had of that block again (`NextTransfer`).

`dafny verify dfyconfig.toml` checks the whole project.

## Model

| member | source | states |
|---|---|---|
| PitDevice.PitChannel.DecrementN | src/pit_exact.c:63-67 | n binary or BCD decrements, the output latch following until a count is latched |
| PitDevice.PitChannel.LoadCountingElement | src/pit_exact.c:74-119 | the load with its mode-dependent OUT, the 8254's dropped low bit and the mark of a load between two count bytes |
| PitDevice.PitChannel.RunMode3 | src/pit_exact.c:362-397 | the mode 3 step: 8253 steps of one and three, 8254 deferred toggle |
| PitDevice.PitChannel.TickChannel | src/pit_exact.c:399-484 | one falling clock edge in every state and mode |
| PitDevice.PitChannel.LatchCountCommand | src/pit_exact.c:147-156 | a second latch command changes nothing |
| PitDevice.PitChannel.Program | src/pit_exact.c:168-187 | the control word |
| PitDevice.PitChannel.WriteData | src/pit_exact.c:248-283 | count bytes in the three access modes, with OUT low and waiting after the first byte in mode 0 |
| PitDevice.PitChannel.ReadData | src/pit_exact.c:285-321 | status, latched or live count, byte by byte |
| PitDevice.PitChannel.ChangeGate | src/pit_exact.c:323-360 | gate edges in all modes |
| PitDevice.PitDevice.WriteControl | src/pit_exact.c:189-215 | counter select, latch command and the 8254 read-back command |
| PitCounting.Predecessor | src/pit_exact.c:36-61 | a decrement is subtraction of one, wrapping at zero to 65535 or 9999, and reaches zero exactly from one, for BCD values with any digits |
| PitPeriodic.SquareWave | src/pit_exact.c:362-397 | mode 3 from any load: OUT is high at tick k exactly when k mod N is below the upper half of N, both chips, binary and BCD; a load with a toggle still owed starts the wave in its low half |
| PitPeriodic.ChipsAgree | src/pit_exact.c:74-119 | the 8253 and the 8254 loaded with the same divisor at the same point of the period drive the same OUT at every tick although their elements differ |
| PitPeriodic.RateGenerator | src/pit_exact.c:451-458 | mode 2: OUT is low at exactly the last tick of every N |
| PitPeriodic.TornWriteRepaired | src/pit_exact.c:217-246 | a count written in two bytes: if the period ended between them the tick after the second starts the full new count, otherwise the running period is completed unchanged first |
| PitOneShot.TerminalCount | src/pit_exact.c:433-440 | mode 0: OUT is high exactly once N gated clocks have passed since the load, through any gate edges |
| PitGate.GatedWave | src/pit_exact.c:323-397 | modes 2 and 3, the count written with GATE high or low: through any run of clocks and GATE edges OUT is the level of a reference wave that stops high with GATE and restarts at the clock after it rises |
| PitGate.GateRestartsSquareWave | src/pit_exact.c:339-356 | GATE down and up again anywhere in the period restarts the wave with OUT high, or with OUT low if and only if it fell on the last high clock of an odd count on an 8254 |
| PitGate.GateRestartsRateGenerator | src/pit_exact.c:339-356 | GATE down and up again anywhere in the period restarts mode 2 with a full period |
| PitTriggered.FollowsRun | src/pit_exact.c:399-484 | modes 1, 4 and 5: through any clocks, GATE edges and count bytes, a load between two bytes included, OUT is that of a reference pulse that only knows counts, ages and what is pending |
| PitTriggered.RetriggerablePulse | src/pit_exact.c:227-283 | mode 1: OUT is low until N clocks after the last load; a count written meanwhile waits for the next trigger, unless a load took it half-written, and then its second byte starts a pulse of the full count |
| PitTriggered.TornTrigger | src/pit_exact.c:227-246 | control word 32h, count 2, a trigger, the byte 1, a second trigger, three clocks, the byte 0 and a clock: OUT falls without a trigger |
| PitWaves.TerminalCounts | src/pit_exact.c:248-440 | mode 0 under clocks, GATE edges and count bytes: OUT is high exactly when the last count loaded has run out and no first byte of another has come since |
| PitWaves.Rated | src/pit_exact.c:217-458 | mode 2 likewise: OUT is low exactly on the last clock before a load, whose period is the register as it then is, half-written or not |
| PitWaves.Squared | src/pit_exact.c:217-397 | mode 3 likewise, both chips: OUT is the level of a square wave on numbers |
| PitWaves.NewCountTakesOver | src/pit_exact.c:362-397 | from the control word through any events: a half-cycle under way ends after what it had left, and from then on OUT is the square wave of the count then in the register; on an 8253 unless it was stalled |
| PitOneShot.StrobeTrain | src/pit_exact.c:464-480 | modes 4 and 5: OUT is low exactly N clocks after the load and every modulus + 1 clocks from then on |
| PitProgram.ProgrammedSquareWave | src/pit_exact.c:168-187 | from the control word and any writable count on, the square wave of the programmed divisor |
| PitProgram.ProgrammedRateGenerator | src/pit_exact.c:217-246 | the same for mode 2 |
| PitProgram.ProgrammedTerminalCount | src/pit_exact.c:248-283 | the same for mode 0, with OUT low from the write on |
| PitProgram.ProgrammedGatedWave | src/pit_exact.c:168-187 | modes 2 and 3 from the control word through any GATE edges, the count written with GATE high or low |
| PitProgram.ProgrammedTriggered | src/pit_exact.c:168-187 | modes 1, 4 and 5 from the control word through any clocks, triggers and further counts |
| PitProgram.ControlledWaves | src/pit_exact.c:168-283 | modes 0, 2 and 3 from the control word alone through any clocks, GATE edges and count bytes |
| PitProgram.DivisorOne | src/pit_exact.c:217-225 | a divisor of one becomes two in mode 2 and the maximum in mode 3 |
| PitLatch.LatchedCount | src/pit_exact.c:285-321 | through any interleaving of clocks, gates, writes and latch commands the count reads return the count of the latch command |
| PitLatch.LastByteReleases | src/pit_exact.c:303-317 | the last of those reads releases the latch |
| PitLatch.LatchedStatusFirst | src/pit_exact.c:291-294 | a latched status byte comes before any count byte and does not change |
| PitLiveness.AlwaysEven | src/pit_exact.c:74-85 | after a load an 8254 mode 3 element is even in every reachable state, whatever is written |
| PitLiveness.HalfCycleEnds | src/pit_exact.c:362-397 | a half-cycle ends after exactly the clocks read off the element, if and only if the element is even or an odd 8253 element under an odd count; otherwise it never ends |
| PitLiveness.WriteStalls | src/pit_exact.c:217-283 | a data byte, first or last of a count, stalls a half-cycle for ever if and only if the element is odd, no load follows and it is not an 8253 with an odd register afterwards |
| PitLiveness.StallIsReachable | src/pit_exact.c:362-397 | control word 16h, count 5, one clock and count 4 leave OUT high for ever |
| PitLiveness.HalfCountStalls | src/pit_exact.c:263-266 | control word 36h, count 5, one clock and the low byte 4 alone leave OUT high for ever |
| PitLiveness.Live8254 | src/pit_exact.c:366-383 | from any state of an 8254 run the half-cycle ends after exactly half the held number and not before |
| PitBridge.Bridge.SyncChannel | src/pit.c:148-173 | the public copy of a channel with its back-up counts, and one report when OUT differs from the copy |
| PitBridge.Bridge.SetClockCommon | src/pit.c:266-275 | a falling clock ticks the core and synchronises |
| PitBridge.Bridge.TimerOver | src/pit.c:293-304 | one half-period callback clocks the three counters and arms the next |
| PitBridge.Bridge.CtrClock | src/pit.c:203-212 | a clock from outside, ignored by a counter the timer drives |
| PitBridge.Bridge.SetGateLevel | src/pit.c:256-264 | a GATE level, synchronised |
| PitBridge.Bridge.WriteControl | src/pit.c:306-316 | a control word, all three counters synchronised |
| PitBridge.Bridge.WriteData | src/pit.c:317-325 | a count byte, synchronised, and the load handler told of a completed count |
| PitBridge.Bridge.ReadData | src/pit.c:365-374 | a data read, synchronised |
| PitBridge.BridgeReports | src/pit.c:148-325 | through clocks, GATE edges, control words, count bytes and reads in any order the core runs as it would alone, and the OUT handler is called once for each of its OUT changes and for nothing else |
| PitBridge.NoticeIsDivisor | src/pit.c:138-192 | the load handler is told the divisor the counter counts, in binary and BCD |
| PitBridge.ReportsAreEdges | src/pit.c:148-202 | 2n callbacks are n ticks, and the reports are exactly the OUT changes, old and new level |
| PitBridge.OneRisePerPeriod | src/pit.c:266-304 | any 2Nj callbacks of a running mode 2 or 3 counter report exactly j rising edges |
| PitFast.Counter.CtrLoad | src/pit_fast.c:158-228 | the load of the event-driven counter in all modes and the call of the load handler |
| PitFast.Counter.CtrOver | src/pit_fast.c:305-394 | its overflow handler in all modes |
| PitFast.Counter.ProcessTimer | src/pit_fast.c:627-633 | every deadline that has passed fires in order, and the queue runs empty, a count of one in mode 3 included |
| PitRefinement.SameLevel | src/pit_fast.c:158-228 | modes 0 and 3: at every instant the event-driven OUT is the exact counter's level at the last whole clock; a count of one in mode 0 included |
| PitRefinement.SameEvents | src/pit_fast.c:305-394 | modes 0, 2 and 3: up to any instant the OUT handler was called exactly for the exact counter's edges, at their times |
| PitRefinement.PulseClocks | src/pit_exact.c:451-458 | the mode 2 pulses mark the clocks kN - 1 |
| PicDevice.PicChip.FindBestInterrupt | src/pic.c:196-227 | the priority scan |
| PicDevice.PicChip.NonSpecificFind | src/pic.c:350-368 | the in-service scan, skipping masked lines in special mask mode |
| PicDevice.PicChip.Acknowledge | src/pic.c:337-346 | in service, and the request dropped unless a level line is still held |
| PicDevice.PicPair.Update | src/pic.c:229-251 | the refresh of slave, cascade bit and master, and nothing while frozen |
| PicDevice.PicPair.WriteCommand | src/pic.c:370-414 | OCW2: ends of interrupt and rotations |
| PicDevice.PicPair.WriteModes | src/pic.c:595-600 | OCW3 |
| PicDevice.PicPair.WriteMask | src/pic.c:552-567 | the mask register, with or without a refresh |
| PicDevice.PicPair.WriteInit | src/pic.c:573-593 | ICW1: what restarts and what survives, and the PCI filter |
| PicDevice.PicPair.TakeWord | src/pic.c:537-551 | ICW2 to ICW4 in the order ICW1 asks for |
| PicDevice.PicPair.PicWrite | src/pic.c:528-607 | any write to a chip's two ports |
| PicDevice.PicPair.PicIntCommon | src/pic.c:718-838 | both request APIs: cascade routing, sharing counters, request bits and the caller's state |
| PicDevice.PicPair.IrqAckRead | src/pic.c:846-890 | one acknowledge byte from the master, passed on to the slave |
| PicDevice.PicPair.PicIrqAck | src/pic.c:892-920 | the byte-wise acknowledge and the condition under which it stops the machine |
| PicDevice.PicPair.PicInterrupt | src/pic.c:922-963 | the whole acknowledge: two cycles, the vector, and whether the second timer chip's gate is taken low |
| PicPriority.BestWins | src/pic.c:204-214 | the scan returns a line if and only if it is requested, unmasked, above every such line and above everything in service |
| PicPriority.NonSpecificRetires | src/pic.c:356-365 | the in-service scan returns the highest-priority retirable line, and none only if there is none |
| PicCascade.CascadeCoherence | src/pic.c:238-251 | in every unfrozen state of every run of two cascaded chips master request bit 2 is the slave's pending flag; the acknowledge never stops the machine nor invents a slave interrupt |
| PicDelivery.RunCurrent | src/pic.c:229-251 | every reachable unfrozen state offers what its registers call for, with one chip or two; a board that delays the refresh after a mask write excepted until that refresh |
| PicDelivery.Delivery | src/pic.c:846-890 | an acknowledge is pending exactly when a line wins, and returns the vector of the winner, through the cascade and with overrides |
| PicDelivery.FrozenVector | src/pic.c:892-920 | whatever happens between the two bytes, the vector is the one an uninterrupted acknowledge would have returned |
| PicNesting.InServiceIsStack | src/pic.c:337-368 | in fully nested operation each in-service register is the stack of acknowledged and unretired lines, in strictly rising priority |
| PicNesting.AcknowledgeNests | src/pic.c:337-346 | every acknowledge adds exactly one line a chip serves, above everything already in service |
| PicNesting.EoiRetiresNewest | src/pic.c:400-414 | a non-specific end of interrupt retires exactly the most recently acknowledged line |
| PicInit.Initialisation | src/pic.c:528-593 | from any state: once each chip has been given its words, the chips' words interleaved as they may and with requests and refreshes in between, the next refresh leaves a state all these runs may start from |
| PicFairness.BoundedWaiting | src/pic.c:370-382 | with rotate-on-non-specific-EOI a held master request is passed over at most as often as its distance from the top, at most 7 times |
| PicFairness.BoundedWaitingOnSlave | src/pic.c:204-214 | a held slave request is passed over at most 63 times, slave distance weighing eight master rounds |
| PicLines.SharedLine | src/pic.c:762-838 | over every run, on one chip or two, the sharing counter is the number of asserting devices and the request bit is up exactly when it is positive, devices that drive several lines at once included |
| DmaDevice.Controller.PriorityPick | src/dma.c:151-186 | ownership, fixed and rotating priority |
| DmaDevice.Controller.Serviceable | src/dma.c:188-225 | who may be served |
| DmaDevice.Controller.FinishTransfer | src/dma.c:283-321 | the count, terminal count, external end of process, reload or mask, release |
| DmaDevice.Controller.Drq | src/dma.c:451-473 | a request line, with the release of a demand owner and the reconciliation |
| DmaDevice.Controller.ReconcileRefresh | src/dma.c:2162-2177 | schedule or cancel the refresh in both directions |
| DmaDevice.Controller.RefreshRequest | src/dma.c:2179-2191 | a PIT edge |
| DmaDevice.Controller.RefreshDack | src/dma.c:2115-2143 | the address-only transfer at DACK0 and the clearing of the latch |
| DmaDevice.Controller.Clock | src/cpu/808x_marty_86box.c:839-912 | one clock of the bus-request adapter |
| DmaDevice.Controller.TryRequest | src/cpu/808x_marty_86box.c:4799-4818 | a request is refused while one is outstanding |
| DmaDevice.Controller.CancelRequest | src/cpu/808x_marty_86box.c:4820-4840 | a cancel succeeds only before the hold is granted |
| DmaDevice.Controller.ReadChannel | src/dma.c:2251-2294 | a device read: refusals, the byte or verify mark, terminal count |
| DmaDevice.Controller.PeekChannel | src/dma.c:2193-2227 | the same with the count left to the advance call |
| DmaDevice.Controller.WriteChannel | src/dma.c:2296-2331 | a device write and the memory it leaves |
| DmaDevice.Controller.AdvanceChannel | src/dma.c:2229-2249 | the count of a peeked transfer |
| DmaDevice.Controller.BlockTransfer | src/dma.c:519-542 | a software-requested block: registers, memory and buffer |
| DmaDevice.Controller.CopyMemory | src/dma.c:2030-2082 | the memory-to-memory loop: registers, memory and result |
| DmaDevice.Controller.WriteRegister | src/dma.c:867-954 | every programming write, followed by a reconciliation |
| DmaProtocol.RefreshHandshake | src/dma.c:2145-2191 | over every interleaving: scheduled implies latched, the adapter holds exactly the scheduled refresh, edges that set the latch = DACKs + the one still latched, serviceable implies scheduled |
| DmaProtocol.EdgesCoalesce | src/dma.c:2179-2191 | edges while the latch is set are one edge |
| DmaProtocol.GrantedRefresh | src/cpu/808x_marty_86box.c:839-912 | a scheduled refresh is served once, after exactly the clocks its phase leaves, at most nine when every clock is granted |
| DmaXtRun.RunResult | src/dma.c:2251-2331 | a device channel's n-th attempt: address, terminal count exactly at the end of each period, refusal afterwards, other channels unmoved |
| DmaXtRun.ProgrammedLoads | src/dma.c:1013-1044 | the flip-flop sequence loads base and current alike inside the channel's page |
| DmaXtRun.PeekThenAdvance | src/dma.c:2193-2249 | a peek followed by an advance is one read |
| DmaInterleave.InterleavedRun | src/dma.c:2251-2331 | a device channel over any interleaving with refresh, the other channels, programming and CPU clocks: the next attempt is refused exactly when the arbiter or the mode refuses it, and otherwise moves the item the accepted attempts lead to, with terminal count at the end of each period; after terminal count nothing is accepted until it is unmasked |
| DmaInterleave.RefreshWalksRows | src/dma.c:2115-2143 | over every interleaving the refresh address is the base moved by the number of DACKs |
| DmaSoft.SoftTransfers | src/dma.c:519-542 | a serviceable block request makes its k-th transfer at the k-th address of the page, with terminal count on the last of count + 1 and on no other before |
| DmaSoft.SoftStored | src/dma.c:527-532 | a block into memory lays the buffer along those addresses |
| DmaSoft.SoftFetched | src/dma.c:533-538 | a block out of memory fills the buffer from those addresses and leaves the rest of it |
| DmaSoft.SoftBlock | src/dma.c:890-899 | the whole request, for counts below FFFFh: the channel past its last byte or reloaded, flagged, masked unless it reloads, request and bus given up, the other channels unmoved |
| DmaSoft.BlockReturns | src/dma.c:528 | the sixteen-bit loop leaves after count + 1 rounds if and only if the count is not FFFFh |
| DmaSoft.NothingToDo | src/dma.c:519-542 | a channel that is not serviceable, not in block mode or only verifies makes no transfer at all |
| DmaStore.LaidAt | src/dma.c:2582-2672 | bytes, or words at even addresses, laid along a walk read back one by one |
| DmaRun.BeforeTerminal | src/dma.c:270-321 | after k transfers the count is base - k and the address has walked k steps with wrap inside its page; without auto-initialise also past terminal count |
| DmaRun.AutoInitRun | src/dma.c:283-307 | with auto-initialise count and address depend only on the place in the period |
| DmaLegacy.Channel.Read | src/dma.c:2487-2580 | the AT-style read, byte or word |
| DmaLegacy.Channel.Write | src/dma.c:2582-2672 | the AT-style write, its memory and its result |
| DmaLegacy.Channel.ReadOnly | src/dma.c:2381-2450 | the AT-style peek |
| DmaLegacy.Channel.Advance | src/dma.c:2452-2485 | the AT-style advance |
| DmaLegacy.RunResult | src/dma.c:2487-2672 | attempt n of a run, asked for by a device or by software: address in a 64 or 128 KiB page, when the end is reported, refusal to a device afterwards while a software request goes on |
| DmaLegacy.PeekThenAdvance | src/dma.c:2381-2485 | a peek followed by an advance is one read, and a refused peek changes nothing |
| DmaLegacy.AutoInitWriteSilent | src/dma.c:2648-2672 | under auto-initialise a write never reports the end although the status bit is set |
| DmaLegacy.BlockStored | src/dma.c:2582-2672 | a written block of bytes or words lies at the walked addresses in order and nothing else changes |
| DmaLegacy.BlockRoundTrip | src/dma.c:2487-2672 | what one channel stores another programmed alike fetches back |
| DmaCopy.BlockCount | src/dma.c:2030-2082 | a serviceable block copy moves exactly one byte more than the destination count |
| DmaCopy.SingleCount | src/dma.c:2060-2078 | in the other modes, or with the end of process up, one request moves one byte |
| DmaCopy.BlockCopies | src/dma.c:2045-2071 | memory is that of copying the bytes one at a time along both wrapping address sequences, and the copy ends at terminal count |
| DmaCopy.BlockLeaves | src/dma.c:2052-2078 | status, mask or reload, released bus and software request afterwards |
| DmaCopy.CopiedDisjoint | src/dma.c:2045-2052 | with ranges apart every target byte is the original source byte |
| DmaCopy.HoldFills | src/dma.c:2050-2051 | with address hold one source byte fills the target |
| DmaScatter.BmRead | src/dma.c:2776-2797 | an exact byte-range read for every size and transfer size 1, 2 or 4 |
| DmaScatter.BmWrite | src/dma.c:2799-2825 | an exact byte-range write, nothing around it changed |
| DmaScatter.WrittenReadsBack | src/dma.c:2776-2825 | a written range reads back |
| DmaChain.SgChannel.NextAddr | src/dma.c:496-517 | the next descriptor: even count, zero as 65536, end mark, the registers and the page copies |
| DmaChain.SgChannel.Command | src/dma.c:580-597 | the command register: its bit 0 going up fetches the first descriptor, and what either edge does to the status |
| DmaChain.EnabledFollowsCommand | src/dma.c:580-597 | transfers are enabled exactly while bit 0 of the last command is up; a start clears status bit 3, a stop bit 7, and nothing else moves |
| DmaChain.SgChannel.Transfer | src/dma.c:1866-1927 | the buffer gets exactly the prefix of the concatenated blocks, the result is 2, 1, 4 or 5 as the lengths compare, for every chain, cyclic ones included |
| DmaChain.SgChannel.TransferIn | src/dma.c:1866-1927 | the other direction: the blocks written and each descriptor read from memory as the transfer has left it |
| DmaGather.FillFollowsChain | src/dma.c:1866-1927 | a transfer into memory that stays off the descriptors it reads ends as one out of memory would; the bytes lie at the chain's addresses, the last one where several land, and nothing else changes |
| DmaChain.Resumes | src/dma.c:1895-1905 | after a transfer that stops inside a block the chain goes on exactly where it stopped |
| DmaChain.NextTransfer | src/dma.c:1885-1925 | for every length: the next transfer starts where this one stopped if and only if that is inside a block, and otherwise at the beginning of what it had of its last block; what it delivers and its result are what the chain holds from there |
| IoPorts.Ports.SetHandler | src/io.c:114-152 | a record at the end of each named port's list, the two ends and both directions kept consistent |
| IoPorts.Ports.RemoveHandler | src/io.c:155-190 | the first equal record taken out of each named port's list |
| IoPorts.Ports.Forwards | src/io.c:368-380 | the list by its forward links |
| IoPorts.Ports.Backwards | src/io.c:94-104 | the same list, reversed, by its back links |
| IoTable.AddedThenRemoved | src/io.c:114-190 | adding and removing a handler restores every list if and only if nothing else follows an equal record in a named list |
| IoTable.WithoutCounts | src/io.c:155-190 | removal takes exactly one equal record |
| IoWide.ReadB | src/io.c:336-403 | the byte read walks the port's list |
| IoWide.ReadW | src/io.c:464-543 | the word read and its byte lanes |
| IoWide.ReadL | src/io.c:620-732 | the double-word read, its halves and lanes |
| IoWide.WriteB | src/io.c:405-461 | the calls a byte write makes |
| IoWide.WriteW | src/io.c:546-618 | the calls a word write makes |
| IoWide.WriteL | src/io.c:734-819 | the calls a double-word write makes |
| IoWide.ByteReadBit | src/io.c:368-380 | a bit is up exactly when every byte handler of the port answers it up |
| IoWide.WordReadBit | src/io.c:496-527 | a bit of a word read: the word handlers of the port and the byte-only handlers of the bit's lane |
| IoWide.LongReadBit | src/io.c:655-712 | a bit of a double-word read: the double-word, word and byte handlers that take part in it |
| IoWide.LongIsTwoWords | src/io.c:620-732 | without double-word handlers it is two word reads |
| IoWide.LongIsFourBytes | src/io.c:620-732 | over byte-only handlers it is the four byte reads of its lanes |
| IoWide.OutLongIsTwoWords | src/io.c:734-819 | without double-word handlers a write makes exactly the calls of its two word writes |
| IoWide.OutWordIsTwoBytes | src/io.c:546-618 | over byte-only handlers a word write is the two byte writes, low byte first |
| IoWide.OutLongIsFourBytes | src/io.c:734-819 | over byte-only handlers a write is the four byte writes in order |
| Rtc.Clock.RtcTick | src/nvr.c:114-134 | the carry chain over the fields |
| Rtc.TickIsSuccessor | src/nvr.c:85-134 | a valid date-time of any year goes to a valid one exactly one second later |
| Rtc.TicksReach | src/nvr.c:114-134 | n ticks reach a date-time if and only if it lies n seconds later |
| Rtc.FourCenturies | src/nvr.c:86-97 | the same date 400 years on is reached after exactly 146097 days |

## Left out

- Timer: access mode 0, in which the control word is a latch command.
- Bridge: the port decoding beyond control and data ports, the SiS register reads and switching a counter between the timer and a clock of its own.
- Event-driven timer: the 32-bit width of its running count, the fractional part of a deadline, gate retriggers, software-clocked counters and live count read-back, where it differs from the exact core.
- PitFast.Counter.ProcessTimer: a clock constant of zero, for which a due timer of the source comes due again at once.
- PitRefinement.SameEvents: a count of one in modes 2 and 3, which the exact core replaces and the event-driven counter does not.
- PitLiveness.WriteStalls: writes while a half-cycle has a toggle put off or is stopped; `PitWaves.Squared` covers them.
- Interrupt controllers: runs after other initialisation words than the usual ones, register reads, poll mode, the shadow registers and CPU speed hooks.
- PicDevice.PicPair.PicIntCommon: the SMI status, the latches of keyboard and mouse requests with the port that clears them, and the ACPI clock bit.
- PicNesting.AcknowledgeNests: acknowledges without a pending request, which put line 7 in service.
- PicLines.SharedLine: the cascade input itself.
- XT DMA: reads of the registers other than the status, page registers, resets of the controller or the CPU while a refresh is scheduled, and the cycles charged to the CPU. The low sixteen bits of the address mask are ones.
- DmaDevice.Controller.Drq: channels 4 to 7, which the XT controller does not have.
- DmaDevice.Controller.ReconcileRefresh: processors without the clocked adapter, which take the refresh at once.
- DmaDevice.Controller.RefreshDack: the transfer those processors make from the timer's callback.
- DmaDevice.Controller.Clock: the address-enable pin, up exactly while the adapter operates, and the wait states it charges to the CPU.
- DmaDevice.Controller.BlockTransfer: a base count of FFFFh, for which the source's sixteen-bit loop index never passes the end.
- DmaDevice.Controller.WriteRegister: a block request on a channel with that base count.
- DmaInterleave.InterleavedRun: peeks, software requests and external ends of process on the channel itself.
- AT-style DMA: PS/2 and extended modes, the software-requested memory-to-memory of that controller and the order in which a device interleaves channels.
- Scatter/gather: the descriptor fetch at terminal count of an ordinary transfer.
- DmaGather.FillFollowsChain: transfers that overwrite a descriptor before they read it; what they do is `DmaChain.Fill`.
- Ports: the PCI windows, traps, breakpoints, access counters and delays; handlers that change state when read.
- Calendar: register encodings and the weekday, and the width of the year.
- Start-up, configuration, machine tables, ACPI, MCA, NMI, speaker and cassette are not modelled.
