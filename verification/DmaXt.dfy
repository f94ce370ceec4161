/**
 The XT 8237 of src/dma.c: channel registers, request arbitration and the service of one transfer. The
 four-bit request, mask and status registers are sets of channels; `pageMask` is the page part of the
 machine's address mask, whose low sixteen bits are ones.
 */
module DmaXt {
  import opened Bits

  type Ch = x: int | 0 <= x < 4 witness 0

  /** Mode, base and current address, base and current count; the count runs below zero at terminal count. */
  datatype Chan = Chan(mode: Byte, ab: nat, ac: nat, cb: Word, cc: int)

  datatype Ctl = Ctl(command: Byte, mask: set<Ch>, enabled: set<Ch>, soft: bool, flipFlop: bool)

  datatype Req = Req(drq: set<Ch>, sw: set<Ch>, demand: set<Ch>, block: set<Ch>, eop: set<Ch>, dack: set<Ch>, last: Ch)

  datatype Stat = Stat(tc: set<Ch>, served: set<Ch>, pend: set<Ch>)

  datatype Xt = Xt(ctl: Ctl, req: Req, stat: Stat, c0: Chan, c1: Chan, c2: Chan, c3: Chan, pageMask: nat)

  function Get(x: Xt, c: Ch): Chan {
    if c == 0 then x.c0 else if c == 1 then x.c1 else if c == 2 then x.c2 else x.c3
  }

  function Put(x: Xt, c: Ch, d: Chan): Xt {
    if c == 0 then x.(c0 := d) else if c == 1 then x.(c1 := d) else if c == 2 then x.(c2 := d) else x.(c3 := d)
  }

  // ---- mode and command bits ----

  datatype Service = Demand | Single | Block | Cascade

  function ServiceMode(mode: Byte): Service {
    var k := mode / 0x40;
    if k == 0 then Demand else if k == 1 then Single else if k == 2 then Block else Cascade
  }

  datatype Kind = Verify | WriteMem | ReadMem | Illegal

  function KindOf(mode: Byte): Kind {
    var k := (mode / 4) % 4;
    if k == 0 then Verify else if k == 1 then WriteMem else if k == 2 then ReadMem else Illegal
  }

  predicate Down(mode: Byte) {
    Bit(mode, 5)
  }

  predicate AutoInit(mode: Byte) {
    Bit(mode, 4)
  }

  predicate Disabled(x: Xt) {
    Bit(x.ctl.command, 2)
  }

  predicate Rotating(x: Xt) {
    Bit(x.ctl.command, 4)
  }

  // ---- arbitration ----

  function Raw(x: Xt): set<Ch> {
    x.req.drq + x.req.sw
  }

  function Requests(x: Xt): set<Ch> {
    Raw(x) + x.req.demand + x.req.block
  }

  function LowestFrom(s: set<Ch>, i: nat): int
    decreases 4 - i
  {
    if i >= 4 then -1 else if i in s then i else LowestFrom(s, i + 1)
  }

  function RotatingFrom(s: set<Ch>, last: Ch, i: nat): int
    decreases 5 - i
  {
    if i >= 5 then -1 else if (last + i) % 4 in s then (last + i) % 4 else RotatingFrom(s, last, i + 1)
  }

  /** A channel that owns the bus keeps it; otherwise fixed or rotating priority decides. */
  function Pick(x: Xt, requests: set<Ch>): int {
    var live := requests * x.ctl.enabled - x.ctl.mask;
    var owner := live * (x.req.demand + x.req.block);
    if live == {} || Disabled(x) then -1
    else if owner != {} then LowestFrom(owner, 0)
    else if Rotating(x) then RotatingFrom(live, x.req.last, 1)
    else LowestFrom(live, 0)
  }

  /** A hardware transfer on channels 1 to 3 is not held up by the other requests. */
  function Seen(x: Xt, c: Ch): set<Ch> {
    if c != 0 && !x.ctl.soft then Requests(x) * {c} else Requests(x)
  }

  predicate CanService(x: Xt, c: Ch) {
    && !Disabled(x) && c in x.ctl.enabled && c !in x.ctl.mask
    && c in Seen(x, c) && ServiceMode(Get(x, c).mode) != Cascade
    && Pick(x, Seen(x, c)) == c
  }

  // ---- one service ----

  function ReleaseReq(r: Req, c: Ch, rotating: bool): Req {
    r.(demand := r.demand - {c}, block := r.block - {c}, dack := r.dack - {c}, last := if rotating then c else r.last)
  }

  function Release(x: Xt, c: Ch): Xt {
    x.(req := ReleaseReq(x.req, c, Rotating(x)))
  }

  function BeginReq(r: Req, c: Ch, m: Service): Req {
    r.(dack := {c},
       demand := if m == Demand then r.demand + {c} else r.demand,
       block := if m == Block then r.block + {c} else r.block)
  }

  function Begin(x: Xt, c: Ch): Xt {
    x.(req := BeginReq(x.req, c, ServiceMode(Get(x, c).mode)))
  }

  /** The page bits stay, masked; the low sixteen bits step by one and wrap. */
  function StepAddress(ac: nat, mode: Byte, pageMask: nat): nat {
    And(ac / 0x1_0000, pageMask) * 0x1_0000 + (ac % 0x1_0000 + (if Down(mode) then -1 else 1)) % 0x1_0000
  }

  function StepChan(d: Chan, pageMask: nat): Chan {
    d.(ac := StepAddress(d.ac, d.mode, pageMask))
  }

  function AdvanceAddress(x: Xt, c: Ch): Xt {
    Put(x, c, StepChan(Get(x, c), x.pageMask))
  }

  predicate Terminal(x: Xt, c: Ch) {
    Get(x, c).cc - 1 < 0 || c in x.req.eop
  }

  function FinishChan(d: Chan, terminal: bool): Chan {
    if terminal && AutoInit(d.mode) then d.(cc := d.cb, ac := d.ab) else d.(cc := d.cc - 1)
  }

  function FinishReq(x: Xt, c: Ch): Req {
    if Terminal(x, c) then ReleaseReq(x.req.(sw := x.req.sw - {c}, eop := x.req.eop - {c}), c, Rotating(x))
    else if ServiceMode(Get(x, c).mode) == Single then
      x.req.(dack := x.req.dack - {c}, last := if Rotating(x) then c else x.req.last)
    else x.req
  }

  /** Count down; at terminal count or external end of process flag it, mask or reload, and release the bus. */
  function Finish(x: Xt, c: Ch): Xt {
    var t, d := Terminal(x, c), Get(x, c);
    Put(x, c, FinishChan(d, t)).(
      req := FinishReq(x, c),
      stat := if t then x.stat.(tc := x.stat.tc + {c}, pend := x.stat.pend - {c}) else x.stat,
      ctl := if t && !AutoInit(d.mode) then x.ctl.(mask := x.ctl.mask + {c}) else x.ctl)
  }

  /** The bus part of a transfer: take the bus, step the address, note the service. */
  function Serve(x: Xt, c: Ch): Xt {
    var y := AdvanceAddress(Begin(x, c), c);
    y.(stat := y.stat.(served := y.stat.served + {c}))
  }

  function Settle(x: Xt, c: Ch): Xt {
    x.(stat := x.stat.(pend := x.stat.pend - {c}))
  }

  /** What a transfer request came to: nothing, or an access at an address, with or without terminal count. */
  datatype Outcome = NoData | Moved(addr: nat, verify: bool, tc: bool)

  /** Result codes of a transfer, above its data bits. */
  const DMA_NODATA := -1
  const DMA_OVER := 0x1_0000
  const DMA_VERIFY := 0x2_0000

  // ---- programming ----

  function MasterClear(x: Xt, queued: bool): Xt {
    x.(ctl := Ctl(0, {0, 1, 2, 3}, x.ctl.enabled, x.ctl.soft, false),
       req := Req(if queued then x.req.drq + {0} else x.req.drq, {}, {}, {}, {}, {}, 3),
       stat := Stat({}, {}, {}))
  }

  function SetByte(v: nat, high: bool, b: Byte): Word {
    if high then b * 0x100 + v % 0x100 else v / 0x100 % 0x100 * 0x100 + b
  }

  /** Address registers: the flip-flop chooses the byte; the page stays, masked. */
  function WriteAddress(x: Xt, c: Ch, v: Byte): Xt {
    var d := Get(x, c);
    var a := And(d.ab / 0x1_0000, x.pageMask) * 0x1_0000 + SetByte(d.ab, x.ctl.flipFlop, v);
    Put(x, c, d.(ab := a, ac := a)).(ctl := x.ctl.(flipFlop := !x.ctl.flipFlop))
  }

  function WriteCount(x: Xt, c: Ch, v: Byte): Xt {
    var d := Get(x, c);
    var n := SetByte(d.cb, x.ctl.flipFlop, v);
    Put(x, c, d.(cb := n, cc := n)).(ctl := x.ctl.(flipFlop := !x.ctl.flipFlop))
  }

  function MaskOf(v: Byte): set<Ch> {
    set c: Ch | Bit(v, c)
  }

  /** Every programming write except the request register. */
  function Program(x: Xt, reg: nat, v: Byte, queued: bool): Xt {
    var c: Ch := v % 4;
    if reg < 8 then (if reg % 2 == 0 then WriteAddress(x, reg / 2, v) else WriteCount(x, reg / 2, v))
    else if reg == 8 then
      x.(ctl := x.ctl.(command := v),
         req := if Bit(v, 2) then x.req.(demand := {}, block := {}, dack := {}) else x.req)
    else if reg == 10 then
      if Bit(v, 2) then Release(x.(ctl := x.ctl.(mask := x.ctl.mask + {c})), c)
      else x.(ctl := x.ctl.(mask := x.ctl.mask - {c}))
    else if reg == 11 then
      Put(x, c, Get(x, c).(mode := v)).(
        req := x.req.(demand := x.req.demand - {c}, block := x.req.block - {c}, eop := x.req.eop - {c},
                      dack := x.req.dack - {c}))
    else if reg == 12 then x.(ctl := x.ctl.(flipFlop := false))
    else if reg == 13 then MasterClear(x, queued)
    else if reg == 14 then x.(ctl := x.ctl.(mask := {}))
    else if reg == 15 then
      x.(ctl := x.ctl.(mask := MaskOf(v)),
         req := x.req.(demand := x.req.demand - MaskOf(v), block := x.req.block - MaskOf(v),
                       dack := x.req.dack - MaskOf(v)))
    else x
  }
}
