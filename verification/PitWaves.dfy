/**
 Modes 0, 2 and 3 from the control word on, through everything that can happen until the next one: clocks, GATE edges
 and count bytes at any moment, half-written counts that a load takes included.
 */
module PitWaves {
  import opened Bits
  import opened PitExact
  import opened PitCounting
  import opened PitPeriodic
  import opened PitInput
  import L = PitLiveness

  /** The control word has been written and no count byte yet. */
  predicate Fresh(c: Channel) {
    && c.core.state == WaitCount && c.flags.initialLoad && !c.flags.incompleteReload && c.bus.writePhase == 0
    && !c.core.toggleOnReload && 1 <= c.cfg.rwMode <= 3
    && (c.core.output <==> c.cfg.mode != 0)
  }

  lemma ControlIsFresh(c: Channel, control: Byte)
    requires (control / 0x10) % 4 != 0
    ensures Fresh(ProgramMode(c, control))
  {
  }

  function FirstInput(c: Channel): Input {
    Input(c.flags.countRegister, false, false)
  }

  // ---- mode 0 ----

  /**
   Terminal count as the datasheet tells it: `age` gated clocks since `length` was loaded, unless the first byte of a new
   count has stopped the counter (`live` is false); `pending` while the next clock loads.
   */
  datatype Countdown = Countdown(length: nat, age: nat, live: bool, pending: bool, gate: bool, input: Input)

  function CountdownStep(d: Countdown, a: Setup, e: Event): Countdown {
    match e
    case Clock =>
      if d.pending then d.(length := Number(a.bcd, d.input.register), age := 0, live := true, pending := false)
      else if d.live && d.gate then d.(age := d.age + 1)
      else d
    case Gate(high) => d.(gate := high)
    case Write(value) =>
      if Completes(d.input, a) then d.(input := CountIn(d.input, a, value), pending := true)
      else d.(input := FirstByteIn(d.input, value), live := false, pending := false)
  }

  function CountdownRun(d: Countdown, a: Setup, es: seq<Event>): Countdown {
    if es == [] then d else CountdownStep(CountdownRun(d, a, es[..|es| - 1]), a, es[|es| - 1])
  }

  predicate Reached(d: Countdown) {
    d.live && d.age >= d.length
  }

  ghost predicate CountsDown(c: Channel, d: Countdown) {
    && c.cfg.mode == 0 && 1 <= c.cfg.rwMode <= 3 && Receiving(c, d.input) && !d.input.torn && c.gate == d.gate
    && c.core.output == Reached(d)
    && c.core.state == (if d.pending then LoadNext else if d.live then Counting else WaitCount)
    && (d.input.half ==> !d.live && !d.pending)
    && (d.live && !d.pending && d.age < d.length ==> Number(c.cfg.bcd, c.core.ce) == d.length - d.age)
  }

  lemma CountdownClock(c: Channel, d: Countdown)
    requires CountsDown(c, d)
    ensures CountsDown(Tick(c), CountdownStep(d, SetupOf(c), Clock)) && Tick(c).cfg == c.cfg
  {
    hide Number, DecrementValue, Receiving;
    TickReceives(c, d.input);
    ReloadFacts(c.cfg.bcd, c.flags.countRegister);
    Predecessor(c.cfg.bcd, c.core.ce);
    RegisterIs(c, d.input);
  }

  lemma RegisterIs(c: Channel, i: Input)
    requires Receiving(c, i)
    ensures c.flags.countRegister == i.register && c.flags.incompleteReload == i.torn
  {
  }

  lemma CountdownOther(c: Channel, d: Countdown, e: Event)
    requires CountsDown(c, d) && !e.Clock?
    ensures CountsDown(Apply(c, e), CountdownStep(d, SetupOf(c), e)) && Apply(c, e).cfg == c.cfg
  {
    hide Number;
  }

  lemma {:induction false} CountdownFollows(c: Channel, d: Countdown, es: seq<Event>)
    requires CountsDown(c, d)
    ensures CountsDown(Run(c, es), CountdownRun(d, SetupOf(c), es)) && Run(c, es).cfg == c.cfg
  {
    hide CountsDown, CountdownStep, Tick, SetGate, DataWrite;
    if es != [] {
      var init, e := es[..|es| - 1], es[|es| - 1];
      CountdownFollows(c, d, init);
      if e.Clock? {
        CountdownClock(Run(c, init), CountdownRun(d, SetupOf(c), init));
      } else {
        CountdownOther(Run(c, init), CountdownRun(d, SetupOf(c), init), e);
      }
    }
  }

  /** Mode 0: OUT is high exactly when the last count loaded has run out and no byte of another has come since. */
  lemma TerminalCounts(c: Channel, es: seq<Event>)
    requires Fresh(c) && c.cfg.mode == 0
    ensures Run(c, es).core.output <==>
            Reached(CountdownRun(Countdown(0, 0, false, false, c.gate, FirstInput(c)), SetupOf(c), es))
  {
    hide Run, CountdownRun;
    CountdownFollows(c, Countdown(0, 0, false, false, c.gate, FirstInput(c)), es);
  }

  // ---- mode 2 ----

  /**
   The rate generator as the datasheet tells it: `left` clocks to the next load, the last of them with OUT low, and
   none while it is stopped; `pending` while the next clock loads out of turn, `waiting` before the first count.
   */
  datatype Rate = Rate(left: nat, pending: bool, waiting: bool, gate: bool, input: Input)

  /** A one, which only a half-written count can be, is passed over until the counter has wrapped. */
  function Period(bcd: bool, register: Word): nat {
    if Number(bcd, register) == 1 then Modulus(bcd) + 1 else Number(bcd, register)
  }

  function RateLoad(r: Rate, a: Setup): Rate {
    r.(left := if r.gate then Period(a.bcd, r.input.register) else 0, pending := false, input := Taken(r.input))
  }

  function RateStep(r: Rate, a: Setup, e: Event): Rate {
    match e
    case Clock =>
      if r.pending || r.left == 1 then RateLoad(r, a)
      else if r.left > 1 then r.(left := r.left - 1)
      else r
    case Gate(high) =>
      if high == r.gate then r
      else if high then r.(gate := true, pending := !r.waiting)
      else r.(gate := false, pending := false, left := 0)
    case Write(value) =>
      if Completes(r.input, a) then
        r.(input := CountIn(r.input, a, value), pending := r.pending || r.waiting || r.input.torn, waiting := false)
      else r.(input := FirstByteIn(r.input, value))
  }

  function RateRun(r: Rate, a: Setup, es: seq<Event>): Rate {
    if es == [] then r else RateStep(RateRun(r, a, es[..|es| - 1]), a, es[|es| - 1])
  }

  ghost predicate Rates(c: Channel, r: Rate) {
    && c.cfg.mode == 2 && 1 <= c.cfg.rwMode <= 3 && Receiving(c, r.input) && c.gate == r.gate
    && c.flags.initialLoad == r.waiting && c.core.output == (r.left != 1)
    && (r.waiting ==> !r.pending && r.left == 0 && !r.input.torn) && (!r.gate ==> r.left == 0)
    && (if r.waiting then c.core.state == WaitCount
        else if r.pending then c.core.state == LoadNext
        else if !r.gate then c.core.state == WaitGate
        else r.left >= 1 && RateCounts(c, r.left))
  }

  ghost predicate RateCounts(c: Channel, left: nat) {
    && c.core.state == (if left == 1 then ReloadNext else Counting)
    && (left >= 2 ==>
          || Number(c.cfg.bcd, c.core.ce) == left
          || (Number(c.cfg.bcd, c.core.ce) == 1 && left == Modulus(c.cfg.bcd) + 1))
  }

  lemma RateClock(c: Channel, r: Rate)
    requires Rates(c, r)
    ensures Rates(Tick(c), RateStep(r, SetupOf(c), Clock)) && Tick(c).cfg == c.cfg
  {
    hide Number, Receiving, DecrementValue;
    TickReceives(c, r.input);
    RegisterIs(c, r.input);
    ReloadFacts(c.cfg.bcd, c.flags.countRegister);
    Predecessor(c.cfg.bcd, c.core.ce);
    NumberFacts(c.cfg.bcd, DecrementValue(c.cfg.bcd, c.core.ce));
  }

  lemma RateGate(c: Channel, r: Rate, high: bool)
    requires Rates(c, r)
    ensures Rates(SetGate(c, high), RateStep(r, SetupOf(c), Gate(high))) && SetGate(c, high).cfg == c.cfg
  {
    hide Number, Receiving;
    GateReceives(c, r.input, high);
  }

  lemma RateWrite(c: Channel, r: Rate, value: Byte)
    requires Rates(c, r)
    ensures Rates(DataWrite(c, value), RateStep(r, SetupOf(c), Write(value))) && DataWrite(c, value).cfg == c.cfg
  {
    hide Number, LegalRegister;
  }

  lemma RateOther(c: Channel, r: Rate, e: Event)
    requires Rates(c, r) && !e.Clock?
    ensures Rates(Apply(c, e), RateStep(r, SetupOf(c), e)) && Apply(c, e).cfg == c.cfg
  {
    hide Rates, RateStep;
    match e
    case Gate(high) => RateGate(c, r, high);
    case Write(value) => RateWrite(c, r, value);
  }

  lemma {:induction false} RateFollows(c: Channel, r: Rate, es: seq<Event>)
    requires Rates(c, r)
    ensures Rates(Run(c, es), RateRun(r, SetupOf(c), es)) && Run(c, es).cfg == c.cfg
  {
    hide Rates, RateStep, Tick, SetGate, DataWrite;
    if es != [] {
      var init, e := es[..|es| - 1], es[|es| - 1];
      RateFollows(c, r, init);
      if e.Clock? {
        RateClock(Run(c, init), RateRun(r, SetupOf(c), init));
      } else {
        RateOther(Run(c, init), RateRun(r, SetupOf(c), init), e);
      }
    }
  }

  /** Mode 2: OUT is low exactly on the last clock before a load. */
  lemma Rated(c: Channel, es: seq<Event>)
    requires Fresh(c) && c.cfg.mode == 2
    ensures !Run(c, es).core.output <==> RateRun(Rate(0, false, true, c.gate, FirstInput(c)), SetupOf(c), es).left == 1
  {
    hide Run, RateRun;
    RateFollows(c, Rate(0, false, true, c.gate, FirstInput(c)), es);
  }

  // ---- mode 3 ----

  /**
   The square wave on numbers: `x` is what the counter holds, `high` the level of OUT and `owes` an 8254's toggle put off
   by a clock; `pending` while the next clock loads out of turn, `waiting` before the first count.
   */
  datatype Square = Square(x: nat, high: bool, owes: bool, pending: bool, waiting: bool, gate: bool, input: Input)

  /** An 8254 drops the low bit of an odd count. */
  function Loaded(a: Setup, register: Word): nat {
    var n := Number(a.bcd, register);
    if a.chip == Pit8254 && n % 2 == 1 then (if n == 1 then Modulus(a.bcd) else n - 1) else n
  }

  /** By twos, but for the one short step an 8253 makes from an odd number under an odd count. */
  function Stride(q: Square, a: Setup): nat {
    if a.chip == Pit8253 && q.input.register % 2 == 1 && q.x % 2 == 1 then (if q.high then 1 else 3) else 2
  }

  function SquareLoad(q: Square, a: Setup): Square {
    q.(x := Loaded(a, q.input.register), high := !(q.owes && q.high), owes := false, pending := false, input := Taken(q.input))
  }

  function SquareCount(q: Square, a: Setup): Square {
    if q.x != Stride(q, a) then q.(x := Back(a.bcd, q.x, Stride(q, a)))
    else if a.chip == Pit8254 && q.input.register % 2 == 1 && q.high then q.(owes := true)
    else q.(high := !q.high, x := Loaded(a, q.input.register))
  }

  function SquareStep(q: Square, a: Setup, e: Event): Square {
    match e
    case Clock =>
      if q.waiting then q
      else if q.pending || (q.gate && q.owes) then SquareLoad(q, a)
      else if q.gate then SquareCount(q, a)
      else q
    case Gate(high) =>
      if high == q.gate then q
      else if high then q.(gate := true, pending := !q.waiting)
      else q.(gate := false, pending := false, high := true)
    case Write(value) =>
      if Completes(q.input, a) then
        q.(input := CountIn(q.input, a, value), pending := q.pending || q.waiting || q.input.torn, waiting := false)
      else q.(input := FirstByteIn(q.input, value))
  }

  function SquareRun(q: Square, a: Setup, es: seq<Event>): Square {
    if es == [] then q else SquareStep(SquareRun(q, a, es[..|es| - 1]), a, es[|es| - 1])
  }

  ghost predicate Squares(c: Channel, q: Square) {
    && c.cfg.mode == 3 && 1 <= c.cfg.rwMode <= 3 && Receiving(c, q.input) && c.gate == q.gate
    && c.flags.initialLoad == q.waiting && c.core.output == q.high && c.core.toggleOnReload == q.owes
    && (q.waiting ==> !q.pending && !q.input.torn)
    && c.core.state == (if q.waiting then WaitCount
                        else if q.pending then LoadNext
                        else if !q.gate then WaitGate
                        else if q.owes then ReloadNext
                        else Counting)
    && (c.core.state == Counting ==> Number(c.cfg.bcd, c.core.ce) == q.x)
  }

  lemma LoadedFacts(c: Channel, i: Input)
    requires Receiving(c, i) && c.cfg.mode == 3
    ensures Number(c.cfg.bcd, LoadValue(c.cfg, c.flags.countRegister)) == Loaded(SetupOf(c), i.register)
    ensures Number(c.cfg.bcd, ReloadValue(c.flags.countRegister)) == Number(c.cfg.bcd, i.register)
    ensures Number(c.cfg.bcd, i.register) % 2 == i.register % 2
  {
    hide Number;
    ReloadFacts(c.cfg.bcd, c.flags.countRegister);
    if c.flags.countRegister % 2 == 1 {
      DropLowBitFacts(c.cfg.bcd, c.flags.countRegister);
    }
  }

  lemma SquareLoadClock(c: Channel, q: Square)
    requires Squares(c, q) && (c.core.state == LoadNext || c.core.state == ReloadNext)
    ensures Squares(Tick(c), SquareStep(q, SetupOf(c), Clock)) && Tick(c).cfg == c.cfg
  {
    hide Number, Receiving, LoadValue, Loaded;
    TickReceives(c, q.input);
    RegisterIs(c, q.input);
    LoadedFacts(c, q.input);
  }

  lemma SquareCountClock(c: Channel, q: Square)
    requires Squares(c, q) && c.core.state == Counting
    ensures Squares(Tick(c), SquareStep(q, SetupOf(c), Clock)) && Tick(c).cfg == c.cfg
  {
    hide Number, Receiving, DecrementBy;
    TickReceives(c, q.input);
    RegisterIs(c, q.input);
    LoadedFacts(c, q.input);
    NumberFacts(c.cfg.bcd, c.core.ce);
    Predecessors(c.cfg.bcd, c.core.ce, Stride(q, SetupOf(c)));
  }

  lemma SquareIdleClock(c: Channel, q: Square)
    requires Squares(c, q) && (c.core.state == WaitCount || c.core.state == WaitGate)
    ensures Squares(Tick(c), SquareStep(q, SetupOf(c), Clock)) && Tick(c).cfg == c.cfg
  {
    hide Number;
  }

  lemma SquareGate(c: Channel, q: Square, high: bool)
    requires Squares(c, q)
    ensures Squares(SetGate(c, high), SquareStep(q, SetupOf(c), Gate(high))) && SetGate(c, high).cfg == c.cfg
  {
    hide Number, Receiving;
    GateReceives(c, q.input, high);
  }

  lemma SquareWrite(c: Channel, q: Square, value: Byte)
    requires Squares(c, q)
    ensures Squares(DataWrite(c, value), SquareStep(q, SetupOf(c), Write(value))) && DataWrite(c, value).cfg == c.cfg
  {
    hide Number, LegalRegister;
  }

  lemma SquareOther(c: Channel, q: Square, e: Event)
    requires Squares(c, q) && !e.Clock?
    ensures Squares(Apply(c, e), SquareStep(q, SetupOf(c), e)) && Apply(c, e).cfg == c.cfg
  {
    hide Squares, SquareStep;
    match e
    case Gate(high) => SquareGate(c, q, high);
    case Write(value) => SquareWrite(c, q, value);
  }

  lemma {:induction false} SquareFollows(c: Channel, q: Square, es: seq<Event>)
    requires Squares(c, q)
    ensures Squares(Run(c, es), SquareRun(q, SetupOf(c), es)) && Run(c, es).cfg == c.cfg
  {
    hide SquareStep, Tick, SetGate, DataWrite, Number, Receiving;
    if es != [] {
      var init, e := es[..|es| - 1], es[|es| - 1];
      SquareFollows(c, q, init);
      var d, r := Run(c, init), SquareRun(q, SetupOf(c), init);
      if !e.Clock? {
        SquareOther(d, r, e);
      } else if d.core.state == Counting {
        SquareCountClock(d, r);
      } else if d.core.state == LoadNext || d.core.state == ReloadNext {
        SquareLoadClock(d, r);
      } else {
        SquareIdleClock(d, r);
      }
    }
  }

  /** Mode 3: OUT is the level of the square wave on numbers, binary or BCD, on either chip. */
  lemma Squared(c: Channel, es: seq<Event>)
    requires Fresh(c) && c.cfg.mode == 3
    ensures Run(c, es).core.output <==>
            SquareRun(Square(0, true, false, false, true, c.gate, FirstInput(c)), SetupOf(c), es).high
  {
    hide Run, SquareRun;
    FreshSquare(c);
    SquareFollows(c, Square(0, true, false, false, true, c.gate, FirstInput(c)), es);
  }

  /** An 8254 counts on even numbers only. */
  lemma {:induction false} SquareEven(q: Square, a: Setup, es: seq<Event>)
    requires a.chip == Pit8254 && q.x % 2 == 0
    ensures SquareRun(q, a, es).x % 2 == 0
  {
    hide Number;
    if es != [] {
      SquareEven(q, a, es[..|es| - 1]);
    }
  }

  lemma FreshSquare(c: Channel)
    requires Fresh(c) && c.cfg.mode == 3
    ensures Squares(c, Square(0, true, false, false, true, c.gate, FirstInput(c)))
  {
  }

  lemma Underway(d: Channel, q: Square)
    requires Squares(d, q) && L.Halfway(d)
    ensures !d.core.toggleOnReload
    ensures d.cfg.chip == Pit8254 && q.x % 2 == 0 ==> !L.Skips(d)
  {
    hide Number;
    NumberFacts(d.cfg.bcd, d.core.ce);
  }

  /**
   A new count in a running wave. From the control word through any events: if a half-cycle is under way (and, on an
   8253, has not been stalled), it ends after what it had left, and from then on OUT is the square wave of the count then
   in the register, entered at its other half.
   */
  lemma NewCountTakesOver(c: Channel, es: seq<Event>, k: nat)
    requires Fresh(c) && c.cfg.mode == 3
    requires var d := Run(c, es); L.Halfway(d) && N(d) >= 2 && (c.cfg.chip == Pit8254 || !L.Skips(d))
    ensures var d := Run(c, es);
            var e := Ticks(d, L.EndTime(d));
            && (forall t: nat :: t < L.EndTime(d) ==> Ticks(d, t).core.output == d.core.output)
            && N(e) == N(d)
            && (Ticks(e, k).core.output <==> (L.EndPhase(d, e) + k) % N(d) < High(N(d)))
  {
    hide Run, SquareRun, Squares, L.EndTime, L.EndPhase, Number, Mode3Phase, L.Halfway, L.Skips, Tick, Ticks, High, N;
    var q := Square(0, true, false, false, true, c.gate, FirstInput(c));
    var d := Run(c, es);
    FreshSquare(c);
    SquareFollows(c, q, es);
    if c.cfg.chip == Pit8254 {
      SquareEven(q, SetupOf(c), es);
    }
    Underway(d, SquareRun(q, SetupOf(c), es));
    L.WaveTakesOver(d, k);
  }
}
