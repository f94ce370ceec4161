/**
 Bounded waiting under rotation: when every acknowledge is answered by rotate-on-non-specific-EOI before
 the next one, a request that stays up is reached after a bounded number of others.
 */
module PicFairness {
  import opened Bits
  import opened PicSpec
  import opened PicSteps
  import opened PicPriority
  import opened PicCascade
  import opened PicDelivery
  import opened PicNesting

  /** OCW2 A0h: retire the highest line in service and make it the lowest priority. */
  const ROTATE_ON_EOI: Byte := 0xa0

  /** What devices and mask writes may do around an acknowledge. */
  predicate Env(s: Step) {
    match s
    case Edge(_, _) => true
    case Level(_, _, _) => true
    case Imr(_, _) => true
    case Ocw3(_, v) => Unmasked(v)
    case Refresh => true
    case _ => false
  }

  predicate AllEnv(steps: seq<Step>) {
    forall i :: 0 <= i < |steps| ==> Env(steps[i])
  }

  /** Some activity, one acknowledge, some more activity, then the ends of interrupt. */
  datatype Round = Round(before: seq<Step>, between: seq<Step>)

  /** A mask write before the acknowledge has been refreshed by then. */
  predicate EnvRound(b: Board, r: Round) {
    AllEnv(r.before) && AllEnv(r.between) && !Stale(b, r.before)
  }

  /** Nothing in service and every chip offers what its registers call for. */
  ghost predicate Calm(p: Pics) {
    Inv(History(p, [], [])) && !Frozen(p) && Current(p)
  }

  /** A pair with nothing in service that offers what it should is calm. */
  lemma CleanIsCalm(p: Pics)
    requires Clean(p) && Current(p)
    ensures Calm(p)
  {
    StartCoherent(p);
  }

  /** A chip after its initialisation words, whatever has been requested since. */
  predicate Initialised(c: Chip, icw1: Byte, icw3: Byte) {
    && c.icw.icw1 == icw1 && c.icw.icw3 == icw3 && c.icw.icw4 == 1 && c.icw.state == 0
    && c.reg.isr == {} && !c.ctl.specialMask && !c.out.interrupt.frozen && c.out.ackBytes == 0 && |c.lines| == 8
  }

  /** The usual words: ICW1 11h with ICW3 04h and 02h on two chips, ICW1 13h on one, ICW4 01h. */
  predicate UsualWords(p: Pics) {
    && |p.board.vectors| == 8 && (forall j: Line :: -1 <= p.board.vectors[j] < 0x100)
    && |p.slave.lines| == 8
    && (if p.board.at then Initialised(p.master, 0x11, 4) && p.master.icw.isMaster && Initialised(p.slave, 0x11, 2)
        else Initialised(p.master, 0x13, 0) && p.slave.reg.isr == {} && !p.slave.ctl.specialMask)
  }

  /** The usual initialisation, whatever lines are asserted meanwhile, leads to such a pair at its first refresh. */
  lemma StandardInitialisation(p: Pics)
    requires UsualWords(p)
    ensures var q := UpdatePending(p); Clean(q) && Calm(q)
  {
    hide UpdatePending, Initialised;
    InitialisedReady(p);
    UpdateSettles(p);
    UpdateTwice(p);
    UpdateNests(p);
    UpdateFixed(p);
    FixedBoard(p, UpdatePending(p));
    AutomaticFixed(p, UpdatePending(p));
    CleanIsCalm(UpdatePending(p));
  }

  lemma InitialisedReady(p: Pics)
    requires UsualWords(p)
    ensures Configured(p) && !Frozen(p) && !Automatic(p) && p.master.out.ackBytes == 0
    ensures p.master.reg.isr == {} && p.slave.reg.isr == {} && !p.master.ctl.specialMask && !p.slave.ctl.specialMask
  {
    forall j: Line ensures Bit(4, j) <==> j == 2 {
      CascadeBits(j);
    }
    forall j: Line ensures !Bit(0, j) {
      ZeroHasNoBits(0, j);
    }
    BitStep(0x11, 1);
    BitStep(8, 0);
    BitStep(1, 1);
    BitStep(0, 0);
  }

  function AtAck(p: Pics, r: Round): (q: Pics)
    requires Wired(p)
    ensures Wired(q) && q.board == p.board
  {
    Run(p, r.before)
  }

  function AtEoi(p: Pics, r: Round): (q: Pics)
    requires Wired(p)
    ensures Wired(q) && q.board == p.board
  {
    Run(Do(AtAck(p, r), AckWhole), r.between)
  }

  /** The slave gets its end of interrupt too when it was the one served. */
  function AfterRound(p: Pics, r: Round): (q: Pics)
    requires Wired(p)
    ensures Wired(q) && q.board == p.board
  {
    var e := AtEoi(p, r);
    var f := if p.board.at && AtAck(p, r).master.out.interrupt.line == 2 then Do(e, Ocw2(Slave, ROTATE_ON_EOI)) else e;
    Do(f, Ocw2(Master, ROTATE_ON_EOI))
  }

  // ---- activity ----

  lemma OtherUnfrozen(p: Pics, s: Step)
    requires Configured(p) && Coherent(p) && !Frozen(p) && Plain(s) && !IsAck(s)
    ensures !Frozen(Do(p, s))
  {
    hide UpdatePending, Do, Bit, Wired, Cascaded;
    var r, updated := OtherStep(p, s);
    if updated {
      FixedBoard(p, r);
      UpdateSettles(r);
    }
  }

  lemma EnvPlain(p: Pics, s: Step)
    requires Env(s)
    ensures Nested(p, s) && Allowed(p, s) && Plain(s) && !IsAck(s) && !s.Ocw2?
  {
    hide Bit;
  }

  lemma {:induction false} EnvRun(h: History, steps: seq<Step>)
    requires Inv(h) && !Frozen(h.p) && AllEnv(steps)
    ensures var q := Run(h.p, steps);
            && Inv(h.(p := q)) && !Frozen(q) && Fixed(h.p, q)
            && (Current(h.p) && !Stale(h.p.board, steps) ==> Current(q))
            && SameService(h.p.master, q.master) && SameService(h.p.slave, q.slave)
  {
    hide Bit, Cascaded, Stacked, Outranks, Automatic, Env, Do, Settled, Midway, Current;
    if steps != [] {
      var t, s := h.(p := Run(h.p, steps[..|steps| - 1])), steps[|steps| - 1];
      EnvRun(h, steps[..|steps| - 1]);
      EnvPlain(t.p, s);
      OtherUnfrozen(t.p, s);
      if RefreshesAlone(s) || (Current(t.p) && !StaleStep(t.p.board, s)) {
        StepCurrent(t.p, s);
      }
      OtherNests(t.p, s);
      OtherStepNests(t, s);
    }
  }

  // ---- the rotating end of interrupt ----

  function StackOf(h: History, w: Which): seq<Line> {
    if w == Master then h.master else h.slave
  }

  function Retired(h: History, w: Which, q: Pics): History {
    if w == Master then History(q, [], h.slave) else History(q, h.master, [])
  }

  lemma RotateState(p: Pics, w: Which, j: Line) returns (r: Pics)
    requires Configured(p) && NonSpecific(Get(p, w)) == j
    ensures WriteOcw2(p, w, ROTATE_ON_EOI) == UpdatePending(r) && Fixed(p, r) && SameOuts(p, r)
    ensures Get(r, w).reg.isr == Get(p, w).reg.isr - {j} && Get(r, w).reg.priority == (j + 1) % 8
    ensures Get(r, Other(w)) == Get(p, Other(w)) && Get(r, w).ctl.specialMask == Get(p, w).ctl.specialMask
  {
    hide UpdatePending, Bit, Wired, Cascaded, NonSpecific;
    TopBits(ROTATE_ON_EOI);
    var c := OnBus(Get(p, w), ROTATE_ON_EOI);
    var q := Put(p, w, c.(ctl := c.ctl.(ocw2 := ROTATE_ON_EOI)));
    NonSpecificDepends(Get(p, w), Get(q, w));
    r := Put(q, w, Get(q, w).(reg := ActionReg(Get(q, w).reg, j, true, true)));
  }

  /** It retires the only line in service, drops that line to the lowest priority and refreshes the offers. */
  lemma RotateEoi(h: History, w: Which, j: Line)
    requires Inv(h) && !Frozen(h.p) && StackOf(h, w) == [j]
    ensures var q := Do(h.p, Ocw2(w, ROTATE_ON_EOI));
            && Inv(Retired(h, w, q)) && !Frozen(q) && Current(q) && Fixed(h.p, q)
            && Get(q, w).reg.priority == (j + 1) % 8
            && Get(q, Other(w)).reg.priority == Get(h.p, Other(w)).reg.priority
  {
    hide Bit, Cascaded, Stacked, Outranks, UpdatePending, WriteOcw2, Midway, NonSpecific;
    TopRetires(Get(h.p, w), StackOf(h, w));
    var r := RotateState(h.p, w, j);
    var q := UpdatePending(r);
    FixedBoard(h.p, r);
    UpdateSettles(r);
    UpdateTwice(r);
    UpdateNests(r);
    UpdateMasks(r);
    assert Do(h.p, Ocw2(w, ROTATE_ON_EOI)) == q;
    FixedBoard(h.p, q);
    AutomaticFixed(h.p, q);
    EmptyStack(Get(h.p, w), Get(q, w), j);
    SameStack(Get(h.p, Other(w)), Get(q, Other(w)), StackOf(h, Other(w)));
  }

  lemma EmptyStack(c: Chip, d: Chip, j: Line)
    requires Stacked(c, [j]) && d.reg.isr == c.reg.isr - {j}
    ensures Stacked(d, [])
  {
  }

  // ---- one round ----

  /** A round with a pending acknowledge ends calm again, with the served lines moved to lowest priority. */
  lemma RoundKeepsCalm(p: Pics, r: Round)
    requires Calm(p) && EnvRound(p.board, r) && AtAck(p, r).master.out.intPending
    ensures var a, q := AtAck(p, r), AfterRound(p, r);
            var j, k := a.master.out.interrupt.line, a.slave.out.interrupt.line;
            && Calm(a) && Calm(q)
            && a.master.reg.priority == p.master.reg.priority && a.slave.reg.priority == p.slave.reg.priority
            && q.master.reg.priority == (j + 1) % 8
            && q.slave.reg.priority == (if p.board.at && j == 2 then (k + 1) % 8 else p.slave.reg.priority)
  {
    hide Bit, Cascaded, Stacked, Outranks, UpdatePending, AckCycle, Settled, Midway, Automatic, Do, Run, Env, Current, Wired;
    EnvRun(History(p, [], []), r.before);
    var h := History(AtAck(p, r), [], []);
    var j, k := h.p.master.out.interrupt.line, h.p.slave.out.interrupt.line;
    Acked(h);
    var m := Follow(h, AckWhole);
    assert m.master == [j] && m.slave == if p.board.at && j == 2 then [k] else [];
    EnvRun(m, r.between);
    var e := m.(p := AtEoi(p, r));
    if p.board.at && j == 2 {
      RotateEoi(e, Slave, k);
      RotateEoi(History(Do(e.p, Ocw2(Slave, ROTATE_ON_EOI)), [j], []), Master, j);
    } else {
      RotateEoi(e, Master, j);
    }
  }

  lemma Acked(h: History)
    requires Inv(h) && !Frozen(h.p) && h.p.master.out.intPending
    ensures var m := Follow(h, AckWhole);
            && Inv(m) && !Frozen(m.p) && Current(m.p) && Fixed(h.p, m.p)
            && m.p.master.reg.priority == h.p.master.reg.priority
            && m.p.slave.reg.priority == h.p.slave.reg.priority
  {
    hide Bit, Cascaded, Stacked, Outranks, UpdatePending, AckCycle, Automatic, FirstState;
    AckStepNests(h, AckWhole);
    AckCurrent(h.p, AckWhole);
    FirstCycleState(h.p);
    SecondSettles(FirstCycle(h.p));
    FirstPriority(h.p);
    AutomaticFixed(h.p, FirstCycle(h.p));
    var r := SecondAck(FirstCycle(h.p));
    FixedBoard(h.p, r);
    UpdateNests(r);
  }

  lemma FirstPriority(p: Pics)
    requires Configured(p) && Settled(p) && !Frozen(p) && p.master.out.intPending
    ensures FirstCycle(p).master.reg.priority == p.master.reg.priority
    ensures FirstCycle(p).slave.reg.priority == p.slave.reg.priority
    ensures FirstCycle(p).board == p.board
  {
    hide Bit, Cascaded, FirstCycle, LevelTriggered, Wired;
    FirstCycleState(p);
  }

  // ---- progress ----

  /** With nothing in service a request means that something is offered, and what is offered ranks no lower. */
  lemma OfferedFirst(c: Chip, t: Line)
    requires Offers(c) && c.reg.isr == {} && Requested(c, t)
    ensures c.out.intPending && Rank(c, c.out.interrupt.line) <= Rank(c, t)
  {
    hide Rank, Requested, Best;
    FindsSome(c, t);
    BestWins(c, Best(c));
  }

  lemma FindsSome(c: Chip, t: Line)
    requires c.reg.isr == {} && Requested(c, t)
    ensures Best(c) != -1
  {
    hide Rank, Requested, FindFrom;
    FindFromScan(c, 0);
    assert forall m: Line :: !BlockedBy(c, t, m);
  }

  lemma EmptyService(p: Pics)
    requires Calm(p)
    ensures p.master.reg.isr == {} && p.slave.reg.isr == {} && Configured(p) && Settled(p)
    ensures Offers(p.master) && (p.board.at ==> Offers(p.slave))
  {
    hide Bit, Cascaded, Outranks, UpdatePending, Automatic, Wired, Rank, Best, Settled;
    CurrentOffers(p);
    assert forall j: Line :: j !in p.master.reg.isr;
    assert forall j: Line :: j !in p.slave.reg.isr;
  }

  /** Rotation past another line of no lower rank brings `t` strictly closer; rotation past `t` puts it last. */
  lemma Closer(c: Chip, d: Chip, j: Line, t: Line)
    requires Rank(c, j) <= Rank(c, t) && d.reg.priority == (j + 1) % 8
    ensures if j == t then Rank(d, t) == 7 else Rank(d, t) < Rank(c, t)
  {
    RankInverse(c, 0, j);
    RankInverse(c, 0, t);
    Wraps(j - c.reg.priority);
    Wraps(t - c.reg.priority);
    Wraps(t - (j + 1) % 8);
  }

  lemma Wraps(x: int)
    requires -8 < x < 8
    ensures x % 8 == if x < 0 then x + 8 else x
  {
  }

  // ---- the bounds ----

  /** In each round `t` is requested on the master when the processor acknowledges, and something else is served. */
  predicate Waits(p: Pics, rounds: seq<Round>, t: Line)
    requires Wired(p)
    decreases rounds
  {
    rounds == [] ||
    (var a := AtAck(p, rounds[0]);
     && EnvRound(p.board, rounds[0]) && Requested(a.master, t)
     && (a.master.out.intPending ==> a.master.out.interrupt.line != t)
     && Waits(AfterRound(p, rounds[0]), rounds[1..], t))
  }

  lemma AckCalm(p: Pics, r: Round)
    requires Calm(p) && EnvRound(p.board, r)
    ensures Calm(AtAck(p, r)) && AtAck(p, r).master.reg.priority == p.master.reg.priority
    ensures AtAck(p, r).slave.reg.priority == p.slave.reg.priority
  {
    hide Bit, Cascaded, Stacked, Outranks, UpdatePending, Automatic, Run, Settled, Midway, Current;
    EnvRun(History(p, [], []), r.before);
  }

  /** A line of the master is passed over at most as often as its distance from the top, hence at most 7 times. */
  lemma {:induction false} BoundedWaiting(p: Pics, rounds: seq<Round>, t: Line)
    requires Calm(p) && Waits(p, rounds, t)
    ensures |rounds| <= Rank(p.master, t) <= 7
    decreases rounds
  {
    hide Calm, Rank, Requested, EnvRound, AtAck, AfterRound, Wired;
    if rounds != [] {
      EmptyService(p);
      var a, q := AtAck(p, rounds[0]), AfterRound(p, rounds[0]);
      AckCalm(p, rounds[0]);
      EmptyService(a);
      OfferedFirst(a.master, t);
      RoundKeepsCalm(p, rounds[0]);
      RankDepends(p.master, a.master);
      Closer(a.master, q.master, a.master.out.interrupt.line, t);
      BoundedWaiting(q, rounds[1..], t);
    }
  }

  /** The same for a line of the slave, with the cascade input unmasked. */
  predicate WaitsOnSlave(p: Pics, rounds: seq<Round>, t: Line)
    requires Wired(p)
    decreases rounds
  {
    rounds == [] ||
    (var a := AtAck(p, rounds[0]);
     && EnvRound(p.board, rounds[0]) && Requested(a.slave, t) && 2 !in a.master.reg.imr
     && (a.master.out.intPending && a.master.out.interrupt.line == 2 ==> a.slave.out.interrupt.line != t)
     && WaitsOnSlave(AfterRound(p, rounds[0]), rounds[1..], t))
  }

  /** Whenever the slave is served another line overtakes only by rank; in between the master serves at most 7. */
  lemma {:induction false} BoundedWaitingOnSlave(p: Pics, rounds: seq<Round>, t: Line)
    requires p.board.at && Calm(p) && WaitsOnSlave(p, rounds, t)
    ensures |rounds| <= 8 * Rank(p.slave, t) + Rank(p.master, 2) <= 63
    decreases rounds
  {
    hide Calm, Rank, EnvRound, AtAck, AfterRound, Wired, Cascaded, Bit, Offers;
    if rounds != [] {
      EmptyService(p);
      var a, q := AtAck(p, rounds[0]), AfterRound(p, rounds[0]);
      AckCalm(p, rounds[0]);
      EmptyService(a);
      OfferedFirst(a.slave, t);
      assert 2 in a.master.reg.irr;
      OfferedFirst(a.master, 2);
      RoundKeepsCalm(p, rounds[0]);
      RankDepends(p.master, a.master);
      RankDepends(p.slave, a.slave);
      Closer(a.master, q.master, a.master.out.interrupt.line, 2);
      if a.master.out.interrupt.line == 2 {
        Closer(a.slave, q.slave, a.slave.out.interrupt.line, t);
      } else {
        RankDepends(p.slave, q.slave);
      }
      BoundedWaitingOnSlave(q, rounds[1..], t);
    }
  }
}
