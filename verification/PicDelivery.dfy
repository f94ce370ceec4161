/** What an acknowledge delivers: the winner of the priority contest, however the two bytes are spaced. */
module PicDelivery {
  import opened Bits
  import opened PicSpec
  import opened PicSteps
  import opened PicPriority
  import opened PicCascade

  /** Both chips offer what their registers call for. */
  predicate Current(p: Pics) {
    !Frozen(p) ==> UpdatePending(p) == p
  }

  lemma {:induction false} FindDepends(c: Chip, d: Chip, i: nat)
    requires c.reg == d.reg && c.icw == d.icw
    ensures FindFrom(c, i) == FindFrom(d, i)
    decreases 8 - i
  {
    if i < 8 {
      FindDepends(c, d, i + 1);
    }
  }

  lemma BestDepends(c: Chip, d: Chip)
    requires c.reg == d.reg && c.icw == d.icw
    ensures Best(c) == Best(d)
  {
    FindDepends(c, d, 0);
  }

  lemma UpdateTwice(p: Pics)
    requires Configured(p)
    ensures UpdatePending(UpdatePending(p)) == UpdatePending(p)
  {
    hide Best, Wired, Bit, Cascaded;
    if !Frozen(p) && p.board.at {
      var q := UpdatePending(p);
      BestDepends(p.slave, q.slave);
      assert q.slave == WithBest(q.slave);
      assert q.master.reg.irr == (if q.slave.out.intPending then q.master.reg.irr + {2} else q.master.reg.irr - {2});
      var line := CascadeLine(q.slave);
      var m := p.master.(reg := q.master.reg);
      BestDepends(m, q.master);
      assert q.master == WithBest(m);
    } else if !Frozen(p) {
      BestDepends(p.master, UpdatePending(p).master);
    }
  }

  lemma SameCurrent(p: Pics, r: Pics)
    requires Configured(p) && Fixed(p, r) && SameOuts(p, r) && SameRegs(p, r) && Current(p)
    ensures Current(r)
  {
    hide Best, Wired, Bit, Cascaded;
    BestDepends(p.slave, r.slave);
    BestDepends(p.master, r.master);
    if !Frozen(p) && p.board.at {
      assert r.slave == WithBest(r.slave) by {
        assert p.slave == WithBest(p.slave);
      }
      var line := CascadeLine(r.slave);
      var irr := if r.slave.out.intPending then r.master.reg.irr + line else r.master.reg.irr - line;
      assert irr == r.master.reg.irr;
      assert r.master.(reg := r.master.reg.(irr := irr)) == r.master;
      assert p.master.(reg := p.master.reg.(irr := irr)) == p.master;
    } else if !Frozen(p) {
      assert p.master == WithBest(p.master);
    }
  }

  /** A mask write that waits for the next refresh. */
  predicate StaleStep(b: Board, s: Step) {
    s.Imr? && !b.imrUpdates
  }

  predicate RefreshesAlone(s: Step) {
    s.Refresh? || IsAck(s)
  }

  /** The last mask write of a run still waits for its refresh. */
  predicate Stale(b: Board, steps: seq<Step>) {
    steps != [] &&
    (StaleStep(b, steps[|steps| - 1]) || (!RefreshesAlone(steps[|steps| - 1]) && Stale(b, steps[..|steps| - 1])))
  }

  lemma StepCurrent(p: Pics, s: Step)
    requires Configured(p) && Coherent(p) && Allowed(p, s)
    requires RefreshesAlone(s) || (Current(p) && !StaleStep(p.board, s))
    ensures Current(Do(p, s))
  {
    hide UpdatePending, AckCycle, Bit, Wired, Cascaded, BeginInterrupt, BeginAck, SlaveOn, FirstState;
    if IsAck(s) {
      AckCurrent(p, s);
    } else {
      var r, updated := OtherStep(p, s);
      FixedBoard(p, r);
      if updated {
        UpdateTwice(r);
      } else if s.Refresh? {
        RefreshUpdates(p);
      } else {
        SameCurrent(p, r);
      }
    }
  }

  lemma RefreshUpdates(p: Pics)
    requires Configured(p)
    ensures Current(Do(p, Refresh))
  {
    hide UpdatePending, Bit, Cascaded;
    UpdateTwice(p);
  }

  lemma AckCurrent(p: Pics, s: Step)
    requires Configured(p) && Coherent(p) && IsAck(s) && (s.AckWhole? ==> !Frozen(p))
    ensures Current(Do(p, s))
  {
    hide UpdatePending, AckCycle, Bit, Wired, Cascaded, BeginInterrupt, BeginAck, SlaveOn, FirstState;
    if Frozen(p) {
      MidwayBegin(p);
      SecondCurrent(p);
    } else {
      BeginsAck(p);
      SlaveOnIff(p);
      FirstAck(BeginInterrupt(p));
      FirstAck(BeginAck(p));
      if s.AckWhole? {
        FixedBoard(p, FirstCycle(p));
        SecondCurrent(FirstCycle(p));
      }
    }
  }

  lemma SecondCurrent(m: Pics)
    requires Configured(m) && Midway(m) && Frozen(m)
    ensures Current(AckCycle(m))
  {
    hide UpdatePending, AckCycle, Bit, Wired, Cascaded;
    var r := SecondAck(m);
    FixedBoard(m, r);
    UpdateTwice(r);
  }

  /** Every reachable unfrozen state offers what its registers call for, unless a mask write waits for its refresh. */
  lemma {:induction false} RunCurrent(p: Pics, steps: seq<Step>)
    requires Ready(p) && Current(p) && Legal(p, steps) && !Stale(p.board, steps)
    ensures Current(Run(p, steps)) && (!Frozen(Run(p, steps)) ==> Ready(Run(p, steps)))
  {
    hide Current, Settled, Midway, Allowed, Bit, Cascaded, Do;
    RunCoherent(p, steps);
    if steps != [] {
      var init, s := steps[..|steps| - 1], steps[|steps| - 1];
      RunCoherent(p, init);
      if !RefreshesAlone(s) {
        RunCurrent(p, init);
      }
      StepCurrent(Run(p, init), s);
    }
  }

  // ---- what is delivered ----

  predicate Offers(c: Chip) {
    c.out.intPending == (Best(c) != -1) && (c.out.intPending ==> c.out.interrupt.line == Best(c))
  }

  lemma CurrentOffers(p: Pics)
    requires Configured(p) && !Frozen(p) && Current(p)
    ensures Offers(p.master) && (p.board.at ==> Offers(p.slave))
  {
    hide Best, Wired, Bit, Cascaded;
    if !p.board.at {
      BestDepends(p.master, UpdatePending(p).master);
      return;
    }
    var s := WithBest(p.slave);
    BestDepends(s, p.slave);
    var line := CascadeLine(s);
    var irr := if s.out.intPending then p.master.reg.irr + line else p.master.reg.irr - line;
    var m := p.master.(reg := p.master.reg.(irr := irr));
    assert WithBest(m) == p.master;
    BestDepends(m, p.master);
  }

  /** The vector of a line on a chip without an override. */
  function VectorOf(c: Chip, j: Line): Byte {
    c.icw.icw2 - c.icw.icw2 % 8 + j
  }

  /** The byte a whole acknowledge returns. */
  function InterruptValue(p: Pics): Byte
    requires Wired(p)
  {
    AckValue(FirstCycle(p))
  }

  lemma FirstCycleState(p: Pics)
    requires Configured(p) && Settled(p) && !Frozen(p) && p.master.out.intPending
    ensures Configured(FirstCycle(p)) && Midway(FirstCycle(p)) && Frozen(FirstCycle(p))
    ensures ByteCycle(p) == FirstCycle(p)
    ensures var b := if p.board.at && p.master.out.interrupt.line == 2 then p.(master := MarkSlave(p.master)) else p;
            FirstCycle(p) == FirstState(b)
  {
    hide AckCycle, Bit, Wired, Cascaded, FirstState, SlaveOn;
    BeginsAck(p);
    SlaveOnIff(p);
    FirstAck(BeginInterrupt(p));
    FixedBoard(p, FirstCycle(p));
  }

  /**
   A whole acknowledge is taken exactly when some line wins on the master, and returns the vector of that
   line, or of the winner on the slave when the cascade line wins.
   */
  lemma Delivery(p: Pics)
    requires Ready(p) && Current(p)
    ensures p.master.out.intPending <==> exists j: Line :: Wins(p.master, j)
    ensures forall j: Line :: Wins(p.master, j) && (p.board.at ==> j != 2) ==>
              InterruptValue(p) == (if p.board.vectors[j] >= 0 then p.board.vectors[j] else VectorOf(p.master, j))
    ensures p.board.at && Wins(p.master, 2) ==> exists k: Line :: Wins(p.slave, k) && InterruptValue(p) == VectorOf(p.slave, k)
  {
    hide Best, Wins, Bit, Cascaded, AcknowledgeReg, AckCycle, FirstCycle, AckRead, UpdatePending;
    CurrentOffers(p);
    forall j: Line ensures Best(p.master) == j <==> Wins(p.master, j) {
      BestWins(p.master, j);
    }
    BestWins(p.master, 0);
    if p.master.out.intPending {
      FirstCycleState(p);
      var r := SecondAck(FirstCycle(p));
      if p.board.at && p.master.out.interrupt.line == 2 {
        BestWins(p.slave, Best(p.slave));
      }
    }
  }

  /** Nothing but an acknowledge moves the offered lines while frozen. */
  lemma {:induction false} FrozenRun(p: Pics, steps: seq<Step>)
    requires Configured(p) && Midway(p) && Frozen(p)
    requires forall i :: 0 <= i < |steps| ==> Plain(steps[i]) && !IsAck(steps[i])
    ensures Configured(Run(p, steps)) && SameOuts(p, Run(p, steps))
  {
    hide Wired, Bit, Cascaded, Plain;
    if steps != [] {
      FrozenRun(p, steps[..|steps| - 1]);
      OtherStepCoherent(Run(p, steps[..|steps| - 1]), steps[|steps| - 1]);
      FixedBoard(p, Run(p, steps));
    }
  }

  /**
   Whatever happens between the two bytes of an acknowledge - requests, masks, end-of-interrupt commands,
   rotations - the vector is the one the uninterrupted acknowledge would have returned.
   */
  lemma FrozenVector(p: Pics, steps: seq<Step>)
    requires Ready(p) && p.master.out.intPending
    requires forall i :: 0 <= i < |steps| ==> Plain(steps[i]) && !IsAck(steps[i])
    ensures var q := Run(Do(p, AckByte), steps);
            BeginAck(q) == q && !AckFatal(q) && AckValue(q) == InterruptValue(p)
  {
    hide Bit, Cascaded, AckCycle, AckRead, UpdatePending, Plain, FirstState, Run;
    FirstCycleState(p);
    var m := Do(p, AckByte);
    FrozenRun(m, steps);
    var q := Run(m, steps);
    MidwayBegin(q);
    var r := SecondAck(m);
    var t := SecondAck(q);
  }
}
