/**
 The event-driven counter of src/pit_fast.c. Its timer is an absolute deadline; the calls it makes to
 the OUT handler are kept as a log with the time of each.
 */
module PitFast {
  import opened Bits

  datatype Call = Call(at: nat, newOut: bool, oldOut: bool)

  datatype Setup = Setup(m: nat, l: Word, gate: bool, usingTimer: bool, pitConst: nat)

  datatype Progress = Progress(count: int, newcount: bool, thit: bool, initial: bool, disabled: bool,
                               enabled: bool, running: bool)

  datatype Pin = Pin(out: bool, calls: seq<Call>)

  datatype Timer = Timer(on: bool, deadline: nat)

  /** One call of the load handler: the mode and the count. */
  datatype Notice = Notice(mode: nat, count: nat)

  datatype Fast = Fast(setup: Setup, progress: Progress, pin: Pin, timer: Timer)

  function Length(l: Word): nat {
    if l != 0 then l else 0x1_0000
  }

  function SetOut(p: Pin, at: nat, out: bool): Pin {
    Pin(out, p.calls + [Call(at, out, p.out)])
  }

  /** `timer_set_delay_u64` and `timer_advance_u64`, for a counter that uses its timer. */
  function SetDelay(s: Setup, t: Timer, now: nat, clocks: nat): Timer {
    if s.usingTimer then Timer(true, now + clocks * s.pitConst) else t
  }

  function Advance(s: Setup, t: Timer, clocks: nat): Timer {
    if s.usingTimer then Timer(true, t.deadline + clocks * s.pitConst) else t
  }

  function ReadTimer(s: Setup, p: Progress, t: Timer, now: nat): int {
    if s.usingTimer && !(s.m == 3 && !s.gate) && t.on then
      if s.pitConst == 0 then 0x1_0000
      else
        var remaining := if t.deadline < now then 0 else t.deadline - now;
        var read := remaining / s.pitConst + (if s.m == 2 then 1 else 0);
        var clamped := if read > 0x1_0000 then 0x1_0000 else read;
        if s.m == 3 then 2 * clamped else clamped
    else if s.m == 2 then p.count + 1
    else p.count
  }

  /** The common tail of load, gate and overflow: a counter that may not run gives its timer up. */
  function Settle(f: Fast, now: nat): Fast {
    var s := f.setup;
    var p := f.progress.(running := f.progress.enabled && s.usingTimer && !f.progress.disabled);
    if s.usingTimer && !p.running && f.timer.on then
      Fast(s, p.(count := ReadTimer(s, p, f.timer, now) - if s.m == 2 then 1 else 0), f.pin, f.timer.(on := false))
    else f.(progress := p)
  }

  function LoadBody(f: Fast, now: nat): Fast {
    var s, l := f.setup, Length(f.setup.l);
    var p := f.progress.(newcount := false, disabled := false);
    match s.m
    case 0 =>
      Fast(s, p.(count := l, thit := false, enabled := s.gate), SetOut(f.pin, now, false), SetDelay(s, f.timer, now, l))
    case 2 =>
      if p.initial then
        Fast(s, p.(count := l - 1, thit := false, enabled := s.gate), SetOut(f.pin, now, true),
             SetDelay(s, f.timer, now, l - 1))
      else f.(progress := p.(enabled := s.gate))
    case 3 =>
      if p.initial then
        Fast(s, p.(count := l, newcount := !s.usingTimer && l % 2 == 1, thit := false, enabled := s.gate),
             SetOut(f.pin, now, true), SetDelay(s, f.timer, now, (l + 1) / 2))
      else f.(progress := p.(enabled := s.gate))
    case 4 =>
      if !p.thit && !p.initial then f.(progress := p.(newcount := true, enabled := s.gate))
      else
        Fast(s, p.(count := l, thit := false, enabled := s.gate), SetOut(f.pin, now, false),
             SetDelay(s, f.timer, now, l))
    case _ => f.(progress := if s.m == 1 || s.m == 5 then p.(enabled := true) else p)
  }

  function Load(f: Fast, now: nat): Fast {
    var g := LoadBody(f, now);
    Settle(g.(progress := g.progress.(initial := false)), now)
  }

  function Pulse(p: Pin, at: nat): Pin {
    SetOut(SetOut(p, at, false), at, true)
  }

  function OverBody(f: Fast, now: nat): Fast {
    var s, p, l := f.setup, f.progress, Length(f.setup.l);
    var idle := f.(progress := p.(count := p.count + 0xffff), timer := Advance(s, f.timer, 0xffff));
    if p.disabled then idle
    else match s.m
      case 0 => OverOnce(idle, if p.thit then f.pin else SetOut(f.pin, now, true))
      case 1 => OverOnce(idle, if p.thit then f.pin else SetOut(f.pin, now, true))
      case 2 =>
        Fast(s, p.(count := p.count + l), Pulse(f.pin, now), Advance(s, f.timer, l))
      case 3 =>
        if f.pin.out then
          Fast(s,
               if s.usingTimer then p.(count := p.count + l / 2) else p.(count := p.count + l, newcount := l % 2 == 1),
               SetOut(f.pin, now, false), Advance(s, f.timer, l / 2))
        else
          Fast(s,
               if s.usingTimer then p.(count := p.count + (l + 1) / 2 + l / 2)
               else p.(count := p.count + (l + 1) / 2 + l, newcount := l % 2 == 1),
               SetOut(f.pin, now, true), Advance(s, f.timer, (l + 1) / 2))
      case 4 =>
        var pin := if p.thit then f.pin else Pulse(f.pin, now);
        if p.newcount then
          Fast(s, p.(newcount := false, count := p.count + l), pin, Advance(s, f.timer, l))
        else OverOnce(idle, pin)
      case 5 => OverOnce(idle, if p.thit then f.pin else Pulse(f.pin, now))
      case _ => f
  }

  function OverOnce(idle: Fast, pin: Pin): Fast {
    idle.(progress := idle.progress.(thit := true), pin := pin)
  }

  /** The timer callback. A disabled counter returns before the common tail. */
  function Over(f: Fast, now: nat): Fast {
    if f.progress.disabled then OverBody(f, now) else Settle(OverBody(f, now), now)
  }

  /** The counter's object; `now` is the time stamp counter at the call. */
  class Counter {
    var setup: Setup
    var progress: Progress
    var out: bool
    ghost var calls: seq<Call>
    ghost var loads: seq<Notice>
    var timer: Timer

    constructor (setup: Setup)
      ensures View() == Fast(setup, Progress(0, false, true, true, false, false, false), Pin(false, []), Timer(false, 0))
      ensures loads == []
    {
      this.setup := setup;
      progress := Progress(0, false, true, true, false, false, false);
      out, calls, loads, timer := false, [], [], Timer(false, 0);
    }

    ghost function View(): Fast
      reads this
    {
      Fast(setup, progress, Pin(out, calls), timer)
    }

    method CtrSetOut(now: nat, level: bool)
      modifies this`out, this`calls
      ensures Pin(out, calls) == SetOut(old(Pin(out, calls)), now, level)
    {
      calls := calls + [Call(now, level, out)];
      out := level;
    }

    method DumpAndDisableTimer(now: nat)
      modifies this`progress, this`timer
      ensures progress == if setup.usingTimer && old(timer).on
                          then old(progress).(count := ReadTimer(setup, old(progress), old(timer), now)
                                                       - if setup.m == 2 then 1 else 0)
                          else old(progress)
      ensures timer == if setup.usingTimer then old(timer).(on := false) else old(timer)
    {
      if setup.usingTimer && timer.on {
        progress := progress.(count := ReadTimer(setup, progress, timer, now));
        if setup.m == 2 {
          progress := progress.(count := progress.count - 1);
        }
        timer := timer.(on := false);
      }
    }

    method SettleRunning(now: nat)
      modifies this`progress, this`timer
      ensures View() == Settle(old(View()), now)
    {
      progress := progress.(running := progress.enabled && setup.usingTimer && !progress.disabled);
      if setup.usingTimer && !progress.running {
        DumpAndDisableTimer(now);
      }
    }

    method LoadMode(now: nat)
      modifies this`progress, this`timer, this`out, this`calls
      ensures View() == LoadBody(old(View()), now)
    {
      var l := if setup.l != 0 then setup.l else 0x1_0000;
      progress := progress.(newcount := false, disabled := false);
      match setup.m {
        case 0 =>
          timer := SetDelay(setup, timer, now, l);
          CtrSetOut(now, false);
          progress := progress.(count := l, thit := false, enabled := setup.gate);
        case 1 =>
          progress := progress.(enabled := true);
        case 2 =>
          if progress.initial {
            timer := SetDelay(setup, timer, now, l - 1);
            CtrSetOut(now, true);
            progress := progress.(count := l - 1, thit := false);
          }
          progress := progress.(enabled := setup.gate);
        case 3 =>
          if progress.initial {
            if setup.usingTimer {
              timer := SetDelay(setup, timer, now, (l + 1) / 2);
            } else {
              progress := progress.(newcount := l % 2 == 1);
            }
            CtrSetOut(now, true);
            progress := progress.(count := l, thit := false);
          }
          progress := progress.(enabled := setup.gate);
        case 4 =>
          LoadStrobe(now, l);
        case 5 =>
          progress := progress.(enabled := true);
        case _ =>
      }
    }

    method LoadStrobe(now: nat, l: nat)
      modifies this`progress, this`timer, this`out, this`calls
      requires setup.m == 4 && l == Length(setup.l) && !progress.newcount && !progress.disabled
      ensures View() == LoadBody(old(View()), now)
    {
      if !progress.thit && !progress.initial {
        progress := progress.(newcount := true);
      } else {
        timer := SetDelay(setup, timer, now, l);
        CtrSetOut(now, false);
        progress := progress.(count := l, thit := false);
      }
      progress := progress.(enabled := setup.gate);
    }

    method CtrLoad(now: nat)
      modifies this
      ensures View() == Load(old(View()), now)
      ensures loads == old(loads) + [Notice(setup.m, Length(setup.l))]
    {
      LoadMode(now);
      loads := loads + [Notice(setup.m, Length(setup.l))];
      progress := progress.(initial := false);
      SettleRunning(now);
    }

    /** After the one-shot's event the counter runs on through its modulus. */
    method RunOn()
      modifies this`progress, this`timer
      ensures progress == old(progress).(thit := true, count := old(progress).count + 0xffff)
      ensures timer == Advance(setup, old(timer), 0xffff)
    {
      progress := progress.(thit := true);
      progress := progress.(count := progress.count + 0xffff);
      if setup.usingTimer {
        timer := Timer(true, timer.deadline + 0xffff * setup.pitConst);
      }
    }

    method OverMode(now: nat)
      requires !progress.disabled
      modifies this`progress, this`timer, this`out, this`calls
      ensures View() == OverBody(old(View()), now)
    {
      match setup.m {
        case 0 => OverTerminal(now);
        case 1 => OverTerminal(now);
        case 2 => OverRate(now);
        case 3 => OverSquareWave(now, if setup.l != 0 then setup.l else 0x1_0000);
        case 4 => OverStrobe(now);
        case 5 => OverStrobe(now);
        case _ =>
      }
    }

    method OverTerminal(now: nat)
      requires setup.m <= 1 && !progress.disabled
      modifies this`progress, this`timer, this`out, this`calls
      ensures View() == OverBody(old(View()), now)
    {
      if !progress.thit {
        CtrSetOut(now, true);
      }
      RunOn();
    }

    method OverRate(now: nat)
      requires setup.m == 2 && !progress.disabled
      modifies this`progress, this`timer, this`out, this`calls
      ensures View() == OverBody(old(View()), now)
    {
      var l := if setup.l != 0 then setup.l else 0x1_0000;
      progress := progress.(count := progress.count + l);
      timer := Advance(setup, timer, l);
      CtrSetOut(now, false);
      CtrSetOut(now, true);
    }

    method OverStrobe(now: nat)
      requires (setup.m == 4 || setup.m == 5) && !progress.disabled
      modifies this`progress, this`timer, this`out, this`calls
      ensures View() == OverBody(old(View()), now)
    {
      if !progress.thit {
        CtrSetOut(now, false);
        CtrSetOut(now, true);
      }
      if setup.m == 4 && progress.newcount {
        var l := if setup.l != 0 then setup.l else 0x1_0000;
        progress := progress.(newcount := false);
        progress := progress.(count := progress.count + l);
        timer := Advance(setup, timer, l);
      } else {
        RunOn();
      }
    }

    method OverSquareWave(now: nat, l: nat)
      requires setup.m == 3 && !progress.disabled && l == Length(setup.l)
      modifies this`progress, this`timer, this`out, this`calls
      ensures View() == OverBody(old(View()), now)
    {
      if out {
        CtrSetOut(now, false);
        if setup.usingTimer {
          progress := progress.(count := progress.count + l / 2);
          timer := Advance(setup, timer, l / 2);
        } else {
          progress := progress.(count := progress.count + l, newcount := l % 2 == 1);
        }
      } else {
        CtrSetOut(now, true);
        progress := progress.(count := progress.count + (l + 1) / 2);
        if setup.usingTimer {
          progress := progress.(count := progress.count + l / 2);
          timer := Advance(setup, timer, (l + 1) / 2);
        } else {
          progress := progress.(count := progress.count + l, newcount := l % 2 == 1);
        }
      }
    }

    method CtrOver(now: nat)
      modifies this`progress, this`timer, this`out, this`calls
      ensures View() == Over(old(View()), now)
    {
      if progress.disabled {
        progress := progress.(count := progress.count + 0xffff);
        timer := Advance(setup, timer, 0xffff);
        return;
      }
      OverMode(now);
      SettleRunning(now);
    }

    /** The timer queue serving this counter up to time `now`: every deadline that has passed fires, in order. */
    method ProcessTimer(now: nat)
      requires setup.pitConst > 0
      modifies this`progress, this`timer, this`out, this`calls
      ensures View() == RunUntil(old(View()), now)
    {
      while timer.on && timer.deadline <= now
        invariant setup == old(setup)
        invariant RunUntil(View(), now) == RunUntil(old(View()), now)
        decreases if timer.on then now + 1 - timer.deadline else 0, if out then 1 else 0
      {
        ghost var before := View();
        OverAdvances(before);
        var at := timer.deadline;
        timer := timer.(on := false);
        CtrOver(at);
        assert View() == Fire(before);
      }
    }
  }

  /** The queue takes an expired timer off before it calls back. */
  function Fire(f: Fast): Fast {
    Over(f.(timer := f.timer.(on := false)), f.timer.deadline)
  }

  /** Every callback moves the deadline on, or at least, with a count of one in mode 3, takes OUT down. */
  lemma OverAdvances(f: Fast)
    requires f.setup.pitConst > 0
    ensures Fire(f).setup == f.setup
    ensures Fire(f).timer.on ==>
              Fire(f).timer.deadline > f.timer.deadline
              || (Fire(f).timer.deadline == f.timer.deadline && f.pin.out && !Fire(f).pin.out)
  {
    var l := Length(f.setup.l);
    Product(0xffff, f.setup.pitConst);
    Product(l, f.setup.pitConst);
    if f.setup.m == 3 {
      if l > 1 {
        Product(l / 2, f.setup.pitConst);
      }
      Product((l + 1) / 2, f.setup.pitConst);
    }
  }

  lemma Product(a: nat, b: nat)
    requires a > 0 && b > 0
    ensures a * b > 0
  {
  }

  /** The counter at time `t`, everything due by then having fired. */
  function RunUntil(f: Fast, t: nat): Fast
    requires f.setup.pitConst > 0
    decreases if f.timer.on && f.timer.deadline <= t then t + 1 - f.timer.deadline else 0, if f.pin.out then 1 else 0
  {
    if f.timer.on && f.timer.deadline <= t then
      OverAdvances(f);
      RunUntil(Fire(f), t)
    else f
  }
}
