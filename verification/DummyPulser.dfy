/** The simulator class itself (lib/dummy_pulser.cpp, lib/dummy_pulser.h): every method is proved
    against the state machine of module Simulator. Clock readings are parameters. */
module DummyPulser {
  import opened Pulses
  import opened Simulator

  /** The clock that a call acts on: `now`, or `wake` if it has to sleep until the release time. */
  function Reading(s: Sim, now: int, wake: int): int {
    if now < s.release then wake else now
  }

  /** A call that looks at the queue reads the clock only if there is something to run. */
  predicate Looks(s: Sim) {
    s.cmds != [] && !s.Blocked()
  }

  /** The latest reading after such a call. */
  function ClockAfter(s: Sim, clock: int, now: int, wake: int): int {
    if Looks(s) then Reading(s, now, wake) else clock
  }

  /** The clock does not run backwards, and a sleep lasts until the release time. */
  predicate Readable(s: Sim, clock: int, now: int, wake: int) {
    Looks(s) ==> clock <= now <= wake && (now < s.release ==> s.release <= wake)
  }

  /** The queue as a new command finds it: drained if it was full. */
  function Drained(pt: PulseTimes, s: Sim, relNow: int, now: int, wake: int): Sim {
    if |s.cmds| < MAX_CMDS then s
    else
      var s1 := ForceRelease(s, relNow);
      RunPast(pt, s1, Reading(s1, now, wake))
  }

  predicate Stamped(cmds: seq<Cmd>, clock: int) {
    forall i :: 0 <= i < |cmds| ==> cmds[i].t <= clock
  }

  class DummyPulser {
    const pt: PulseTimes
    var dev: Device
    var cmds: seq<Cmd>
    var cmdsEmpty: bool
    var results: seq<nat>
    var timingOk: bool
    var timingCheck: bool
    var hold: bool
    var forceRelease: bool
    var releaseTime: int
    /** The latest clock reading anyone has made. */
    ghost var clock: int

    /** Nobody submits with a stamp from the future, and the flag that is read without the lock is right. */
    ghost predicate Valid()
      reads this
    {
      && (cmdsEmpty <==> cmds == [])
      && |cmds| <= MAX_CMDS
      && Stamped(cmds, clock)
    }

    ghost function State(): Sim
      reads this
    {
      Sim(dev, cmds, cmdsEmpty, results, timingOk, timingCheck, hold, forceRelease, releaseTime)
    }

    constructor (pt: PulseTimes, dev: Device, now: int)
      ensures Valid() && this.pt == pt && clock == now
      ensures Initial(World(State(), [], []), dev, now)
    {
      this.pt, this.dev := pt, dev;
      cmds, cmdsEmpty, results := [], true, [];
      timingOk, timingCheck, hold, forceRelease := true, false, false, false;
      releaseTime, clock := now, now;
    }

    method AddResult(v: nat)
      modifies this`results
      ensures results == Simulator.AddResult(old(results), v)
    {
      results := results + [if |results| >= MAX_RESULTS then 0 else v];
    }

    /** Apply the side effects of a command and return how long it takes. */
    method RunCmd(cmd: Cmd) returns (steps: nat)
      modifies this`dev, this`timingOk, this`results
      ensures steps == Duration(pt, cmd.pulse)
      ensures dev == Exec(old(dev), cmd.pulse)
      ensures timingOk == (cmd.pulse.ClearErr? || old(timingOk))
      ensures var res := ResultOf(old(dev), cmd.pulse);
              results == if res.Some? then Simulator.AddResult(old(results), res.value) else old(results)
    {
      match cmd.pulse
      case TTL(val, t, bank) =>
        dev := dev.(ttl := dev.ttl[bank := val]);
        steps := t;
      case Clock(div) =>
        dev := dev.(clock := div % 256);
        steps := pt.clock;
      case DAC(_, _) =>
        steps := pt.dac;
      case Wait(t) =>
        steps := t;
      case Trigger(_, _, timeout) =>
        steps := timeout;
      case ClearErr =>
        timingOk := true;
        steps := pt.clear;
      case DDSSet(Freq, chn, v) =>
        dev := dev.(dds := dev.dds[chn := dev.dds[chn].(freq := v)]);
        steps := pt.freq;
      case DDSSet(Amp, chn, v) =>
        dev := dev.(dds := dev.dds[chn := dev.dds[chn].(amp := v % 0x1_0000)]);
        steps := pt.amp;
      case DDSSet(Phase, chn, v) =>
        dev := dev.(dds := dev.dds[chn := dev.dds[chn].(phase := v % 0x1_0000)]);
        steps := pt.phase;
      case DDSReset(chn) =>
        dev := dev.(dds := dev.dds[chn := ZERO_REGS]);
        steps := pt.reset;
      case LoopBack(v) =>
        AddResult(v);
        steps := pt.loopBack;
      case DDSGet(Freq, chn) =>
        AddResult(dev.dds[chn].freq);
        steps := pt.freq;
      case DDSGet(Amp, chn) =>
        AddResult(dev.dds[chn].amp);
        steps := pt.amp;
      case DDSGet(Phase, chn) =>
        AddResult(dev.dds[chn].phase);
        steps := pt.phase;
    }

    /** One turn of the loop below: run the front command if it is due. */
    method RunFront(now: int) returns (ran: bool)
      requires cmds != [] && !State().Blocked() && cmds[0].t <= now
      modifies this`dev, this`cmds, this`results, this`timingOk, this`timingCheck, this`releaseTime
      ensures ran <==> Due(old(State()), now)
      ensures !ran ==> State() == old(State())
      ensures ran ==> State() == RunHead(pt, old(State())).(cmdsEmpty := cmdsEmpty)
    {
      var cmd := cmds[0];
      var start := releaseTime;
      if cmd.t > start {
        if timingCheck {
          timingOk := false;
        }
        start := cmd.t;
        assert cmd.t <= now;
      } else if start > now {
        return false;
      }
      timingCheck := cmd.timing;
      var steps := RunCmd(cmd);
      releaseTime := start + steps * 10;
      cmds := cmds[1..];
      return true;
    }

    /** Run the commands that are due at `now`; say whether any was. */
    method RunPastCmds(now: int) returns (cmdRun: bool)
      requires Valid() && clock <= now
      modifies this
      ensures Valid() && clock == now
      ensures State() == RunPast(pt, old(State()), now)
      ensures cmdRun <==> |cmds| < |old(cmds)|
    {
      clock := now;
      if hold && !forceRelease {
        return false;
      }
      cmdRun := RunDue(now);
      OnlyRemoves(pt, old(State()), now);
    }

    method RunDue(now: int) returns (cmdRun: bool)
      requires !State().Blocked() && Stamped(cmds, now) && (cmdsEmpty <==> cmds == [])
      modifies this`dev, this`cmds, this`cmdsEmpty, this`results, this`timingOk, this`timingCheck, this`releaseTime
      ensures State() == RunPast(pt, old(State()), now)
      ensures Stamped(cmds, now) && (cmdsEmpty <==> cmds == [])
      ensures cmdRun <==> |cmds| < |old(cmds)|
    {
      cmdRun := false;
      var done := false;
      ghost var s := State();
      while cmds != [] && !done
        invariant s == State().(cmdsEmpty := cmds == []) && !s.Blocked() && Stamped(cmds, now)
        invariant cmds != [] ==> !cmdsEmpty
        invariant done ==> !Due(s, now)
        invariant if cmdRun then |cmds| < |old(cmds)| else |cmds| == |old(cmds)|
        invariant RunPast(pt, s, now) == RunPast(pt, old(State()), now)
        decreases |cmds|, !done
      {
        var ran := RunFront(now);
        if ran {
          cmdRun := true;
          s := RunHead(pt, s);
        }
        done := !ran;
      }
      if cmds == [] {
        cmdsEmpty := true;
      }
    }

    /** Handle overdue commands, sleeping until the release time first if it is still ahead:
        `now` is the clock before and `wake` after such a sleep. A blocking call fails on an
        empty or held queue, and otherwise needs a single pass. */
    method ForwardTime(block: bool, now: int, wake: int) returns (ok: bool)
      requires Valid() && Readable(State(), clock, now, wake)
      modifies this
      ensures Valid() && clock == ClockAfter(old(State()), old(clock), now, wake)
      ensures ok <==> !(block && !Looks(old(State())))
      ensures State() == RunPast(pt, old(State()), Reading(old(State()), now, wake))
      ensures ok && block ==> |cmds| < |old(cmds)|
    {
      if cmds == [] || (hold && !forceRelease) {
        return !block;
      }
      var cur := now;
      if cur < releaseTime {
        cur := wake;
      }
      DrainMakesRoom(pt, State(), cur);
      var ran := RunPastCmds(cur);
      assert ran;  // so that a blocking call need not go round again
      return true;
    }

    /** One turn of the loop below: release a full queue and run what is due. */
    method MakeRoom(relNow: int, now: int, wake: int)
      requires Valid() && |cmds| == MAX_CMDS && clock <= relNow <= now
      requires Readable(ForceRelease(State(), relNow), relNow, now, wake)
      modifies this
      ensures Valid() && |cmds| < MAX_CMDS
      ensures clock == Reading(ForceRelease(old(State()), relNow), now, wake)
      ensures State() == Drained(pt, old(State()), relNow, now, wake)
    {
      if !forceRelease {
        forceRelease := true;
        releaseTime := relNow;
      }
      var ok := ForwardTime(true, now, wake);
      assert ok;  // a forced queue is neither empty nor held
    }

    /** Queue a command stamped `stamp`. A full queue is released at `relNow` and drained first; only
        then is the clock read again. */
    method AddCmd(pulse: Pulse, timing: bool, stamp: int, relNow: int, now: int, wake: int)
      requires Valid() && clock <= stamp
      requires |cmds| == MAX_CMDS ==>
                 stamp <= relNow <= now && Readable(ForceRelease(State(), relNow), relNow, now, wake)
      modifies this
      ensures Valid()
      ensures clock == if |old(cmds)| < MAX_CMDS then stamp
                       else Reading(ForceRelease(old(State()), relNow), now, wake)
      ensures State() == After(pt, old(State()), Submit(Cmd(pulse, timing, stamp), relNow,
                                                        Reading(ForceRelease(old(State()), relNow), now, wake)))
    {
      var cmd := Cmd(pulse, timing, stamp);
      clock := stamp;
      while |cmds| >= MAX_CMDS
        invariant Valid() && stamp <= clock
        invariant |cmds| >= MAX_CMDS ==> State() == old(State()) && clock == stamp
        invariant |cmds| < MAX_CMDS ==>
                    && State() == Drained(pt, old(State()), relNow, now, wake)
                    && clock == (if |old(cmds)| < MAX_CMDS then stamp
                                 else Reading(ForceRelease(old(State()), relNow), now, wake))
        decreases |cmds|
      {
        MakeRoom(relNow, now, wake);
      }
      cmds := cmds + [cmd];
      cmdsEmpty := false;
    }

    method ReleaseHold(now: int)
      requires Valid() && clock <= now
      modifies this
      ensures Valid() && clock == now
      ensures State() == After(pt, old(State()), Event.ReleaseHold(now))
    {
      clock := now;
      if !hold {
        return;
      }
      if !forceRelease {
        releaseTime := now;
      }
      hold := false;
    }

    method SetHold(now: int, wake: int)
      requires Valid() && Readable(State(), clock, now, wake)
      modifies this
      ensures Valid()
      ensures clock == if old(hold) || old(forceRelease) then old(clock)
                       else ClockAfter(old(State()), old(clock), now, wake)
      ensures State() == After(pt, old(State()), Event.SetHold(Reading(old(State()), now, wake)))
    {
      if hold {
        return;
      }
      if !forceRelease {
        var _ := ForwardTime(false, now, wake);
      }
      hold := true;
    }

    /** Fails, changing nothing, when commands are still queued. */
    method ToggleInit() returns (ok: bool)
      requires Valid()
      modifies this`forceRelease, this`timingOk, this`timingCheck
      ensures Valid() && (ok <==> cmds == [])
      ensures forall now :: State() == After(pt, old(State()), Event.ToggleInit(now))
    {
      if !cmdsEmpty {
        return false;
      }
      forceRelease := false;
      timingOk := true;
      timingCheck := false;
      return true;
    }

    method TryGetResult(now: int, wake: int) returns (res: Option<nat>)
      requires Valid() && Readable(State(), clock, now, wake)
      modifies this
      ensures Valid() && clock == ClockAfter(old(State()), old(clock), now, wake)
      ensures var cur := Reading(old(State()), now, wake);
              var ready := RunPast(pt, old(State()), cur).results;
              && State() == After(pt, old(State()), Take(cur))
              && res == if ready == [] then None else Some(ready[0])
    {
      if !cmdsEmpty {
        var _ := ForwardTime(false, now, wake);
      }
      if results == [] {
        return None;
      }
      res := Some(results[0]);
      results := results[1..];
    }

    /** A reader: the queue is drained as far as the clock allows before the flag is read. */
    method IsFinished(now: int, wake: int) returns (done: bool)
      requires Valid() && Readable(State(), clock, now, wake)
      modifies this
      ensures Valid() && clock == ClockAfter(old(State()), old(clock), now, wake)
      ensures State() == After(pt, old(State()), Poll(Reading(old(State()), now, wake)))
      ensures done <==> cmds == []
    {
      if !cmdsEmpty {
        var _ := ForwardTime(false, now, wake);
      }
      return cmdsEmpty;
    }

    /** A verdict that is already bad is reported without looking at the clock. */
    method IsTimingOk(now: int, wake: int) returns (ok: bool)
      requires Valid() && Readable(State(), clock, now, wake)
      modifies this
      ensures Valid() && ok == (old(timingOk) && timingOk)
      ensures clock == if !old(timingOk) then old(clock) else ClockAfter(old(State()), old(clock), now, wake)
      ensures State() == if !old(timingOk) then old(State())
                         else After(pt, old(State()), Poll(Reading(old(State()), now, wake)))
    {
      if !timingOk {
        return false;
      }
      var _ := IsFinished(now, wake);
      return timingOk;
    }
  }
}
