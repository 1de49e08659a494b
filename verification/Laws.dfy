/** What the device's registers hold and return, pulse by pulse and over runs (lib/dummy_pulser.cpp):
    laws that the definitions of the other modules have to meet. */
module Laws {
  import opened Pulses
  import opened Simulator

  /** The pulse decides what the register holds. */
  predicate Touches(pulse: Pulse, p: Param, chn: Channel) {
    (pulse.DDSSet? && pulse.p == p && pulse.chn == chn) || pulse == DDSReset(chn)
  }

  /** What a register keeps of a value: all of a frequency, 16 bits of an amplitude or a phase. */
  function Kept(p: Param, v: Word): Word {
    match p
    case Freq => v
    case Amp => v % 65536
    case Phase => v % 65536
  }

  /** One pulse changes one register, if any, and leaves all others alone. */
  lemma RegistersAfter(d: Device, pulse: Pulse, bank: Bank, p: Param, chn: Channel)
    ensures var d' := Exec(d, pulse);
            && d'.ttl[bank] == (if pulse.TTL? && pulse.bank == bank then pulse.val else d.ttl[bank])
            && d'.clock == (if pulse.Clock? then pulse.div % 256 else d.clock)
            && d'.dds[chn].Get(p) ==
               (if pulse == DDSReset(chn) then 0
                else if Touches(pulse, p, chn) then Kept(p, pulse.word)
                else d.dds[chn].Get(p))
  {
  }

  /** The results that are not read yet. */
  function Unread(d: Device, log: seq<Entry>): int {
    |Produced(d, log)| - |Taken(log)|
  }

  /** A result, or 0 if there are 4097 unread already. */
  function Result(d: Device, log: seq<Entry>, v: nat): nat {
    if Unread(d, log) >= 4097 then 0 else v
  }

  /** A run of entries with no command that touches the register. */
  lemma {:induction false} EntriesKeep(d: Device, log: seq<Entry>, more: seq<Entry>, p: Param, chn: Channel)
    requires forall i :: 0 <= i < |more| && more[i].Ran? ==> !Touches(more[i].cmd.pulse, p, chn)
    ensures DeviceAfter(d, log + more).dds[chn].Get(p) == DeviceAfter(d, log).dds[chn].Get(p)
    decreases |more|
  {
    if more == [] {
      assert log + more == log;
    } else {
      var before, e := log + more[..|more| - 1], more[|more| - 1];
      EntriesKeep(d, log, more[..|more| - 1], p, chn);
      assert log + more == before + [e];
      DeviceNext(d, before, e);
      if e.Ran? {
        RegistersAfter(DeviceAfter(d, before), e.cmd.pulse, 0, p, chn);
      }
    }
  }

  lemma DeviceNext(d: Device, log: seq<Entry>, e: Entry)
    ensures DeviceAfter(d, log + [e]) == if e.Ran? then Exec(DeviceAfter(d, log), e.cmd.pulse) else DeviceAfter(d, log)
  {
    assert (log + [e])[..|log|] == log;
    if e.Ran? {
      assert PulsesOf(Rans(log + [e]))[..|Rans(log)|] == PulsesOf(Rans(log));
    }
  }

  /** Main result: a read returns the value last written to its own register, however many other
      commands run in between, unless 4097 results are waiting to be read. */
  lemma ReadBack(d: Device, log: seq<Entry>, write: Cmd, more: seq<Entry>, read: Cmd, p: Param, chn: Channel, v: Word)
    requires write.pulse == DDSSet(p, chn, v) && read.pulse == DDSGet(p, chn)
    requires forall i :: 0 <= i < |more| && more[i].Ran? ==> !Touches(more[i].cmd.pulse, p, chn)
    ensures var before := (log + [Ran(write)]) + more;
            Produced(d, before + [Ran(read)]) == Produced(d, before) + [Result(d, before, Kept(p, v))]
  {
    var before := (log + [Ran(write)]) + more;
    DeviceNext(d, log, Ran(write));
    RegistersAfter(DeviceAfter(d, log), write.pulse, 0, p, chn);
    EntriesKeep(d, log + [Ran(write)], more, p, chn);
    assert (before + [Ran(read)])[..|before|] == before;
  }

  /** After a reset, zero is read. */
  lemma ReadAfterReset(d: Device, log: seq<Entry>, reset: Cmd, more: seq<Entry>, read: Cmd, p: Param, chn: Channel)
    requires reset.pulse == DDSReset(chn) && read.pulse == DDSGet(p, chn)
    requires forall i :: 0 <= i < |more| && more[i].Ran? ==> !Touches(more[i].cmd.pulse, p, chn)
    ensures var before := (log + [Ran(reset)]) + more;
            Produced(d, before + [Ran(read)]) == Produced(d, before) + [0]
  {
    var before := (log + [Ran(reset)]) + more;
    DeviceNext(d, log, Ran(reset));
    RegistersAfter(DeviceAfter(d, log), reset.pulse, 0, p, chn);
    EntriesKeep(d, log + [Ran(reset)], more, p, chn);
    assert (before + [Ran(read)])[..|before|] == before;
  }

  /** What is looped back comes back, and no pulse but that and a read has a result. */
  lemma ResultsOnlyOfReads(d: Device, log: seq<Entry>, c: Cmd)
    ensures Produced(d, log + [Ran(c)]) ==
            if c.pulse.LoopBack? then Produced(d, log) + [Result(d, log, c.pulse.word)]
            else if c.pulse.DDSGet? then
              Produced(d, log) + [Result(d, log, DeviceAfter(d, log).dds[c.pulse.chn].Get(c.pulse.p))]
            else Produced(d, log)
  {
    assert (log + [Ran(c)])[..|log|] == log;
  }

  // ---------------------------------------------------------------------------------------
  // When commands run

  /** A command that is on time starts when the one before it ends, and a late one when it was stamped;
      it ends its own duration later, at 10ns a step. */
  lemma EndRecurrence(pt: PulseTimes, r: int, log: seq<Entry>, c: Cmd)
    ensures var end, end' := EndAfter(pt, r, log), EndAfter(pt, r, log + [Ran(c)]);
            && (c.t <= end ==> end' == end + 10 * Duration(pt, c.pulse))
            && (c.t >= end ==> end' == c.t + 10 * Duration(pt, c.pulse))
  {
    assert (log + [Ran(c)])[..|log|] == log;
  }

  /** The time of a pulse is its own, for waits and outputs, and otherwise that of its kind. */
  lemma PulseTakes(pt: PulseTimes, p: Pulse)
    ensures p.Wait? || p.TTL? ==> Duration(pt, p) == p.t
    ensures p.Clock? ==> Duration(pt, p) == pt.clock
    ensures p.DAC? ==> Duration(pt, p) == pt.dac
    ensures p.ClearErr? ==> Duration(pt, p) == pt.clear
    ensures p.DDSReset? ==> Duration(pt, p) == pt.reset
    ensures p.LoopBack? ==> Duration(pt, p) == pt.loopBack
    ensures p.DDSSet? || p.DDSGet? ==>
              Duration(pt, p) == match p.p case Freq => pt.freq case Amp => pt.amp case Phase => pt.phase
  {
  }

  /** The queue takes 4096 commands before any has to run. */
  lemma QueueTakes(pt: PulseTimes, w: World, c: Cmd, now: int, wake: int)
    requires |w.sim.cmds| < 4096
    ensures var w' := Step(pt, w, Submit(c, now, wake));
            w'.sim == w.sim.(cmds := w.sim.cmds + [c], cmdsEmpty := false) && w'.log == w.log
  {
  }

  /** What a held simulator has queued starts when the hold is released, one command after the other. */
  lemma ReleaseStarts(pt: PulseTimes, w: World, now: int)
    requires w.sim.hold && !w.sim.forceRelease && w.sim.cmds != [] && w.sim.cmds[0].t <= now
    ensures var w' := Step(pt, w, ReleaseHold(now));
            && w'.sim.cmds == w.sim.cmds && !w'.sim.Blocked()
            && !Due(w'.sim, now - 1) && Due(w'.sim, now)
            && Head(pt, w').sim.release == now + 10 * Duration(pt, w.sim.cmds[0].pulse)
  {
  }
}
