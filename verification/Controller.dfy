/** The backend worker (lib/controller.cpp): the controller that runs stand-alone commands and
    the runner that plays a sequence and slips commands into its long waits. Clock readings,
    arriving requests and the pulser's answers are parameters. */
module Controller {
  import opened Pulses
  import opened Backend
  import opened Timeline
  import opened RunnerSteps
  import opened SeqEffects
  import opened WorkLoop

  /** Stored overrides, with the encodings of the source: all ones marks a frequency override
      as off, amplitude and phase have their own enable bits and keep stale values. */
  datatype RawDdsState = DdsState(freq: Word, amp: nat, ampEnable: bool, phaseEnable: bool, phase: nat)

  type DdsState = d: RawDdsState | d.amp < 0x1000 && d.phase < 0x1_0000
    witness DdsState(ALL_ONES, 0, false, false, 0)

  function Meaning(d: DdsState): Overrides {
    PerParam(if d.freq == ALL_ONES then None else Some(d.freq),
             if d.ampEnable then Some(d.amp) else None,
             if d.phaseEnable then Some(d.phase) else None)
  }

  function Meanings(ds: seq<DdsState>): seq<Overrides> {
    seq(|ds|, i requires 0 <= i < |ds| => Meaning(ds[i]))
  }

  lemma LowBits(v: Word)
    ensures v % 0x1_0000 % 0x1000 == v % 0x1000
  {
  }

  class Controller {
    const pt: PulseTimes
    var ttl: seq<Bits>
    var ddsOvr: seq<DdsState>
    var ddsPhase: seq<nat>
    var pendingReset: seq<bool>
    /** The command queue: commands before `filter` are finished. */
    var queue: seq<ReqCmd>
    var filter: nat
    /** The command at `filter` has sent its read and waits for the result. */
    var waiting: bool
    /** Every command that was started, and every one that came in. */
    ghost var started: seq<ReqCmd>
    ghost var came: seq<ReqCmd>
    /** Pulses handed to the pulser, and where it will be when it has finished them. */
    var out: seq<Pulse>
    var dev: Device

    ghost predicate Valid()
      reads this
    {
      && |ttl| == NUM_TTL_BANKS && |ddsOvr| == |ddsPhase| == |pendingReset| == NUM_DDS
      && filter <= |queue| && (waiting ==> filter < |queue| && queue[filter].Reads())
      && forall i :: 0 <= i < |queue| ==> queue[i].Legal()
    }

    ghost function State(): Ctl
      requires Valid()
      reads this
    {
      Ctl(ttl, Meanings(ddsOvr), ddsPhase, pendingReset)
    }

    ghost function Snapshot(): Base
      requires Valid()
      reads this
    {
      Base(State(), dev, out, Box())
    }

    ghost function Box(): Inbox
      reads this
    {
      Inbox(queue, filter, waiting, started, came)
    }

    method Emit(p: Pulse)
      modifies this`out, this`dev
      ensures out == old(out) + [p] && dev == Exec(old(dev), p) == Run(old(dev), [p])
    {
      out := out + [p];
      dev := Exec(dev, p);
      RunOne(old(dev), p);
    }

    method Store(chn: Channel, d: DdsState)
      requires |ddsOvr| == NUM_DDS
      modifies this`ddsOvr
      ensures ddsOvr == old(ddsOvr)[chn := d] && Meanings(ddsOvr) == Meanings(old(ddsOvr))[chn := Meaning(d)]
    {
      ddsOvr := ddsOvr[chn := d];
    }

    method RunTtl(cmd: ReqCmd, runner: Runner?) returns (step: nat)
      requires Valid() && cmd.TtlCmd? && (runner != null ==> runner.Shaped())
      modifies this`ttl, this`out, this`dev, (if runner != null then {runner} else {})`preserve
      ensures Valid() && State() == RunCmd(pt, old(State()), cmd).ctl
      ensures out == old(out) + RunCmd(pt, old(State()), cmd).pulses && step == pt.min
      ensures dev == Run(old(dev), RunCmd(pt, old(State()), cmd).pulses)
      ensures runner != null ==>
                runner.preserve == old(runner.preserve)[cmd.bank := ttl[cmd.bank] - runner.ttlmask[cmd.bank]]
    {
      var bank := cmd.bank;
      if cmd.high {
        ttl := ttl[bank := ttl[bank] + cmd.mask];
      } else {
        ttl := ttl[bank := ttl[bank] - cmd.mask];
      }
      if runner != null {
        runner.UpdatePreserveTtl(ttl[bank], bank);
      }
      Emit(TTL(ttl[bank], pt.min, bank));
      return pt.min;
    }

    method OverrideFreq(chn: Channel, val: Word) returns (step: nat)
      requires Valid()
      modifies this`ddsOvr, this`out, this`dev
      ensures Valid() && State() == SetDds(old(State()), Freq, chn, true, val).ctl
      ensures out == old(out) + SetDds(old(State()), Freq, chn, true, val).pulses
      ensures dev == Run(old(dev), SetDds(old(State()), Freq, chn, true, val).pulses)
      ensures step == if out == old(out) then 0 else pt.freq
    {
      if val == ddsOvr[chn].freq {
        return 0;
      }
      Store(chn, ddsOvr[chn].(freq := val));
      if val == ALL_ONES {
        return 0;
      }
      Emit(DDSSet(Freq, chn, val));
      return pt.freq;
    }

    method RunFreq(cmd: ReqCmd) returns (step: nat, needRes: bool)
      requires Valid() && cmd.DdsCmd? && cmd.p == Freq && cmd.Legal()
      modifies this`ddsOvr, this`out, this`dev
      ensures Valid() && State() == RunCmd(pt, old(State()), cmd).ctl && needRes == cmd.hasRes
      ensures out == old(out) + RunCmd(pt, old(State()), cmd).pulses
      ensures dev == Run(old(dev), RunCmd(pt, old(State()), cmd).pulses)
      ensures step == if out == old(out) then 0 else pt.freq
    {
      var chn := cmd.chn;
      var isOverride := cmd.isOverride || (ddsOvr[chn].freq != ALL_ONES && !cmd.hasRes);
      if isOverride {
        assert !cmd.hasRes;
        step := OverrideFreq(chn, cmd.val);
        return step, false;
      }
      if !cmd.hasRes {
        Emit(DDSSet(Freq, chn, cmd.val));
        return pt.freq, false;
      }
      Emit(DDSGet(Freq, chn));
      return pt.freq, true;
    }

    method OverrideAmp(chn: Channel, val: Word) returns (step: nat)
      requires Valid()
      modifies this`ddsOvr, this`out, this`dev
      ensures Valid() && State() == SetDds(old(State()), Amp, chn, true, val).ctl
      ensures out == old(out) + SetDds(old(State()), Amp, chn, true, val).pulses
      ensures dev == Run(old(dev), SetDds(old(State()), Amp, chn, true, val).pulses)
      ensures step == if out == old(out) then 0 else pt.amp
    {
      var val16 := val % 0x1_0000;
      if val16 == ddsOvr[chn].amp && ddsOvr[chn].ampEnable {
        return 0;
      } else if val == ALL_ONES {
        Store(chn, ddsOvr[chn].(ampEnable := false));
        return 0;
      }
      LowBits(val);
      Store(chn, ddsOvr[chn].(amp := val16 % 0x1000, ampEnable := true));
      Emit(DDSSet(Amp, chn, val16));
      return pt.amp;
    }

    method RunAmp(cmd: ReqCmd) returns (step: nat, needRes: bool)
      requires Valid() && cmd.DdsCmd? && cmd.p == Amp && cmd.Legal()
      modifies this`ddsOvr, this`out, this`dev
      ensures Valid() && State() == RunCmd(pt, old(State()), cmd).ctl && needRes == cmd.hasRes
      ensures out == old(out) + RunCmd(pt, old(State()), cmd).pulses
      ensures dev == Run(old(dev), RunCmd(pt, old(State()), cmd).pulses)
      ensures step == if out == old(out) then 0 else pt.amp
    {
      var chn := cmd.chn;
      var isOverride := cmd.isOverride || (ddsOvr[chn].ampEnable && !cmd.hasRes);
      if isOverride {
        assert !cmd.hasRes;
        step := OverrideAmp(chn, cmd.val);
        return step, false;
      }
      if !cmd.hasRes {
        Emit(DDSSet(Amp, chn, cmd.val % 0x1_0000));
        return pt.amp, false;
      }
      Emit(DDSGet(Amp, chn));
      return pt.amp, true;
    }

    method OverridePhase(chn: Channel, val: Word) returns (step: nat)
      requires Valid()
      modifies this`ddsOvr, this`ddsPhase, this`out, this`dev
      ensures Valid() && State() == SetDds(old(State()), Phase, chn, true, val).ctl
      ensures out == old(out) + SetDds(old(State()), Phase, chn, true, val).pulses
      ensures dev == Run(old(dev), SetDds(old(State()), Phase, chn, true, val).pulses)
      ensures step == if out == old(out) then 0 else pt.phase
    {
      var val16 := val % 0x1_0000;
      if val16 == ddsOvr[chn].phase && ddsOvr[chn].phaseEnable {
        return 0;
      } else if val == ALL_ONES {
        Store(chn, ddsOvr[chn].(phaseEnable := false));
        return 0;
      }
      Store(chn, ddsOvr[chn].(phase := val16, phaseEnable := true));
      ddsPhase := ddsPhase[chn := val16];
      Emit(DDSSet(Phase, chn, val16));
      return pt.phase;
    }

    method RunPhase(cmd: ReqCmd) returns (step: nat, needRes: bool)
      requires Valid() && cmd.DdsCmd? && cmd.p == Phase && cmd.Legal()
      modifies this`ddsOvr, this`ddsPhase, this`out, this`dev
      ensures Valid() && State() == RunCmd(pt, old(State()), cmd).ctl && needRes == cmd.hasRes
      ensures out == old(out) + RunCmd(pt, old(State()), cmd).pulses
      ensures dev == Run(old(dev), RunCmd(pt, old(State()), cmd).pulses)
      ensures step == if out == old(out) then 0 else pt.phase
    {
      var chn := cmd.chn;
      var isOverride := cmd.isOverride || (ddsOvr[chn].phaseEnable && !cmd.hasRes);
      if isOverride {
        assert !cmd.hasRes;
        step := OverridePhase(chn, cmd.val);
        return step, false;
      }
      if !cmd.hasRes {
        ddsPhase := ddsPhase[chn := cmd.val % 0x1_0000];
        Emit(DDSSet(Phase, chn, cmd.val % 0x1_0000));
        return pt.phase, false;
      }
      Emit(DDSGet(Phase, chn));
      return pt.phase, true;
    }

    /** Run a command: the three encodings of an override all behave as Backend.SetDds says, and
        the sequence time reported is the time that the pulses sent take. */
    method RunCommand(cmd: ReqCmd, runner: Runner?) returns (step: nat, needRes: bool)
      requires Valid() && cmd.Legal() && (runner != null ==> runner.Shaped())
      modifies this`ttl, this`ddsOvr, this`ddsPhase, this`pendingReset, this`out, this`dev, (if runner != null then {runner} else {})`preserve
      ensures Valid() && State() == RunCmd(pt, old(State()), cmd).ctl && needRes == cmd.Reads()
      ensures out == old(out) + RunCmd(pt, old(State()), cmd).pulses
      ensures dev == Run(old(dev), RunCmd(pt, old(State()), cmd).pulses)
      ensures step == Total(pt, RunCmd(pt, old(State()), cmd).pulses)
      ensures runner != null ==>
                runner.preserve == if cmd.TtlCmd?
                                   then old(runner.preserve)[cmd.bank := ttl[cmd.bank] - runner.ttlmask[cmd.bank]]
                                   else old(runner.preserve)
    {
      needRes := false;
      match cmd {
        case TtlCmd(_, _, _) => step := RunTtl(cmd, runner);
        case DdsCmd(Freq, _, _, _, _) => step, needRes := RunFreq(cmd);
        case DdsCmd(Amp, _, _, _, _) => step, needRes := RunAmp(cmd);
        case DdsCmd(Phase, _, _, _, _) => step, needRes := RunPhase(cmd);
        case ResetCmd(chn) =>
          pendingReset := pendingReset[chn := true];
          step := 0;
        case ClockCmd(div) =>
          Emit(Clock(div % 256));
          step := pt.clock;
      }
      CommandTime(pt, old(State()), cmd);
    }

    /** Requests arrive from the frontend. */
    method Receive(cmds: seq<ReqCmd>)
      requires Valid() && forall i :: 0 <= i < |cmds| ==> cmds[i].Legal()
      modifies this`queue, this`came
      ensures Valid() && State() == old(State()) && Box() == old(Box()).Arrive(cmds)
    {
      queue := queue + cmds;
      came := came + cmds;
    }

    /** If a read is waiting, try to complete it with the pulser's answer. */
    method TryGetResult(answer: Option<Word>) returns (processed: bool, read: bool)
      requires Valid()
      modifies this`queue, this`filter, this`waiting
      ensures Valid() && State() == old(State())
      ensures processed == old(waiting) && read == (old(waiting) && answer.Some?)
      ensures waiting == (old(waiting) && answer.None?)
      ensures filter == if read then old(filter) + 1 else old(filter)
      ensures queue == if read then old(queue)[old(filter) := old(queue[filter]).(val := answer.value)] else old(queue)
    {
      if waiting {
        if answer.None? {
          return true, false;
        }
        queue := queue[filter := queue[filter].(val := answer.value)];
        waiting := false;
        filter := filter + 1;
        return true, true;
      }
      return false, false;
    }

    /** Complete the waiting read or start the next command, in queue order. `ran` is the command started. */
    method ProcessReqCmd(runner: Runner?, answer: Option<Word>) returns (step: nat, processed: bool, ghost ran: Option<ReqCmd>)
      requires Valid() && (runner != null ==> runner.Shaped())
      modifies this, (if runner != null then {runner} else {})`preserve
      ensures Valid()
      ensures ran == old(Box()).Next() && Box() == old(Box()).Pump(answer)
      ensures ran.None? ==> State() == old(State()) && out == old(out) && dev == old(dev) && step == 0
      ensures ran.Some? ==> var e := RunCmd(pt, old(State()), ran.value);
                            && State() == e.ctl && step == Total(pt, e.pulses)
                            && out == old(out) + e.pulses && dev == Run(old(dev), e.pulses)
      ensures runner != null ==>
                runner.preserve == if ran.Some? && ran.value.TtlCmd?
                                   then old(runner.preserve)[ran.value.bank := ttl[ran.value.bank] - runner.ttlmask[ran.value.bank]]
                                   else old(runner.preserve)
    {
      ran := None;
      var res_read;
      processed, res_read := TryGetResult(answer);
      if res_read || waiting {
        return 0, true, None;
      }
      if filter < |queue| {
        var cmd := queue[filter];
        var needRes;
        step, needRes := RunCommand(cmd, runner);
        started := started + [cmd];
        if needRes {
          waiting := true;
        } else {
          filter := filter + 1;
        }
        return step, true, Some(cmd);
      }
      step := 0;
    }

    /** Must not be called while a read is waiting: a check may itself use the result queue. */
    method CheckDds(chn: Channel)
      requires Valid() && !waiting
      modifies this`ddsOvr, this`ddsPhase, this`pendingReset, this`out, this`dev
      ensures Valid() && State() == Backend.CheckDds(old(State()), chn).ctl
      ensures out == old(out) + Backend.CheckDds(old(State()), chn).pulses
      ensures dev == Run(old(dev), Backend.CheckDds(old(State()), chn).pulses)
    {
      if pendingReset[chn] {
        Store(chn, ddsOvr[chn].(phaseEnable := false, ampEnable := false, freq := ALL_ONES));
        ddsPhase := ddsPhase[chn := 0];
        Emit(DDSReset(chn));
        pendingReset := pendingReset[chn := false];
      }
    }

    /** When a check is due or a reset pending, check the channels that exist, and forget the resets of
        the others. */
    method DetectDds(existing: set<Channel>, due: bool)
      requires Valid() && !waiting
      modifies this`ddsOvr, this`ddsPhase, this`pendingReset, this`out, this`dev
      ensures Valid() && Snapshot() == Detected(old(Snapshot()), existing, due)
    {
      if !due && forall chn: Channel :: !pendingReset[chn] {
        return;
      }
      ghost var b := Snapshot();
      for i := 0 to NUM_DDS
        invariant Valid() && Snapshot() == CheckUpTo(b, existing, i, true)
      {
        if i !in existing {
          pendingReset := pendingReset[i := false];
        } else {
          CheckDds(i);
        }
      }
    }

    /** Compare the TTL shadow with the device. */
    method SyncTtl(actual: seq<Bits>) returns (mismatch: bool)
      requires Valid() && |actual| == NUM_TTL_BANKS
      modifies this`ttl
      ensures Valid() && ttl == actual && (mismatch <==> actual != old(ttl))
    {
      mismatch := false;
      for i := 0 to NUM_TTL_BANKS
        invariant |ttl| == NUM_TTL_BANKS && ttl[..i] == actual[..i] && ttl[i..] == old(ttl)[i..]
        invariant mismatch <==> actual[..i] != old(ttl)[..i]
      {
        if actual[i] != ttl[i] {
          mismatch := true;
          ttl := ttl[i := actual[i]];
        }
        assert actual[..i + 1] == actual[..i] + [actual[i]];
        assert old(ttl)[..i + 1] == old(ttl)[..i] + [old(ttl)[i]];
        assert ttl[..i + 1] == ttl[..i] + [ttl[i]];
      }
      assert ttl == ttl[..NUM_TTL_BANKS] && actual == actual[..NUM_TTL_BANKS] && old(ttl) == old(ttl)[..NUM_TTL_BANKS];
    }

    /** Complete or start a request, with no sequence around. */
    method ServeOne(answer: Option<Word>)
      requires Valid()
      modifies this
      ensures Valid() && Snapshot() == Pumped(pt, old(Snapshot()), answer)
    {
      var step, processed, ran := ProcessReqCmd(null, answer);
    }

    /** The part of the worker's loop that handles commands; the pulser may have `finished`, and then
        shows the outputs of everything sent. No precondition speaks of a waiting read: the guards
        are what keeps the checks apart from it. */
    method WorkerTurn(existing: set<Channel>, due: bool, finished: bool, answer: Option<Word>)
      returns (mismatch: bool)
      requires Valid()
      modifies this
      ensures Valid() && Snapshot() == CommandRound(pt, old(Snapshot()), existing, due, finished, answer)
      ensures mismatch == (finished && Differs(old(Snapshot())))
    {
      mismatch := false;
      if finished {
        mismatch := SyncTtl(dev.ttl);
      }
      if !waiting {
        DetectDds(existing, due);
      }
      ServeOne(answer);
      if !waiting {
        DetectDds(existing, due);
      }
    }

    /** Take the results that are still to come. The pulser has an answer, or not yet, each time it is
        asked. */
    method TakeResults(answers: seq<Option<Word>>) returns (ready: bool)
      requires Valid()
      modifies this`queue, this`filter, this`waiting
      ensures Valid() && State() == old(State())
      ensures Box() == Settled(old(Box()), answers) && (ready <==> Ready(old(Box()), answers))
    {
      ready := false;
      ghost var box := Box();
      var i := 0;
      while i < |answers| && !ready
        invariant 0 <= i <= |answers| && Valid() && State() == old(State()) && (ready ==> !waiting)
        invariant !box.waiting ==> Box() == box && (ready <==> i > 0)
        invariant waiting ==> Box() == box && forall j :: 0 <= j < i ==> answers[j].None?
        invariant box.waiting && !waiting ==>
                    var n := if ready then i - 2 else i - 1;
                    && 0 <= n && answers[n].Some? && (forall j :: 0 <= j < n ==> answers[j].None?)
                    && Box() == box.Pump(answers[n])
        decreases |answers| - i, !ready
      {
        var processed, read := TryGetResult(answers[i]);
        ready := !processed;
        i := i + 1;
      }
      if box.waiting {
        FirstAnswerAt(answers, if waiting then i else if ready then i - 2 else i - 1);
      }
    }

    /** Before a sequence: take the results, then compare the TTL outputs with those of the pulser,
        which has finished. */
    method BeforeSeq(answers: seq<Option<Word>>) returns (ready: bool, mismatch: bool)
      requires Valid()
      modifies this`queue, this`filter, this`waiting, this`ttl
      ensures Valid() && (ready <==> Ready(old(Box()), answers))
      ensures var b := old(Snapshot()).(inbox := Settled(old(Box()), answers));
              Snapshot() == (if ready then Synced(b) else b) && mismatch == (ready && Differs(b))
    {
      ready := TakeResults(answers);
      mismatch := false;
      if ready {
        mismatch := SyncTtl(dev.ttl);
      }
    }

    /** Check the DDS channels after a sequence, but not while a read is waiting. */
    method AfterSeq(existing: set<Channel>)
      requires Valid()
      modifies this`ddsOvr, this`ddsPhase, this`pendingReset, this`out, this`dev
      ensures Valid() && Snapshot() == Wound(old(Snapshot()), existing)
    {
      Emit(ClearErr);
      if waiting {
        return;
      }
      ghost var b := Snapshot();
      for i := 0 to NUM_DDS
        invariant Valid() && Snapshot() == CheckUpTo(b, existing, i, false)
      {
        if i in existing {
          CheckDds(i);
        }
      }
    }

    /** Run a sequence, with what the outside world does meanwhile, exactly as specified: `show` is how
        it was played. */
    method RunSeq(r: SeqReq, w: SeqWorld) returns (mismatch: bool, done: bool, ghost show: Option<Show>)
      requires Valid() && r.Valid() && w.Valid()
      modifies this
      ensures Valid() && SeqRun(Snapshot(), mismatch, done, show) == RunOf(pt, old(Snapshot()), r, w)
    {
      var ready;
      ready, mismatch := BeforeSeq(w.answers);
      done, show := false, None;
      if !ready {
        return;
      }
      var runner := new Runner(this, r.mask, r.lenNs, w.now, w.coarseRes);
      ghost var f := runner.State();
      var left;
      ghost var wraps;
      done, left, wraps := runner.PlayAll(r.plays);
      show := Some(Show(runner.Plan(), f, r.plays, Outcome(runner.State(), left, done, wraps)));
      if done {
        done := FinishSeq(runner, r.isCmd, w);
      }
    }

    /** The end of a sequence: a short wait, and for an experiment a clock setting; requests are served
        until the pulser has finished; for an experiment, another wait and clock setting; then errors
        are cleared and the channels checked. */
    method FinishSeq(runner: Runner, isCmd: bool, w: SeqWorld) returns (done: bool)
      requires Valid() && runner.Valid() && runner.ctrl == this && w.Valid()
      modifies this, runner
      ensures Valid() && Ending(Snapshot(), done) == Finished(old(runner.Plan()), old(runner.State()), isCmd, w)
    {
      var left;
      ghost var wraps;
      done, left, wraps := runner.PlayAll(FlushPlays(pt, isCmd, w));
      if !done {
        return;
      }
      runner.ServeAll(w.ending);
      done := runner.Rest(isCmd, w);
      if done {
        AfterSeq(w.existing);
      }
    }

    /** The worker's loop, exactly as specified: `shows` are the sequences played. Shadows and overrides
        stay in step with the device, no comparison of the TTL outputs ever finds a mismatch, and
        commands are started in the order in which they came in. */
    method Worker(rounds: seq<Round>) returns (mismatch: bool, done: bool, ghost shows: seq<Show>)
      requires Valid() && forall i :: 0 <= i < |rounds| ==> rounds[i].Valid()
      modifies this
      ensures Valid() && Work(Snapshot(), mismatch, done, shows) == WorkOf(pt, old(Snapshot()), rounds)
      ensures InStep(old(Snapshot())) ==> InStep(Snapshot()) && !mismatch
      ensures InOrder(old(Box())) ==> InOrder(Box())
    {
      ghost var b := Snapshot();
      mismatch, done, shows := false, true, [];
      var i := 0;
      while i < |rounds| && done
        invariant 0 <= i <= |rounds| && Valid()
        invariant Work(Snapshot(), mismatch, done, shows) == WorkOf(pt, b, rounds[..i])
        decreases |rounds| - i
      {
        assert rounds[..i + 1][..i] == rounds[..i];
        mismatch, done, shows := DoRound(rounds[i], mismatch, shows);
        i := i + 1;
      }
      WorkStops(pt, b, rounds, i);
      if InStep(b) {
        WorkInStep(pt, b, rounds);
      }
      if InOrder(b.inbox) {
        WorkInOrder(pt, b, rounds);
      }
    }

    method DoRound(r: Round, mismatchBefore: bool, ghost showsBefore: seq<Show>)
      returns (mismatch: bool, done: bool, ghost shows: seq<Show>)
      requires Valid() && r.Valid()
      modifies this
      ensures Valid() && Work(Snapshot(), mismatch, done, shows) ==
              RoundDone(pt, Work(old(Snapshot()), mismatchBefore, true, showsBefore), r)
    {
      Receive(r.arrived);
      var bad := false;
      ghost var show := None;
      done := true;
      if r.job.Some? && !r.job.value.cancelled {
        bad, done, show := RunSeq(r.job.value.req, r.job.value.world);
      }
      mismatch, shows := mismatchBefore || bad, showsBefore + if show.Some? then [show.value] else [];
      if done {
        bad := WorkerTurn(r.existing, r.due, r.finished, r.answer);
        mismatch := mismatch || bad;
      }
    }
  }

  /** The runner, proved against the functions of module Timeline. */
  class Runner {
    const ctrl: Controller
    const ttlmask: seq<Bits>
    var preserve: seq<Bits>
    var t: nat
    var startT: nat
    const minT: nat
    var processCmd: bool
    var released: bool
    ghost var beats: seq<Beat>

    predicate Shaped()
      reads this
    {
      |ttlmask| == |preserve| == NUM_TTL_BANKS
    }

    ghost predicate Valid()
      reads this, ctrl
    {
      Shaped() && ctrl.Valid()
    }

    ghost function Here(): Track
      requires Valid()
      reads this, ctrl
    {
      Track(Live(ctrl.State(), ctrl.dev, ttlmask, preserve), ctrl.out, t, beats)
    }

    ghost function State(): Flow
      requires Valid()
      reads this, ctrl
    {
      Flow(Here(), startT, released, processCmd, ctrl.Box())
    }

    ghost function Plan(): Timeline.Plan
      reads this, ctrl
    {
      Timeline.Plan(ctrl.pt, minT)
    }

    constructor (ctrl: Controller, ttlmask: seq<Bits>, seqLenNs: nat, now: nat, coarseRes: nat)
      requires ctrl.Valid() && |ttlmask| == NUM_TTL_BANKS
      ensures Valid() && this.ctrl == ctrl && this.ttlmask == ttlmask && fresh(this)
      ensures State() == Flow(Track(Begin(ctrl.State(), ctrl.dev, ttlmask), ctrl.out, 0, []), now, false,
                              seqLenNs > 1_000_000_000, ctrl.Box())
      ensures forall bank: Bank, i: nat :: i in preserve[bank] <==> i in ctrl.ttl[bank] && i !in ttlmask[bank]
      ensures minT == LeadOf(coarseRes)
    {
      this.ctrl, this.ttlmask := ctrl, ttlmask;
      processCmd := seqLenNs > 1_000_000_000;
      preserve := Outside(ctrl.ttl, ttlmask);
      t, startT, released := 0, now, false;
      minT := LeadOf(coarseRes);
      beats := [];
    }

    method UpdatePreserveTtl(ttl: Bits, bank: Bank)
      requires Shaped()
      modifies this`preserve
      ensures preserve == old(preserve)[bank := ttl - ttlmask[bank]]
    {
      preserve := preserve[bank := ttl - ttlmask[bank]];
    }

    method SendWait(time: nat)
      requires Valid()
      modifies this`t, this`beats, ctrl`out, ctrl`dev
      ensures Valid() && Here() == Beaten(ctrl.pt, old(Here()), Idle(time))
    {
      IdleSends(ctrl.pt, Here(), time);
      t := t + time;
      ctrl.Emit(Pulse.Wait(time));
      beats := beats + [Idle(time)];
    }

    /** Send a wait in pieces. */
    method OutputWait(wait: nat)
      requires Valid()
      modifies this`t, this`beats, ctrl`out, ctrl`dev
      ensures Valid() && Here() == Idled(ctrl.pt, old(Here()), wait)
    {
      var rest: nat := wait;
      ghost var all := Idled(ctrl.pt, Here(), wait);
      while rest > MAX_WAIT + 100
        invariant Valid() && Idled(ctrl.pt, Here(), rest) == all
      {
        IdledLong(ctrl.pt, Here(), rest);
        rest := rest - MAX_WAIT;
        SendWait(MAX_WAIT);
      }
      OutputTail(rest);
    }

    method OutputTail(rest: nat)
      requires Valid() && rest <= MAX_WAIT + 100
      modifies this`t, this`beats, ctrl`out, ctrl`dev
      ensures Valid() && Here() == Idled(ctrl.pt, old(Here()), rest)
    {
      IdledTail(ctrl.pt, Here(), rest);
      if rest > MAX_WAIT {
        var half := rest / 2;
        SendWait(half);
        SendWait(rest - half);
      } else if rest > 0 {
        SendWait(rest);
      }
    }

    /** Complete or start one request. */
    method ServeCmd(answer: Option<Word>) returns (step: nat)
      requires Valid()
      modifies this`preserve, this`t, this`beats, ctrl
      ensures var cmd := old(ctrl.Box()).Next();
              && Valid() && ctrl.Box() == old(ctrl.Box()).Pump(answer)
              && Here() == (if cmd.Some? then Beaten(ctrl.pt, old(Here()), Beat.Serve(cmd.value)) else old(Here()))
              && step == if cmd.Some? then BeatTime(ctrl.pt, old(Here()).live, Beat.Serve(cmd.value)) else 0
    {
      ghost var s := Here();
      var processed;
      ghost var ran;
      step, processed, ran := ctrl.ProcessReqCmd(this, answer);
      t := t + step;
      if ran.Some? {
        ServeSends(ctrl.pt, s, ran.value);
        beats := beats + [Beat.Serve(ran.value)];
      }
    }

    /** Serve a request, and take its time off what is left. */
    method ServeOne(left: Time, answer: Option<Word>) returns (rest: Time, ghost wraps: nat)
      requires Valid()
      modifies this`preserve, this`t, this`beats, ctrl
      ensures Valid() && Outcome(State(), rest, false, wraps) == ServeNext(Plan(), old(State()), left, answer)
    {
      var step := ServeCmd(answer);
      rest, wraps := Sub(left, step), Borrow(left, step);
    }

    /** Play ahead: all that is left, if that is little. */
    method PlayAhead(left: Time, now: nat) returns (done: bool, rest: Time)
      requires Valid() && Behind(Plan(), State(), now)
      modifies this`t, this`beats, ctrl`out, ctrl`dev
      ensures var o := Ahead(Plan(), old(State()), left, now);
              Valid() && Here() == o.flow.track && done == o.done && rest == o.left
    {
      var minSeqT := MinSeqT(startT + t * 10, now + minT);
      if left <= minSeqT + 3000 {
        OutputWait(left);
        return true, 0;
      }
      OutputWait(minSeqT);
      return false, left - minSeqT;
    }

    /** Release the hold, once. */
    method ReleaseHold(left: Time) returns (rest: Time, ghost wraps: nat)
      requires Valid()
      modifies this`t, this`beats, this`released, ctrl`out, ctrl`dev
      ensures Valid() && Outcome(State(), rest, false, wraps) == Release(Plan(), old(State()), left)
    {
      if released {
        return left, 0;
      }
      released := true;
      SendWait(1000);
      return Sub(left, 1000), Borrow(left, 1000);
    }

    /** One turn of a long wait with `left` to go: either play ahead, or, with time in hand, release
        the hold and serve a request. */
    method TakeTurn(left: Time, turn: Turn) returns (done: bool, rest: Time, ghost wraps: nat)
      requires Valid() && forall i :: 0 <= i < |turn.arrived| ==> turn.arrived[i].Legal()
      modifies this, ctrl
      ensures Valid() && Outcome(State(), rest, done, wraps) == TurnOf(Plan(), old(State()), left, turn)
    {
      ctrl.Receive(turn.arrived);
      assert State() == old(State()).(inbox := old(State()).inbox.Arrive(turn.arrived));
      if startT + t * 10 < turn.now + minT {
        done, rest := PlayAhead(left, turn.now);
        return done, rest, 0;
      }
      ghost var more;
      rest, wraps := ReleaseHold(left);
      rest, more := ServeOne(rest, turn.answer);
      done, wraps := false, wraps + more;
    }

    method LongWait(wait: Time, turns: seq<Turn>) returns (done: bool, left: Time, ghost wraps: nat)
      requires Valid() && Plausible(turns)
      modifies this, ctrl
      ensures Valid() && Outcome(State(), left, done, wraps) == WaitTurns(Plan(), old(State()), wait, turns)
    {
      ghost var f := State();
      var i := 0;
      done, left, wraps := false, wait, 0;
      while i < |turns| && !done
        invariant 0 <= i <= |turns| && Valid()
        invariant Outcome(State(), left, done, wraps) == WaitTurns(Plan(), f, wait, turns[..i])
        decreases |turns| - i
      {
        ghost var more;
        done, left, more := TakeTurn(left, turns[i]);
        assert turns[..i + 1][..i] == turns[..i];
        wraps := wraps + more;
        i := i + 1;
      }
      assert turns[..|turns|] == turns;
      if done {
        TurnsStop(Plan(), f, wait, turns, i);
      }
    }

    /** Wait, serving requests meanwhile if the sequence is long enough. */
    method Wait(wait: Time, turns: seq<Turn>) returns (done: bool, left: Time, ghost wraps: nat)
      requires Valid() && Plausible(turns)
      modifies this, ctrl
      ensures Valid() && Outcome(State(), left, done, wraps) == WaitFor(Plan(), old(State()), wait, turns)
    {
      if !processCmd {
        OutputWait(wait);
        return true, 0, 0;
      }
      if wait < 2000 {
        SendWait(wait);
        return true, 0, 0;
      }
      done, left, wraps := LongWait(wait, turns);
    }

    method SendTtl(bits: Bits, time: Time, bank: Bank, ghost op: SeqOp)
      requires Valid() && WritesTtl(Here().live, op, bits, bank) && time == TtlTime(op.time)
      modifies this`t, this`beats, ctrl`ttl, ctrl`out, ctrl`dev
      ensures Valid() && Here() == Beaten(ctrl.pt, old(Here()), Own(op))
    {
      OwnTtl(ctrl.pt, Here(), op, bits, bank);
      ctrl.ttl := ctrl.ttl[bank := bits + preserve[bank]];
      t := t + time;
      ctrl.Emit(TTL(ctrl.ttl[bank], time, bank));
      beats := beats + [Own(op)];
    }

    /** Write the TTL outputs of a bank for `time`, keeping the outputs that are not this sequence's. */
    method Ttl(bits: Bits, bank: Bank, p: Play) returns (done: bool, left: Time, ghost wraps: nat)
      requires Valid() && Plausible(p.turns) && WritesTtl(Here().live, p.op, bits, bank)
      modifies this, ctrl
      ensures Valid() && Outcome(State(), left, done, wraps) == PlayedOne(Plan(), old(State()), p)
    {
      var time := p.op.time;
      PlayedTtl(Plan(), State(), p);
      if time <= 1000 {
        SendTtl(bits, time, bank, p.op);
        return true, 0, 0;
      }
      done, left, wraps := LongTtl(bits, bank, p);
    }

    method LongTtl(bits: Bits, bank: Bank, p: Play) returns (done: bool, left: Time, ghost wraps: nat)
      requires Valid() && Plausible(p.turns) && WritesTtl(Here().live, p.op, bits, bank) && p.op.time > 1000
      modifies this, ctrl
      ensures Valid() && Outcome(State(), left, done, wraps) ==
              WaitFor(Plan(), old(State()).(track := Beaten(ctrl.pt, old(Here()), Own(p.op))), p.op.time - 100, p.turns)
    {
      SendTtl(bits, 100, bank, p.op);
      done, left, wraps := Wait(p.op.time - 100, p.turns);
    }

    method IsOverridden(p: Param, chn: Channel) returns (on: bool)
      requires Valid()
      ensures on <==> ctrl.State().ovr[chn].Get(p).Some?
    {
      var d := ctrl.ddsOvr[chn];
      match p
      case Freq => on := d.freq != ALL_ONES;
      case Amp => on := d.ampEnable;
      case Phase => on := d.phaseEnable;
    }

    method SendDds(p: Param, chn: Channel, word: Word, ghost op: SeqOp)
      requires Valid() && WritesDds(Here().live, op, p, chn, word) && ctrl.State().ovr[chn].Get(p).None?
      modifies this`t, this`beats, ctrl`ddsPhase, ctrl`out, ctrl`dev
      ensures Valid() && Here() == Beaten(ctrl.pt, old(Here()), Own(op))
    {
      OwnDds(ctrl.pt, Here(), op, p, chn, word);
      if p == Phase {
        ctrl.ddsPhase := ctrl.ddsPhase[chn := Narrow(Phase, word)];
      }
      t := t + ParamTime(ctrl.pt, p);
      ctrl.Emit(DDSSet(p, chn, Narrow(p, word)));
      beats := beats + [Own(op)];
    }

    /** Write a DDS value, or wait for as long as that takes if the value is overridden. */
    method Dds(p: Param, chn: Channel, word: Word, play: Play) returns (done: bool, left: Time, ghost wraps: nat)
      requires Valid() && Plausible(play.turns) && WritesDds(Here().live, play.op, p, chn, word)
      modifies this, ctrl
      ensures Valid() && Outcome(State(), left, done, wraps) == PlayedOne(Plan(), old(State()), play)
    {
      var on := IsOverridden(p, chn);
      if on {
        OwnSkips(ctrl.pt, Here(), play.op, p, chn, word);
        beats := beats + [Own(play.op)];
        done, left, wraps := Wait(ParamTime(ctrl.pt, p), play.turns);
      } else {
        SendDds(p, chn, word, play.op);
        done, left, wraps := true, 0, 0;
      }
    }

    /** Instructions that are one pulse, whatever the overrides. */
    method SendPulse(pulse: Pulse, p: Play)
      requires Valid() && IsPulse(p.op, pulse)
      modifies this`t, this`startT, this`beats, ctrl`out, ctrl`dev
      ensures Valid() && State() == Started(Plan(), old(State()), p)
      ensures Remains(ctrl.pt, old(ctrl.State()), p.op) == None
    {
      OwnPulse(ctrl.pt, Here(), p.op, pulse);
      ctrl.Emit(pulse);
      if p.op.OpTrigger? {
        t, startT := 0, p.now;
      } else {
        t := t + Duration(ctrl.pt, pulse);
      }
      beats := beats + [Own(p.op)];
    }

    /** Play one instruction. */
    method PlayOne(p: Play) returns (done: bool, left: Time, ghost wraps: nat)
      requires Valid() && Plausible(p.turns)
      modifies this, ctrl
      ensures Valid() && Outcome(State(), left, done, wraps) == PlayedOne(Plan(), old(State()), p)
    {
      done, left, wraps := true, 0, 0;
      match p.op
      case OpTtl(bits, _, bank) =>
        done, left, wraps := Ttl(bits, bank, p);
      case OpTtl1(full, high, _) =>
        var chn := full % 32;
        var bank := chn / 32;
        done, left, wraps := Ttl(SetBits(ctrl.ttl[bank], high, {chn}), bank, p);
      case OpDds(q, chn, word) =>
        done, left, wraps := Dds(q, chn, word, p);
      case OpShift(chn, delta) =>
        done, left, wraps := Dds(Phase, chn, (ctrl.ddsPhase[chn] + delta) % 0x1_0000, p);
      case OpDac(dac, v) =>
        SendPulse(DAC(dac, v), p);
      case OpClock(div) =>
        SendPulse(Clock(div), p);
      case OpTrigger(input, raise, timeout) =>
        SendPulse(Trigger(input, raise, timeout), p);
      case OpWait(time) =>
        OwnWait(ctrl.pt, Here(), time);
        beats := beats + [Own(p.op)];
        done, left, wraps := Wait(time, p.turns);
    }

    /** Play a sequence, until a wait runs out of turns. What that means is in Timeline.TimelineHolds. */
    method PlayAll(ps: seq<Play>) returns (done: bool, left: Time, ghost wraps: nat)
      requires Valid() && forall i :: 0 <= i < |ps| ==> Plausible(ps[i].turns)
      modifies this, ctrl
      ensures Valid() && Outcome(State(), left, done, wraps) == Played(Plan(), old(State()), ps)
    {
      ghost var f := State();
      var i := 0;
      done, left, wraps := true, 0, 0;
      while i < |ps| && done
        invariant 0 <= i <= |ps| && Valid()
        invariant Outcome(State(), left, done, wraps) == Played(Plan(), f, ps[..i])
        decreases |ps| - i
      {
        ghost var more;
        done, left, more := PlayOne(ps[i]);
        assert ps[..i + 1][..i] == ps[..i];
        wraps := wraps + more;
        i := i + 1;
      }
      assert ps[..|ps|] == ps;
      if !done {
        PlayedStops(Plan(), f, ps, i);
      }
    }

    /** Serve requests after the last pulse, without counting their time. */
    method ServeAll(turns: seq<Turn>)
      requires Valid() && Plausible(turns)
      modifies this`preserve, this`beats, ctrl
      ensures Valid() && State() == TailAll(ctrl.pt, old(State()), turns)
    {
      ghost var f := State();
      for i := 0 to |turns|
        invariant Valid() && State() == TailAll(ctrl.pt, f, turns[..i])
      {
        assert turns[..i + 1][..i] == turns[..i];
        TailServe(turns[i]);
      }
      assert turns[..|turns|] == turns;
    }

    method TailServe(turn: Turn)
      requires Valid() && forall i :: 0 <= i < |turn.arrived| ==> turn.arrived[i].Legal()
      modifies this`preserve, this`beats, ctrl
      ensures Valid() && State() == TailTurn(ctrl.pt, old(State()), turn)
    {
      ctrl.Receive(turn.arrived);
      var step, processed, ran := ctrl.ProcessReqCmd(this, turn.answer);
      if ran.Some? {
        beats := beats + [Beat.Serve(ran.value)];
      }
    }

    /** After an experiment, another wait and clock setting. */
    method Rest(isCmd: bool, w: SeqWorld) returns (done: bool)
      requires Valid() && w.Valid()
      modifies this, ctrl
      ensures Valid() && Ending(ctrl.Snapshot(), done) == Rested(Plan(), old(State()), isCmd, w)
    {
      processCmd := true;
      if isCmd {
        return true;
      }
      var left;
      ghost var wraps;
      done, left, wraps := PlayAll(RestPlays(w));
    }
  }
}
