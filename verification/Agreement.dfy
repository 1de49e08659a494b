/** The frontend answers questions about DDS overrides from its cache and never asks the backend,
    which is where overrides are kept (lib/ctrl_iface.cpp, lib/controller.cpp). These lemmas say
    when the two agree. */
module Agreement {
  import opened Pulses
  import opened Backend
  import opened Commands

  // ---------------------------------------------------------------------------------------
  // What commands ask for

  predicate Targets(cmd: ReqCmd, p: Param, chn: Channel) {
    cmd.DdsCmd? && !cmd.hasRes && cmd.p == p && cmd.chn == chn
  }

  /** The override after a command, as requested. */
  function HeldAfterCmd(o: Option<nat>, cmd: ReqCmd, p: Param, chn: Channel): Option<nat> {
    if Targets(cmd, p, chn) && (cmd.isOverride || o.Some?) then
      if cmd.val == ALL_ONES then None else Some(Stored(p, cmd.val))
    else o
  }

  function Held(o: Option<nat>, cmds: seq<ReqCmd>, p: Param, chn: Channel): Option<nat>
    decreases |cmds|
  {
    if cmds == [] then o else Held(HeldAfterCmd(o, cmds[0], p, chn), cmds[1..], p, chn)
  }

  lemma {:induction false} HeldAppend(o: Option<nat>, cmds: seq<ReqCmd>, cmd: ReqCmd, p: Param, chn: Channel)
    ensures Held(o, cmds + [cmd], p, chn) == HeldAfterCmd(Held(o, cmds, p, chn), cmd, p, chn)
    decreases |cmds|
  {
    if cmds == [] {
      assert (cmds + [cmd])[1..] == [];
    } else {
      HeldAppend(HeldAfterCmd(o, cmds[0], p, chn), cmds[1..], cmd, p, chn);
      assert (cmds + [cmd])[1..] == cmds[1..] + [cmd];
    }
  }

  lemma {:induction false} HeldUntargeted(o: Option<nat>, cmds: seq<ReqCmd>, p: Param, chn: Channel)
    requires forall i :: 0 <= i < |cmds| ==> !Targets(cmds[i], p, chn)
    ensures Held(o, cmds, p, chn) == o
    decreases |cmds|
  {
    if cmds != [] {
      HeldUntargeted(o, cmds[1..], p, chn);
    }
  }

  predicate IsReset(cmd: ReqCmd, chn: Channel) {
    cmd == ResetCmd(chn)
  }

  /** A reset has been asked for and not yet carried out. */
  function ResetAfter(reset: bool, cmds: seq<ReqCmd>, chn: Channel): bool
    decreases |cmds|
  {
    if cmds == [] then reset else ResetAfter(reset || IsReset(cmds[0], chn), cmds[1..], chn)
  }

  lemma {:induction false} ResetAppend(reset: bool, cmds: seq<ReqCmd>, cmd: ReqCmd, chn: Channel)
    ensures ResetAfter(reset, cmds + [cmd], chn) == (ResetAfter(reset, cmds, chn) || IsReset(cmd, chn))
    decreases |cmds|
  {
    if cmds == [] {
      assert (cmds + [cmd])[1..] == [];
    } else {
      ResetAppend(reset || IsReset(cmds[0], chn), cmds[1..], cmd, chn);
      assert (cmds + [cmd])[1..] == cmds[1..] + [cmd];
    }
  }

  predicate TurnsOn(cmd: ReqCmd, chn: Channel) {
    cmd.DdsCmd? && !cmd.hasRes && cmd.chn == chn && cmd.isOverride && cmd.val != ALL_ONES
  }

  /** The backend takes this for a request to keep the phase override that it has. */
  predicate Swallowed(o: Option<nat>, cmd: ReqCmd, chn: Channel) {
    Targets(cmd, Phase, chn) && cmd.val == ALL_ONES && o == Some(0xffff)
  }

  /** A command that does as asked: it does not turn on an override that a reset will drop, or clear
      a phase override of 0xffff. */
  predicate Works(reset: bool, o: Option<nat>, cmd: ReqCmd, chn: Channel) {
    if reset then !TurnsOn(cmd, chn) else !Swallowed(o, cmd, chn)
  }

  predicate AllWork(reset: bool, o: Option<nat>, cmds: seq<ReqCmd>, chn: Channel)
    decreases |cmds|
  {
    cmds == [] ||
    (Works(reset, o, cmds[0], chn) &&
     AllWork(reset || IsReset(cmds[0], chn), HeldAfterCmd(o, cmds[0], Phase, chn), cmds[1..], chn))
  }

  lemma {:induction false} WorkAppend(reset: bool, o: Option<nat>, cmds: seq<ReqCmd>, cmd: ReqCmd, chn: Channel)
    ensures AllWork(reset, o, cmds + [cmd], chn) <==>
            AllWork(reset, o, cmds, chn) && Works(ResetAfter(reset, cmds, chn), Held(o, cmds, Phase, chn), cmd, chn)
    decreases |cmds|
  {
    if cmds == [] {
      assert (cmds + [cmd])[1..] == [];
    } else {
      WorkAppend(reset || IsReset(cmds[0], chn), HeldAfterCmd(o, cmds[0], Phase, chn), cmds[1..], cmd, chn);
      assert (cmds + [cmd])[1..] == cmds[1..] + [cmd];
    }
  }

  /** While a reset is pending it does not matter what the override is. */
  lemma {:induction false} WorkForgets(o: Option<nat>, o': Option<nat>, cmds: seq<ReqCmd>, chn: Channel)
    requires AllWork(true, o, cmds, chn)
    ensures AllWork(true, o', cmds, chn)
    decreases |cmds|
  {
    if cmds != [] {
      WorkForgets(HeldAfterCmd(o, cmds[0], Phase, chn), HeldAfterCmd(o', cmds[0], Phase, chn), cmds[1..], chn);
    }
  }

  /** Commands that work while a reset is pending work after it too, and leave everything off. */
  lemma {:induction false} WorkAfterReset(o: Option<nat>, cmds: seq<ReqCmd>, p: Param, chn: Channel)
    requires AllWork(true, o, cmds, chn)
    ensures AllWork(false, None, cmds, chn) && Held(None, cmds, p, chn) == None
    decreases |cmds|
  {
    if cmds != [] {
      WorkAfterReset(HeldAfterCmd(o, cmds[0], Phase, chn), cmds[1..], p, chn);
      WorkForgets(HeldAfterCmd(o, cmds[0], Phase, chn), None, cmds[1..], chn);
    }
  }

  // ---------------------------------------------------------------------------------------
  // Conditions and agreement

  predicate CleanCmd(cmd: ReqCmd) {
    cmd.DdsCmd? && !cmd.hasRes && cmd.val == ALL_ONES ==> cmd.isOverride
  }

  /** The conditions on single requests: all ones only to clear an override, and a clock that is past
      0.1s. */
  predicate CleanEvent(e: Event) {
    match e
    case SetDds(_, _, isOverride, val, now) => (val == ALL_ONES ==> isOverride) && now > FRESH_NS
    case GetDds(_, _, _, now) => now > FRESH_NS
    case SetClock(_, now) => now > FRESH_NS
    case GetClock(_, now) => now > FRESH_NS
    case Pop(now) => now > FRESH_NS
    case ResetDds(_, now) => now > FRESH_NS
    case SeqWrite(_, _, val) => val != ALL_ONES
    case _ => true
  }

  function CmdOf(e: Event): ReqCmd
    requires e.SetDds?
  {
    DdsCmd(e.p, e.chn, false, e.isOverride, e.val)
  }

  function Queued(s: Sys): seq<ReqCmd>
    requires s.filter <= |s.queue|
  {
    s.queue[s.filter..]
  }

  predicate BackendOn(c: Ctl, p: Param, chn: Channel) {
    c.ovr[chn].Get(p).Some?
  }

  /** A reset of the channel is on its way, or waits for the next check. */
  predicate Resetting(s: Sys, chn: Channel)
    requires s.filter <= |s.queue|
  {
    ResetAfter(s.ctl.pendingReset[chn], Queued(s), chn)
  }

  /** The override once the commands on their way have run. */
  function Will(s: Sys, p: Param, chn: Channel): Option<nat>
    requires s.filter <= |s.queue|
  {
    Held(s.ctl.ovr[chn].Get(p), Queued(s), p, chn)
  }

  /** Once the commands on their way have run, the backend will be where the cache is; while a reset
      is pending the cache has the override off. */
  ghost predicate AgreeAt(s: Sys, p: Param, chn: Channel)
    requires s.filter <= |s.queue|
  {
    if Resetting(s, chn) then !CacheOn(s.cache, p, chn)
    else CacheOn(s.cache, p, chn) <==> Will(s, p, chn).Some?
  }

  ghost predicate WorkAt(s: Sys, chn: Channel)
    requires s.filter <= |s.queue|
  {
    AllWork(s.ctl.pendingReset[chn], s.ctl.ovr[chn].phase, Queued(s), chn)
  }

  ghost predicate Agree(s: Sys)
    requires s.filter <= |s.queue|
  {
    (forall chn: Channel :: WorkAt(s, chn)) && forall p, chn: Channel :: AgreeAt(s, p, chn)
  }

  ghost predicate CleanDevice(d: Device) {
    forall chn: Channel, p :: d.dds[chn].Get(p) != ALL_ONES
  }

  /** An override that was only ever asked about is off. */
  ghost predicate StaleOff(c: Cache) {
    forall k :: k in c && k.isOverride && c[k].t == 0 ==> c[k].val == ALL_ONES
  }

  ghost predicate Clean(s: Sys) {
    && QueueInv(s)
    && (forall i :: 0 <= i < |s.queue| ==> CleanCmd(s.queue[i]))
    && CleanDevice(s.dev)
    && (forall n :: n in s.issued ==> s.issued[n] != ALL_ONES)
    && StaleOff(s.cache)
  }

  /** The condition on a request in its place: an override is not turned on while a reset of its
      channel is pending, and a phase override of 0xffff is not cleared. */
  predicate Fitting(s: Sys, e: Event)
    requires s.filter <= |s.queue|
  {
    CleanEvent(e) && (e.SetDds? ==> Works(Resetting(s, e.chn), Will(s, Phase, e.chn), CmdOf(e), e.chn))
  }

  // ---------------------------------------------------------------------------------------
  // Everything stays clean

  lemma WriteIsClean(d: Device, p: Param, chn: Channel, v: Word)
    requires CleanDevice(d) && v != ALL_ONES
    ensures CleanDevice(Pulses.Run(d, [DDSSet(p, chn, Narrow(p, v))]))
  {
    RunOne(d, DDSSet(p, chn, Narrow(p, v)));
    var d' := Pulses.Run(d, [DDSSet(p, chn, Narrow(p, v))]);
    assert Narrow(p, Narrow(p, v)) != ALL_ONES;
    forall chn': Channel, p' ensures d'.dds[chn'].Get(p') != ALL_ONES {
      assert d.dds[chn'].Get(p') != ALL_ONES;
    }
  }

  lemma CommandIsClean(pt: PulseTimes, c: Ctl, d: Device, cmd: ReqCmd)
    requires CleanDevice(d) && CleanCmd(cmd)
    ensures CleanDevice(Pulses.Run(d, RunCmd(pt, c, cmd).pulses))
  {
    var ps := RunCmd(pt, c, cmd).pulses;
    if ps != [] {
      if cmd.DdsCmd? && !cmd.hasRes {
        WriteIsClean(d, cmd.p, cmd.chn, cmd.val);
      } else {
        assert ps == [ps[0]];
        RunOne(d, ps[0]);
      }
    }
  }

  lemma CheckIsClean(c: Ctl, d: Device, chn: Channel)
    requires CleanDevice(d)
    ensures CleanDevice(Pulses.Run(d, Backend.CheckDds(c, chn).pulses))
  {
    RunOne(d, DDSReset(chn));
    var d' := Pulses.Run(d, [DDSReset(chn)]);
    forall chn': Channel, p ensures d'.dds[chn'].Get(p) != ALL_ONES {
      assert d.dds[chn'].Get(p) != ALL_ONES;
    }
  }

  lemma SetIsClean(c: Cache, k: Key, val: Word, now: nat)
    requires StaleOff(c) && now > 0
    ensures StaleOff(CacheSet(c, k, val, now).cache)
  {
  }

  lemma GetIsClean(c: Cache, k: Key, cb: nat, now: nat)
    requires StaleOff(c) && now > FRESH_NS
    ensures StaleOff(CacheGet(c, k, cb, now).cache)
    ensures forall p, chn: Channel :: CacheOn(CacheGet(c, k, cb, now).cache, p, chn) == CacheOn(c, p, chn)
  {
  }

  lemma StartClean(pt: PulseTimes, s: Sys)
    requires Clean(s) && !s.waiting && s.filter < |s.queue|
    ensures Clean(StartCmd(pt, s))
  {
    var cmd := s.queue[s.filter];
    StartQueue(pt, s);
    CommandIsClean(pt, s.ctl, s.dev, cmd);
    if cmd.Reads() {
      assert s.dev.dds[cmd.chn].Get(cmd.p) != ALL_ONES;
    }
  }

  lemma PopMoves(s: Sys, now: nat)
    requires 0 < s.filter <= |s.queue|
    ensures var s' := PopCmd(s, now);
            && s'.queue == s.queue[1..] && s'.issued == s.issued && s'.dev == s.dev
            && (forall i :: 0 <= i < |s'.queue| ==> s'.queue[i] == s.queue[i + 1])
  {
  }

  lemma PopStale(s: Sys, now: nat)
    requires 0 < s.filter <= |s.queue| && StaleOff(s.cache) && now > FRESH_NS
    ensures StaleOff(PopCmd(s, now).cache)
  {
    var cmd := s.queue[0];
    if cmd.Reads() {
      SetIsClean(s.cache, DdsKey(cmd.p, cmd.chn, cmd.isOverride), cmd.val, now);
    }
  }

  lemma PopClean(s: Sys, now: nat)
    requires Clean(s) && 0 < s.filter && now > FRESH_NS
    ensures Clean(PopCmd(s, now))
  {
    PopQueue(s, now);
    PopMoves(s, now);
    PopStale(s, now);
  }

  lemma ResetClean(c: Cache, chn: Channel, now: nat)
    requires StaleOff(c) && now > 0
    ensures var c1 := CacheSet(c, DdsKey(Freq, chn, true), ALL_ONES, now).cache;
            var c2 := CacheSet(c1, DdsKey(Amp, chn, true), ALL_ONES, now).cache;
            StaleOff(CacheSet(c2, DdsKey(Phase, chn, true), ALL_ONES, now).cache)
  {
    var c1 := CacheSet(c, DdsKey(Freq, chn, true), ALL_ONES, now).cache;
    SetIsClean(c, DdsKey(Freq, chn, true), ALL_ONES, now);
    SetIsClean(c1, DdsKey(Amp, chn, true), ALL_ONES, now);
    SetIsClean(CacheSet(c1, DdsKey(Amp, chn, true), ALL_ONES, now).cache, DdsKey(Phase, chn, true), ALL_ONES, now);
  }

  predicate IsRequest(e: Event) {
    e.SetDds? || e.GetDds? || e.SetTtl? || e.SetClock? || e.GetClock? || e.ResetDds?
  }

  lemma RequestCache(pt: PulseTimes, s: Sys, e: Event)
    requires StaleOff(s.cache) && CleanEvent(e) && IsRequest(e)
    ensures StaleOff(Step(pt, s, e).cache)
  {
    match e
    case SetDds(p, chn, isOverride, val, now) => SetIsClean(s.cache, DdsKey(p, chn, isOverride), val, now);
    case GetDds(p, chn, isOverride, now) => GetIsClean(s.cache, DdsKey(p, chn, isOverride), |s.keys|, now);
    case SetClock(div, now) => SetIsClean(s.cache, Key(ClockOp, 0, false), div, now);
    case GetClock(cur, now) => SetIsClean(s.cache, Key(ClockOp, 0, false), cur, now);
    case ResetDds(chn, now) => ResetClean(s.cache, chn, now);
    case SetTtl(_, _, _) =>
  }

  /** A request adds at most one command to the queue. */
  ghost predicate Joined(s: Sys, s': Sys, e: Event) {
    && s'.ctl == s.ctl && s'.dev == s.dev && s'.issued == s.issued && s'.filter == s.filter
    && s'.popped == s.popped && s'.waiting == s.waiting
    && (s'.queue == s.queue ||
        (|s'.queue| == |s.queue| + 1 && s'.queue == s.queue + [s'.queue[|s.queue|]] && CleanCmd(s'.queue[|s.queue|])))
    && (!e.SetDds? && !e.ResetDds? && |s'.queue| > |s.queue| ==>
          var cmd := s'.queue[|s.queue|];
          cmd.TtlCmd? || cmd.ClockCmd? || (cmd.DdsCmd? && cmd.hasRes))
  }

  lemma GetJoins(pt: PulseTimes, s: Sys, e: Event)
    requires e.GetDds?
    ensures Joined(s, Step(pt, s, e), e)
  {
  }

  lemma SetJoins(pt: PulseTimes, s: Sys, e: Event)
    requires (e.SetDds? || e.ResetDds?) && CleanEvent(e)
    ensures Joined(s, Step(pt, s, e), e)
  {
  }

  lemma RequestJoins(pt: PulseTimes, s: Sys, e: Event)
    requires IsRequest(e) && CleanEvent(e)
    ensures Joined(s, Step(pt, s, e), e)
  {
    if e.GetDds? {
      GetJoins(pt, s, e);
    } else if e.SetDds? || e.ResetDds? {
      SetJoins(pt, s, e);
    }
  }

  /** Requests that join the queue, or only touch the cache. */
  lemma RequestClean(pt: PulseTimes, s: Sys, e: Event)
    requires Clean(s) && CleanEvent(e) && IsRequest(e)
    ensures Clean(Step(pt, s, e))
  {
    QueueStep(pt, s, e);
    RequestCache(pt, s, e);
    RequestJoins(pt, s, e);
  }

  lemma CleanStep(pt: PulseTimes, s: Sys, e: Event)
    requires Clean(s) && CleanEvent(e)
    ensures Clean(Step(pt, s, e))
  {
    match e
    case Pop(now) =>
      if 0 < s.filter {
        PopClean(s, now);
      }
    case Start =>
      if !s.waiting && s.filter < |s.queue| {
        StartClean(pt, s);
      }
    case Complete(ready) =>
      if s.waiting && ready {
        CompleteQueue(s);
      }
    case SeqWrite(p, chn, val) =>
      QueueStep(pt, s, e);
      WriteIsClean(s.dev, p, chn, val);
    case Check(chn) =>
      QueueStep(pt, s, e);
      CheckIsClean(s.ctl, s.dev, chn);
    case _ => RequestClean(pt, s, e);
  }

  // ---------------------------------------------------------------------------------------
  // Every step keeps agreement

  /** The backend does as asked, unless it swallows a clear. */
  lemma StartHeld(pt: PulseTimes, c: Ctl, cmd: ReqCmd, p: Param, chn: Channel)
    requires CleanCmd(cmd) && !Swallowed(c.ovr[chn].phase, cmd, chn)
    ensures RunCmd(pt, c, cmd).ctl.ovr[chn].Get(p) == HeldAfterCmd(c.ovr[chn].Get(p), cmd, p, chn)
  {
    if Targets(cmd, p, chn) {
      assert Fits(p, c.ovr[chn].Get(p));
      StoredIsHeld(p, cmd.val);
      assert ALL_ONES % 0x1_0000 == 0xffff;
    }
  }

  lemma StartResets(pt: PulseTimes, c: Ctl, cmd: ReqCmd, chn: Channel)
    ensures RunCmd(pt, c, cmd).ctl.pendingReset[chn] == (c.pendingReset[chn] || IsReset(cmd, chn))
  {
  }

  /** The folds over a queue whose first command has just run. */
  lemma StartAgrees(pt: PulseTimes, s: Sys, p: Param, chn: Channel)
    requires Clean(s) && !s.waiting && s.filter < |s.queue|
    requires WorkAt(s, chn) && AgreeAt(s, p, chn)
    ensures var s' := StartCmd(pt, s);
            && s'.filter <= |s'.queue| && WorkAt(s', chn) && AgreeAt(s', p, chn)
            && Resetting(s', chn) == Resetting(s, chn)
            && (!Resetting(s, chn) ==> Will(s', p, chn) == Will(s, p, chn))
  {
    var cmd, s' := s.queue[s.filter], StartCmd(pt, s);
    if !cmd.Reads() {
      assert Queued(s)[0] == cmd && Queued(s)[1..] == Queued(s');
      StartResets(pt, s.ctl, cmd, chn);
      if s.ctl.pendingReset[chn] {
        WorkForgets(HeldAfterCmd(s.ctl.ovr[chn].phase, cmd, Phase, chn), s'.ctl.ovr[chn].phase, Queued(s'), chn);
        StaysReset(Queued(s), chn);
        StaysReset(Queued(s'), chn);
      } else {
        StartHeld(pt, s.ctl, cmd, p, chn);
        StartHeld(pt, s.ctl, cmd, Phase, chn);
      }
    } else {
      assert s'.ctl == s.ctl && Queued(s') == Queued(s);
    }
  }

  lemma {:induction false} StaysReset(cmds: seq<ReqCmd>, chn: Channel)
    ensures ResetAfter(true, cmds, chn)
    decreases |cmds|
  {
    if cmds != [] {
      StaysReset(cmds[1..], chn);
    }
  }

  lemma CompleteAgrees(s: Sys, p: Param, chn: Channel)
    requires Clean(s) && s.waiting && WorkAt(s, chn) && AgreeAt(s, p, chn)
    ensures var s' := CompleteCmd(s);
            && s'.filter <= |s'.queue| && WorkAt(s', chn) && AgreeAt(s', p, chn)
            && Resetting(s', chn) == Resetting(s, chn) && Will(s', p, chn) == Will(s, p, chn)
  {
    var s' := CompleteCmd(s);
    assert Queued(s)[0] == s.queue[s.filter] && Queued(s)[1..] == Queued(s');
  }

  /** A check carries out a pending reset: everything is off, as the cache has it. */
  lemma CheckAgrees(pt: PulseTimes, s: Sys, k: Channel, p: Param, chn: Channel)
    requires Clean(s) && WorkAt(s, chn) && AgreeAt(s, p, chn)
    ensures var s' := Step(pt, s, Event.Check(k));
            && s'.filter <= |s'.queue| && WorkAt(s', chn) && AgreeAt(s', p, chn)
            && (if Resetting(s, chn) then !Resetting(s', chn) ==> Will(s', p, chn) == None
                else !Resetting(s', chn) && Will(s', p, chn) == Will(s, p, chn))
  {
    var s' := Step(pt, s, Event.Check(k));
    assert Queued(s') == Queued(s);
    if !s.waiting && k == chn && s.ctl.pendingReset[chn] {
      StaysReset(Queued(s), chn);
      WorkAfterReset(s.ctl.ovr[chn].phase, Queued(s), p, chn);
    }
  }

  /** A command joins the queue. */
  lemma Joins(s: Sys, s': Sys, cmd: ReqCmd, p: Param, chn: Channel)
    requires s.filter <= |s.queue| && s'.queue == s.queue + [cmd] && s'.filter == s.filter && s'.ctl == s.ctl
    ensures Resetting(s', chn) == (Resetting(s, chn) || IsReset(cmd, chn))
    ensures Will(s', p, chn) == HeldAfterCmd(Will(s, p, chn), cmd, p, chn)
    ensures WorkAt(s', chn) <==> WorkAt(s, chn) && Works(Resetting(s, chn), Will(s, Phase, chn), cmd, chn)
  {
    assert Queued(s') == Queued(s) + [cmd];
    ResetAppend(s.ctl.pendingReset[chn], Queued(s), cmd, chn);
    HeldAppend(s.ctl.ovr[chn].Get(p), Queued(s), cmd, p, chn);
    WorkAppend(s.ctl.pendingReset[chn], s.ctl.ovr[chn].phase, Queued(s), cmd, chn);
  }

  /** A set moves the cache as the command will move the backend. */
  lemma SetMovesCache(c: Cache, p: Param, chn: Channel, isOverride: bool, val: Word, now: nat, p': Param, chn': Channel)
    requires val == ALL_ONES ==> isOverride
    ensures var c' := CacheSet(c, DdsKey(p, chn, isOverride), val, now).cache;
            CacheOn(c', p', chn') ==
            if p' == p && chn' == chn && isOverride then val != ALL_ONES else CacheOn(c, p', chn')
  {
  }

  lemma SetAgrees(pt: PulseTimes, s: Sys, e: Event, p: Param, chn: Channel)
    requires Clean(s) && WorkAt(s, chn) && AgreeAt(s, p, chn) && e.SetDds? && Fitting(s, e)
    ensures var s' := Step(pt, s, e);
            && s'.filter <= |s'.queue| && WorkAt(s', chn) && AgreeAt(s', p, chn)
            && Resetting(s', chn) == Resetting(s, chn)
            && Will(s', p, chn) == HeldAfterCmd(Will(s, p, chn), CmdOf(e), p, chn)
  {
    var s' := Step(pt, s, e);
    assert s'.queue == s.queue + [CmdOf(e)] && s'.ctl == s.ctl && s'.filter == s.filter;
    Joins(s, s', CmdOf(e), p, chn);
    SetMovesCache(s.cache, e.p, e.chn, e.isOverride, e.val, e.now, p, chn);
  }

  lemma ResetMovesCache(c: Cache, chn: Channel, now: nat, p: Param, k: Channel)
    ensures var c1 := CacheSet(c, DdsKey(Freq, chn, true), ALL_ONES, now).cache;
            var c2 := CacheSet(c1, DdsKey(Amp, chn, true), ALL_ONES, now).cache;
            var c3 := CacheSet(c2, DdsKey(Phase, chn, true), ALL_ONES, now).cache;
            CacheOn(c3, p, k) == (k != chn && CacheOn(c, p, k))
            && (k != chn ==> EntryAt(c3, DdsKey(p, k, true)) == EntryAt(c, DdsKey(p, k, true)))
  {
  }

  lemma ResetAgrees(pt: PulseTimes, s: Sys, k: Channel, now: nat, p: Param, chn: Channel)
    requires Clean(s) && WorkAt(s, chn) && AgreeAt(s, p, chn)
    ensures var s' := Step(pt, s, Event.ResetDds(k, now));
            && s'.filter <= |s'.queue| && WorkAt(s', chn) && AgreeAt(s', p, chn)
            && Resetting(s', chn) == (Resetting(s, chn) || k == chn) && Will(s', p, chn) == Will(s, p, chn)
  {
    var s' := Step(pt, s, Event.ResetDds(k, now));
    assert s'.queue == s.queue + [ResetCmd(k)] && s'.ctl == s.ctl && s'.filter == s.filter;
    Joins(s, s', ResetCmd(k), p, chn);
    ResetMovesCache(s.cache, k, now, p, chn);
  }

  /** A result that comes back late does not switch the override, though it may replace its value. */
  lemma PopAgrees(s: Sys, now: nat, p: Param, chn: Channel)
    requires Clean(s) && WorkAt(s, chn) && AgreeAt(s, p, chn) && 0 < s.filter && now > FRESH_NS
    ensures var s' := PopCmd(s, now);
            && s'.filter <= |s'.queue| && WorkAt(s', chn) && AgreeAt(s', p, chn)
            && Resetting(s', chn) == Resetting(s, chn) && Will(s', p, chn) == Will(s, p, chn)
            && CacheOn(s'.cache, p, chn) == CacheOn(s.cache, p, chn)
  {
    var s', cmd := PopCmd(s, now), s.queue[0];
    assert Queued(s') == Queued(s) && s'.ctl == s.ctl;
    if cmd.Reads() {
      assert s.popped + 0 in s.issued && cmd.val == s.issued[s.popped + 0];
      SetMovesCache(s.cache, cmd.p, cmd.chn, false, cmd.val, now, p, chn);
    }
  }

  /** What the cache says about an override is the same. */
  ghost predicate SameCached(c: Cache, c': Cache, p: Param, chn: Channel) {
    var k := DdsKey(p, chn, true);
    CacheOn(c', p, chn) == CacheOn(c, p, chn) && (CacheOn(c, p, chn) ==> k in c' && c'[k].val == c[k].val)
  }

  lemma GetKeepsCached(c: Cache, k: Key, cb: nat, now: nat, p: Param, chn: Channel)
    requires StaleOff(c) && now > FRESH_NS
    ensures SameCached(c, CacheGet(c, k, cb, now).cache, p, chn)
  {
  }

  lemma ClockKeepsCached(c: Cache, val: Word, now: nat, p: Param, chn: Channel)
    ensures SameCached(c, CacheSet(c, Key(ClockOp, 0, false), val, now).cache, p, chn)
  {
  }

  lemma OtherCache(pt: PulseTimes, s: Sys, e: Event, p: Param, chn: Channel)
    requires StaleOff(s.cache) && CleanEvent(e) && (e.GetDds? || e.SetTtl? || e.SetClock? || e.GetClock?)
    ensures SameCached(s.cache, Step(pt, s, e).cache, p, chn)
  {
    match e
    case GetDds(q, k, isOverride, now) => GetKeepsCached(s.cache, DdsKey(q, k, isOverride), |s.keys|, now, p, chn);
    case SetClock(div, now) => ClockKeepsCached(s.cache, div, now, p, chn);
    case GetClock(cur, now) => ClockKeepsCached(s.cache, cur, now, p, chn);
    case SetTtl(_, _, _) =>
  }

  /** Requests that have nothing to do with overrides. */
  lemma OtherAgrees(pt: PulseTimes, s: Sys, e: Event, p: Param, chn: Channel)
    requires Clean(s) && WorkAt(s, chn) && AgreeAt(s, p, chn) && CleanEvent(e)
    requires e.GetDds? || e.SetTtl? || e.SetClock? || e.GetClock?
    ensures var s' := Step(pt, s, e);
            && s'.filter <= |s'.queue| && WorkAt(s', chn) && AgreeAt(s', p, chn)
            && Resetting(s', chn) == Resetting(s, chn) && Will(s', p, chn) == Will(s, p, chn)
  {
    var s' := Step(pt, s, e);
    RequestJoins(pt, s, e);
    OtherCache(pt, s, e, p, chn);
    if s'.queue != s.queue {
      Joins(s, s', s'.queue[|s.queue|], p, chn);
    } else {
      assert Queued(s') == Queued(s);
    }
  }

  lemma SeqAgrees(pt: PulseTimes, s: Sys, e: Event, p: Param, chn: Channel)
    requires Clean(s) && WorkAt(s, chn) && AgreeAt(s, p, chn) && e.SeqWrite?
    ensures var s' := Step(pt, s, e);
            && s'.filter <= |s'.queue| && WorkAt(s', chn) && AgreeAt(s', p, chn)
            && Resetting(s', chn) == Resetting(s, chn) && Will(s', p, chn) == Will(s, p, chn)
  {
    var s' := Step(pt, s, e);
    assert Queued(s') == Queued(s) && s'.ctl.ovr == s.ctl.ovr && s'.ctl.pendingReset == s.ctl.pendingReset;
  }

  /** How a request moves the override that is asked for. */
  function Moved(o: Option<nat>, e: Event, p: Param, chn: Channel): Option<nat> {
    match e
    case SetDds(_, _, _, _, _) => HeldAfterCmd(o, CmdOf(e), p, chn)
    case ResetDds(k, _) => if k == chn then None else o
    case _ => o
  }

  /** The override that the requests so far ask for. */
  function AskedFor(es: seq<Event>, p: Param, chn: Channel): Option<nat> {
    if es == [] then None else Moved(AskedFor(es[..|es| - 1], p, chn), es[|es| - 1], p, chn)
  }

  /** The commands on their way will make the backend's override the one asked for. */
  ghost predicate Obeys(s: Sys, o: Option<nat>, p: Param, chn: Channel)
    requires s.filter <= |s.queue|
  {
    o == if Resetting(s, chn) then None else Will(s, p, chn)
  }

  lemma AgreeStepAt(pt: PulseTimes, s: Sys, e: Event, o: Option<nat>, p: Param, chn: Channel)
    requires Clean(s) && WorkAt(s, chn) && AgreeAt(s, p, chn) && Obeys(s, o, p, chn) && Fitting(s, e)
    ensures var s' := Step(pt, s, e);
            s'.filter <= |s'.queue| && WorkAt(s', chn) && AgreeAt(s', p, chn) && Obeys(s', Moved(o, e, p, chn), p, chn)
  {
    match e
    case SetDds(_, _, _, _, _) => SetAgrees(pt, s, e, p, chn);
    case ResetDds(k, now) => ResetAgrees(pt, s, k, now, p, chn);
    case Check(k) => CheckAgrees(pt, s, k, p, chn);
    case Pop(now) =>
      if 0 < s.filter {
        PopAgrees(s, now, p, chn);
      }
    case Start =>
      if !s.waiting && s.filter < |s.queue| {
        StartAgrees(pt, s, p, chn);
      }
    case Complete(ready) =>
      if s.waiting && ready {
        CompleteAgrees(s, p, chn);
      }
    case SeqWrite(_, _, _) => SeqAgrees(pt, s, e, p, chn);
    case _ => OtherAgrees(pt, s, e, p, chn);
  }

  ghost predicate ObeysAll(s: Sys, es: seq<Event>)
    requires s.filter <= |s.queue|
  {
    forall p, chn: Channel :: Obeys(s, AskedFor(es, p, chn), p, chn)
  }

  /** One more request: `es` ends with `e`. */
  lemma AgreeStep(pt: PulseTimes, s: Sys, es: seq<Event>, e: Event)
    requires es != [] && es[|es| - 1] == e
    requires Clean(s) && Agree(s) && ObeysAll(s, es[..|es| - 1]) && Fitting(s, e)
    ensures var s' := Step(pt, s, e);
            Clean(s') && Agree(s') && ObeysAll(s', es)
  {
    CleanStep(pt, s, e);
    var es' := es[..|es| - 1];
    forall p, chn: Channel
      ensures AgreeAt(Step(pt, s, e), p, chn) && Obeys(Step(pt, s, e), AskedFor(es, p, chn), p, chn)
    {
      AgreeStepAt(pt, s, e, AskedFor(es', p, chn), p, chn);
    }
    forall chn: Channel ensures WorkAt(Step(pt, s, e), chn) {
      AgreeStepAt(pt, s, e, AskedFor(es', Phase, chn), Phase, chn);
    }
  }

  // ---------------------------------------------------------------------------------------
  // Runs

  /** The condition on a run of requests: they are clean, no override is turned on while a reset of
      its channel is pending, and no phase override is cleared while the one asked for is 0xffff. */
  ghost predicate CleanRun(pt: PulseTimes, s: Sys, es: seq<Event>) {
    es == [] ||
    var es', e := es[..|es| - 1], es[|es| - 1];
    && CleanRun(pt, s, es') && CleanEvent(e) && Steps(pt, s, es').filter <= |Steps(pt, s, es').queue|
    && (e.SetDds? ==> Works(Resetting(Steps(pt, s, es'), e.chn), AskedFor(es', Phase, e.chn), CmdOf(e), e.chn))
  }

  ghost predicate Fresh(s: Sys) {
    Commands.Initial(s) && CleanDevice(s.dev)
  }

  lemma CleanRunLast(pt: PulseTimes, s: Sys, es: seq<Event>, s': Sys)
    requires CleanRun(pt, s, es) && es != [] && s' == Steps(pt, s, es[..|es| - 1]) && s'.filter <= |s'.queue|
    ensures var es', e := es[..|es| - 1], es[|es| - 1];
            && CleanRun(pt, s, es') && CleanEvent(e)
            && (e.SetDds? ==> Works(Resetting(s', e.chn), AskedFor(es', Phase, e.chn), CmdOf(e), e.chn))
  {
  }

  /** A clean request is a fitting one. */
  lemma CleanFits(s: Sys, es: seq<Event>, e: Event)
    requires s.filter <= |s.queue| && ObeysAll(s, es) && CleanEvent(e)
    requires e.SetDds? ==> Works(Resetting(s, e.chn), AskedFor(es, Phase, e.chn), CmdOf(e), e.chn)
    ensures Fitting(s, e)
  {
    if e.SetDds? {
      assert Obeys(s, AskedFor(es, Phase, e.chn), Phase, e.chn);
    }
  }

  lemma {:induction false} RunsAgree(pt: PulseTimes, s: Sys, es: seq<Event>)
    requires Fresh(s) && CleanRun(pt, s, es)
    ensures var s' := Steps(pt, s, es);
            Clean(s') && Agree(s') && ObeysAll(s', es)
    decreases |es|
  {
    if es == [] {
      FreshAgrees(s);
    } else {
      var es', e := es[..|es| - 1], es[|es| - 1];
      RunsAgree(pt, s, es');
      var s' := Steps(pt, s, es');
      CleanRunLast(pt, s, es, s');
      CleanFits(s', es', e);
      AgreeStep(pt, s', es, e);
    }
  }

  lemma FreshAgrees(s: Sys)
    requires Fresh(s)
    ensures Clean(s) && Agree(s) && ObeysAll(s, [])
  {
    assert Queued(s) == [];
    forall p, chn: Channel ensures AgreeAt(s, p, chn) && Obeys(s, AskedFor([], p, chn), p, chn) {
      assert s.ctl.ovr[chn] == NO_OVERRIDES;
    }
  }

  /** Main result: after any clean run, the cache has an override on exactly if it was asked for,
      whatever reads were and are under way; and once all commands have run and no reset waits for a
      check, the backend has exactly the override asked for, so that the two agree. While a reset
      waits, they agree exactly if the backend has the override off already. */
  lemma CacheKnowsOverrides(pt: PulseTimes, s: Sys, es: seq<Event>, p: Param, chn: Channel)
    requires Fresh(s) && CleanRun(pt, s, es)
    ensures var s', o := Steps(pt, s, es), AskedFor(es, p, chn);
            && (CacheOn(s'.cache, p, chn) <==> o.Some?)
            && (s'.filter == |s'.queue| && !s'.ctl.pendingReset[chn] ==> s'.ctl.ovr[chn].Get(p) == o)
            && (s'.filter == |s'.queue| && s'.ctl.pendingReset[chn] ==> o == None)
  {
    RunsAgree(pt, s, es);
    var s', o := Steps(pt, s, es), AskedFor(es, p, chn);
    assert AgreeAt(s', p, chn) && Obeys(s', o, p, chn);
    if s'.filter == |s'.queue| {
      assert Queued(s') == [];
    }
  }

  // ---------------------------------------------------------------------------------------
  // Why the conditions are there

  /** A set request in a state where all commands have run, and the backend running it. */
  function SetAndRun(pt: PulseTimes, s: Sys, p: Param, chn: Channel, val: Word, now: nat): Sys {
    Step(pt, Step(pt, s, Event.SetDds(p, chn, true, val, now)), Start)
  }

  lemma SetAndRunIs(pt: PulseTimes, s: Sys, p: Param, chn: Channel, val: Word, now: nat)
    requires QueueInv(s) && s.filter == |s.queue|
    ensures var s' := SetAndRun(pt, s, p, chn, val, now);
            && s'.filter == |s'.queue| && !s'.waiting
            && s'.ctl == Backend.SetDds(s.ctl, p, chn, true, val).ctl
            && s'.cache == CacheSet(s.cache, DdsKey(p, chn, true), val, now).cache
  {
    var s1 := Step(pt, s, Event.SetDds(p, chn, true, val, now));
    assert s1.queue[s1.filter] == DdsCmd(p, chn, false, true, val) && s1.ctl == s.ctl && !s1.waiting;
  }

  /** Clearing a phase override works exactly if its value is not 0xffff: otherwise, after any run
      that is clean so far, the cache has the override off and the backend still has it on. */
  lemma PhaseClearIsLost(pt: PulseTimes, s: Sys, es: seq<Event>, chn: Channel, now: nat)
    requires Fresh(s) && CleanRun(pt, s, es)
    requires Steps(pt, s, es).filter == |Steps(pt, s, es).queue| && !Steps(pt, s, es).ctl.pendingReset[chn]
    ensures var s' := SetAndRun(pt, Steps(pt, s, es), Phase, chn, ALL_ONES, now);
            && s'.filter == |s'.queue| && !CacheOn(s'.cache, Phase, chn)
            && (BackendOn(s'.ctl, Phase, chn) <==> AskedFor(es, Phase, chn) == Some(0xffff))
  {
    RunsAgree(pt, s, es);
    CacheKnowsOverrides(pt, s, es, Phase, chn);
    SetAndRunIs(pt, Steps(pt, s, es), Phase, chn, ALL_ONES, now);
    ClearTurnsOff(Steps(pt, s, es).ctl, Phase, chn);
  }

  /** A reset takes effect when the DDS is next checked. After any run that is clean so far, an
      override that is set, run and then followed by a check is still on, in both, exactly if no
      reset was waiting for that check; otherwise only the cache has it on. */
  lemma ResetDropsLaterOverride(pt: PulseTimes, s: Sys, es: seq<Event>, p: Param, chn: Channel, v: Word, now: nat)
    requires Fresh(s) && CleanRun(pt, s, es) && v != ALL_ONES
    requires Steps(pt, s, es).filter == |Steps(pt, s, es).queue|
    ensures var s1 := Steps(pt, s, es);
            var s2 := Step(pt, SetAndRun(pt, s1, p, chn, v, now), Event.Check(chn));
            && s2.filter == |s2.queue| && CacheOn(s2.cache, p, chn) && !s2.ctl.pendingReset[chn]
            && (BackendOn(s2.ctl, p, chn) <==> !s1.ctl.pendingReset[chn])
  {
    RunsAgree(pt, s, es);
    var s1 := Steps(pt, s, es);
    SetAndRunIs(pt, s1, p, chn, v, now);
    SetTurnsOn(s1.ctl, p, chn, v);
  }

  lemma SetTurnsOn(c: Ctl, p: Param, chn: Channel, v: Word)
    requires v != ALL_ONES
    ensures var c' := Backend.SetDds(c, p, chn, true, v).ctl;
            BackendOn(c', p, chn) && c'.pendingReset == c.pendingReset
  {
  }
}
