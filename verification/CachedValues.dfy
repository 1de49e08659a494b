/** The value of a DDS override in the frontend's cache (lib/ctrl_iface.cpp). The result of a read is
    taken for the value of an override that is on, even if the override was set after the read was
    sent. These lemmas say when the cached value is nevertheless that of the backend. */
module CachedValues {
  import opened Pulses
  import opened Backend
  import opened Commands
  import opened Agreement

  // ---------------------------------------------------------------------------------------
  // Shadows and overrides stay in step with the device

  lemma SyncStep(pt: PulseTimes, s: Sys, e: Event)
    requires InSync(s.ctl, s.dev)
    ensures InSync(Step(pt, s, e).ctl, Step(pt, s, e).dev)
  {
    match e
    case Start =>
      if !s.waiting && s.filter < |s.queue| {
        RunCmdSyncs(pt, s.ctl, s.dev, s.queue[s.filter]);
      }
    case SeqWrite(p, chn, val) =>
      if s.ctl.ovr[chn].Get(p).None? {
        assert SetOverride(s.ctl, p, chn, None) == s.ctl;
        WriteSyncs(s.ctl, s.dev, p, chn, None, val);
      }
    case Check(chn) => CheckDdsSyncs(s.ctl, s.dev, chn);
    case _ => FrontendKeepsBackend(pt, s, e);
  }

  lemma FrontendKeepsBackend(pt: PulseTimes, s: Sys, e: Event)
    requires !e.Start? && !e.SeqWrite? && !e.Check?
    ensures Step(pt, s, e).ctl == s.ctl && Step(pt, s, e).dev == s.dev
  {
  }

  /** A register that holds an override reads as that override. */
  lemma ReadsAsStored(c: Ctl, d: Device, p: Param, chn: Channel)
    requires InSync(c, d) && c.ovr[chn].Get(p).Some?
    ensures Stored(p, d.dds[chn].Get(p)) == c.ovr[chn].Get(p).value
  {
    assert InSyncAt(c, d, chn);
  }

  // ---------------------------------------------------------------------------------------

  predicate ReadOf(cmd: ReqCmd, p: Param, chn: Channel) {
    cmd.Reads() && cmd.p == p && cmd.chn == chn
  }

  /** A read of the register is on its way, or its result has not been picked up. */
  predicate Reading(s: Sys, p: Param, chn: Channel) {
    exists i :: 0 <= i < |s.queue| && ReadOf(s.queue[i], p, chn)
  }

  /** Nothing is set after a read that is in the queue. */
  ghost predicate Unraced(s: Sys, p: Param, chn: Channel) {
    forall i, j :: 0 <= i < j < |s.queue| && ReadOf(s.queue[i], p, chn) ==> !Targets(s.queue[j], p, chn)
  }

  /** The override is on, as far as the cache knows. */
  ghost predicate On(s: Sys, p: Param, chn: Channel)
    requires s.filter <= |s.queue|
  {
    CacheOn(s.cache, p, chn) && !Resetting(s, chn)
  }

  function CachedValue(c: Cache, p: Param, chn: Channel): Word
    requires CacheOn(c, p, chn)
  {
    c[DdsKey(p, chn, true)].val
  }

  /** What a read that has been sent will return is the override that is on. */
  ghost predicate ReadsAgree(s: Sys, p: Param, chn: Channel)
    requires s.filter <= |s.queue|
  {
    forall i :: 0 <= i < |s.queue| && ReadOf(s.queue[i], p, chn) && s.popped + i < |s.ran| && On(s, p, chn) ==>
      s.popped + i in s.issued && Will(s, p, chn) == Some(Stored(p, s.issued[s.popped + i]))
  }

  ghost predicate ValueAgrees(s: Sys, p: Param, chn: Channel)
    requires s.filter <= |s.queue|
  {
    On(s, p, chn) ==> Will(s, p, chn) == Some(Stored(p, CachedValue(s.cache, p, chn)))
  }

  ghost predicate Values(s: Sys, p: Param, chn: Channel)
    requires s.filter <= |s.queue|
  {
    Unraced(s, p, chn) && ReadsAgree(s, p, chn) && ValueAgrees(s, p, chn)
  }

  /** The agreement that the other invariants give. */
  ghost predicate Sound(s: Sys) {
    Clean(s) && Agree(s) && InSync(s.ctl, s.dev)
  }

  // ---------------------------------------------------------------------------------------
  // Steps

  /** A read that is next in the queue finds the override that is on. */
  lemma ReadFinds(s: Sys, p: Param, chn: Channel)
    requires Sound(s) && Unraced(s, p, chn) && s.filter < |s.queue| && ReadOf(s.queue[s.filter], p, chn) && On(s, p, chn)
    ensures Will(s, p, chn) == Some(Stored(p, s.dev.dds[chn].Get(p)))
  {
    var q := Queued(s);
    assert forall i :: 0 <= i < |q| ==> q[i] == s.queue[s.filter + i];
    assert !Targets(q[0], p, chn);
    HeldUntargeted(s.ctl.ovr[chn].Get(p), q, p, chn);
    assert AgreeAt(s, p, chn);
    ReadsAsStored(s.ctl, s.dev, p, chn);
  }

  /** A read is sent. */
  lemma StartRead(pt: PulseTimes, s: Sys, p: Param, chn: Channel)
    requires Sound(s) && Values(s, p, chn) && !s.waiting && s.filter < |s.queue| && s.queue[s.filter].Reads()
    ensures Values(StartCmd(pt, s), p, chn)
  {
    var s', n := StartCmd(pt, s), s.popped + s.filter;
    assert s'.queue == s.queue && Queued(s') == Queued(s) && s'.ctl == s.ctl && s'.cache == s.cache;
    assert On(s', p, chn) == On(s, p, chn) && Will(s', p, chn) == Will(s, p, chn);
    forall i | 0 <= i < |s.queue| && ReadOf(s.queue[i], p, chn) && s.popped + i < |s'.ran| && On(s, p, chn)
      ensures s.popped + i in s'.issued && Will(s, p, chn) == Some(Stored(p, s'.issued[s.popped + i]))
    {
      if i == s.filter {
        ReadFinds(s, p, chn);
      }
    }
  }

  lemma StartOther(pt: PulseTimes, s: Sys, p: Param, chn: Channel)
    requires Sound(s) && Values(s, p, chn) && !s.waiting && s.filter < |s.queue| && !s.queue[s.filter].Reads()
    ensures Values(StartCmd(pt, s), p, chn)
  {
    StartAgrees(pt, s, p, chn);
    var s' := StartCmd(pt, s);
    assert s'.queue == s.queue && s'.cache == s.cache && s'.issued == s.issued;
  }

  lemma CompleteValues(s: Sys, p: Param, chn: Channel)
    requires Sound(s) && Values(s, p, chn) && s.waiting
    ensures CompleteCmd(s).filter <= |CompleteCmd(s).queue| && Values(CompleteCmd(s), p, chn)
  {
    CompleteAgrees(s, p, chn);
    var s' := CompleteCmd(s);
    assert forall i :: 0 <= i < |s.queue| ==>
             ReadOf(s'.queue[i], p, chn) == ReadOf(s.queue[i], p, chn)
             && Targets(s'.queue[i], p, chn) == Targets(s.queue[i], p, chn);
    assert s'.cache == s.cache && s'.issued == s.issued && s'.ran == s.ran && s'.popped == s.popped;
  }

  /** The result of a read is popped: if it replaces the cached value, that is right. */
  lemma PopValues(s: Sys, now: nat, p: Param, chn: Channel)
    requires Sound(s) && Values(s, p, chn) && 0 < s.filter && now > FRESH_NS
    ensures PopCmd(s, now).filter <= |PopCmd(s, now).queue| && Values(PopCmd(s, now), p, chn)
  {
    PopAgrees(s, now, p, chn);
    var s', cmd := PopCmd(s, now), s.queue[0];
    assert forall i :: 0 <= i < |s'.queue| ==> s'.queue[i] == s.queue[i + 1];
    PopShifts(s, now, p, chn);
    if On(s', p, chn) {
      PopCached(s, now, p, chn);
    }
  }

  lemma PopShifts(s: Sys, now: nat, p: Param, chn: Channel)
    requires QueueInv(s) && Values(s, p, chn) && 0 < s.filter
    requires var s' := PopCmd(s, now);
             && s'.filter <= |s'.queue| && Will(s', p, chn) == Will(s, p, chn) && (On(s', p, chn) ==> On(s, p, chn))
    ensures Unraced(PopCmd(s, now), p, chn) && ReadsAgree(PopCmd(s, now), p, chn)
  {
    var s' := PopCmd(s, now);
    assert s'.issued == s.issued && s'.ran == s.ran && s'.popped == s.popped + 1;
    forall i | 0 <= i < |s'.queue| && ReadOf(s'.queue[i], p, chn) && s'.popped + i < |s'.ran| && On(s', p, chn)
      ensures s'.popped + i in s'.issued && Will(s', p, chn) == Some(Stored(p, s'.issued[s'.popped + i]))
    {
      assert s'.queue[i] == s.queue[i + 1] && s'.popped + i == s.popped + (i + 1);
    }
    forall i, j | 0 <= i < j < |s'.queue| && ReadOf(s'.queue[i], p, chn) ensures !Targets(s'.queue[j], p, chn) {
      assert s'.queue[i] == s.queue[i + 1] && s'.queue[j] == s.queue[j + 1];
    }
  }

  lemma PopCached(s: Sys, now: nat, p: Param, chn: Channel)
    requires Clean(s) && Values(s, p, chn) && 0 < s.filter && On(s, p, chn)
    requires CacheOn(PopCmd(s, now).cache, p, chn)
    ensures Will(s, p, chn) == Some(Stored(p, CachedValue(PopCmd(s, now).cache, p, chn)))
  {
    var cmd := s.queue[0];
    if ReadOf(cmd, p, chn) {
      assert s.popped + 0 in s.issued && cmd.val == s.issued[s.popped + 0];
    }
  }

  /** A step that adds at most one command, which is not a set of this register. */
  lemma SameValues(s: Sys, s': Sys, p: Param, chn: Channel)
    requires QueueInv(s) && Values(s, p, chn)
    requires s'.filter <= |s'.queue| && s'.popped == s.popped && s'.ran == s.ran && s'.issued == s.issued
    requires s'.queue == s.queue ||
             (|s'.queue| == |s.queue| + 1 && s.queue <= s'.queue && !Targets(s'.queue[|s.queue|], p, chn))
    requires On(s', p, chn) ==>
               && On(s, p, chn) && Will(s', p, chn) == Will(s, p, chn)
               && CachedValue(s'.cache, p, chn) == CachedValue(s.cache, p, chn)
    ensures Values(s', p, chn)
  {
    assert forall i :: 0 <= i < |s.queue| ==> s'.queue[i] == s.queue[i];
    forall i | 0 <= i < |s'.queue| && ReadOf(s'.queue[i], p, chn) && s'.popped + i < |s'.ran| && On(s', p, chn)
      ensures s'.popped + i in s'.issued && Will(s', p, chn) == Some(Stored(p, s'.issued[s'.popped + i]))
    {
      assert i < |s.queue| && s'.queue[i] == s.queue[i];
    }
  }

  lemma SetSends(pt: PulseTimes, s: Sys, e: Event)
    requires e.SetDds?
    ensures var s' := Step(pt, s, e);
            && s'.queue == s.queue + [CmdOf(e)] && s'.popped == s.popped && s'.ran == s.ran && s'.issued == s.issued
            && s'.cache == CacheSet(s.cache, DdsKey(e.p, e.chn, e.isOverride), e.val, e.now).cache
  {
  }

  /** A set of this register, with no read of it in the queue. */
  lemma SetOwnValue(s: Sys, s': Sys, e: Event, p: Param, chn: Channel)
    requires e.SetDds? && Targets(CmdOf(e), p, chn) && !Reading(s, p, chn) && CleanEvent(e)
    requires s'.queue == s.queue + [CmdOf(e)] && s'.filter <= |s'.queue| && AgreeAt(s', p, chn)
    requires CacheOn(s'.cache, p, chn) ==> CachedValue(s'.cache, p, chn) == e.val
    requires s.filter <= |s.queue| && Will(s', p, chn) == HeldAfterCmd(Will(s, p, chn), CmdOf(e), p, chn)
    requires On(s', p, chn) ==> e.isOverride || Will(s, p, chn).Some?
    ensures Values(s', p, chn)
  {
    assert forall i :: 0 <= i < |s'.queue| ==> !ReadOf(s'.queue[i], p, chn);
  }

  /** A set: no read of the register is in the queue. */
  lemma SetValues(pt: PulseTimes, s: Sys, e: Event, p: Param, chn: Channel)
    requires Sound(s) && Values(s, p, chn) && e.SetDds? && Fitting(s, e) && !Reading(s, e.p, e.chn)
    ensures Step(pt, s, e).filter <= |Step(pt, s, e).queue| && Values(Step(pt, s, e), p, chn)
  {
    SetAgrees(pt, s, e, p, chn);
    SetSends(pt, s, e);
    SetCached(s.cache, e, p, chn);
    var s' := Step(pt, s, e);
    if Targets(CmdOf(e), p, chn) {
      assert AgreeAt(s', p, chn);
      SetOwnValue(s, s', e, p, chn);
    } else {
      SameValues(s, s', p, chn);
    }
  }

  lemma SetCached(c: Cache, e: Event, p: Param, chn: Channel)
    requires e.SetDds? && CleanEvent(e)
    ensures var c' := CacheSet(c, DdsKey(e.p, e.chn, e.isOverride), e.val, e.now).cache;
            CacheOn(c', p, chn) ==>
              if Targets(CmdOf(e), p, chn) then CachedValue(c', p, chn) == e.val
              else CacheOn(c, p, chn) && CachedValue(c', p, chn) == CachedValue(c, p, chn)
  {
  }

  lemma ResetValues(pt: PulseTimes, s: Sys, e: Event, p: Param, chn: Channel)
    requires Sound(s) && Values(s, p, chn) && e.ResetDds? && CleanEvent(e)
    ensures Step(pt, s, e).filter <= |Step(pt, s, e).queue| && Values(Step(pt, s, e), p, chn)
  {
    ResetAgrees(pt, s, e.chn, e.now, p, chn);
    ResetKeeps(pt, s, e.chn, e.now, p, chn);
    SameValues(s, Step(pt, s, e), p, chn);
  }

  lemma ResetKeeps(pt: PulseTimes, s: Sys, k: Channel, now: nat, p: Param, chn: Channel)
    ensures var s' := Step(pt, s, Event.ResetDds(k, now));
            && s'.queue == s.queue + [ResetCmd(k)] && s'.popped == s.popped && s'.ran == s.ran && s'.issued == s.issued
            && (CacheOn(s'.cache, p, chn) ==>
                  CacheOn(s.cache, p, chn) && CachedValue(s'.cache, p, chn) == CachedValue(s.cache, p, chn))
  {
    ResetMovesCache(s.cache, k, now, p, chn);
  }

  lemma OtherValues(pt: PulseTimes, s: Sys, e: Event, p: Param, chn: Channel)
    requires Sound(s) && Values(s, p, chn) && CleanEvent(e)
    requires e.GetDds? || e.SetTtl? || e.SetClock? || e.GetClock?
    ensures Step(pt, s, e).filter <= |Step(pt, s, e).queue| && Values(Step(pt, s, e), p, chn)
  {
    OtherAgrees(pt, s, e, p, chn);
    RequestJoins(pt, s, e);
    OtherCache(pt, s, e, p, chn);
    assert Step(pt, s, e).ran == s.ran;
    SameValues(s, Step(pt, s, e), p, chn);
  }

  lemma BackendValues(pt: PulseTimes, s: Sys, e: Event, p: Param, chn: Channel)
    requires Sound(s) && Values(s, p, chn) && (e.SeqWrite? || e.Check?)
    ensures Step(pt, s, e).filter <= |Step(pt, s, e).queue| && Values(Step(pt, s, e), p, chn)
  {
    var s' := Step(pt, s, e);
    assert s' == s.(ctl := s'.ctl, dev := s'.dev);
    if e.SeqWrite? {
      SeqAgrees(pt, s, e, p, chn);
    } else {
      CheckAgrees(pt, s, e.chn, p, chn);
      assert AgreeAt(s, p, chn);
    }
    SameValues(s, s', p, chn);
  }

  lemma ValueStep(pt: PulseTimes, s: Sys, e: Event, p: Param, chn: Channel)
    requires Sound(s) && Values(s, p, chn) && Fitting(s, e) && (e.SetDds? ==> !Reading(s, e.p, e.chn))
    ensures Step(pt, s, e).filter <= |Step(pt, s, e).queue| && Values(Step(pt, s, e), p, chn)
  {
    match e
    case SetDds(_, _, _, _, _) => SetValues(pt, s, e, p, chn);
    case ResetDds(_, _) => ResetValues(pt, s, e, p, chn);
    case SeqWrite(_, _, _) => BackendValues(pt, s, e, p, chn);
    case Check(_) => BackendValues(pt, s, e, p, chn);
    case Pop(now) =>
      if 0 < s.filter {
        PopValues(s, now, p, chn);
      }
    case Start =>
      if !s.waiting && s.filter < |s.queue| {
        if s.queue[s.filter].Reads() {
          StartRead(pt, s, p, chn);
        } else {
          StartOther(pt, s, p, chn);
        }
      }
    case Complete(ready) =>
      if s.waiting && ready {
        CompleteValues(s, p, chn);
      }
    case _ => OtherValues(pt, s, e, p, chn);
  }

  // ---------------------------------------------------------------------------------------
  // Runs

  /** No register is set while a read of it is on its way or not picked up. */
  ghost predicate NoRaces(pt: PulseTimes, s: Sys, es: seq<Event>) {
    es == [] ||
    var es', e := es[..|es| - 1], es[|es| - 1];
    NoRaces(pt, s, es') && (e.SetDds? ==> !Reading(Steps(pt, s, es'), e.p, e.chn))
  }

  lemma {:induction false} RunsKeepValues(pt: PulseTimes, s: Sys, es: seq<Event>, p: Param, chn: Channel)
    requires Fresh(s) && InSync(s.ctl, s.dev) && CleanRun(pt, s, es) && NoRaces(pt, s, es)
    ensures Sound(Steps(pt, s, es)) && Values(Steps(pt, s, es), p, chn)
    decreases |es|
  {
    if es == [] {
      FreshAgrees(s);
    } else {
      var es', e := es[..|es| - 1], es[|es| - 1];
      RunsKeepValues(pt, s, es', p, chn);
      RunsAgree(pt, s, es');
      RunsAgree(pt, s, es);
      var s' := Steps(pt, s, es');
      SyncStep(pt, s', e);
      CleanRunLast(pt, s, es, s');
      CleanFits(s', es', e);
      ValueStep(pt, s', e, p, chn);
    }
  }

  /** Main result: after any clean run in which no register is set while a read of it is in the queue,
      the value that the cache has for an override is the override asked for, and so the backend's
      once all commands have run and no reset is pending. */
  lemma CacheKnowsValues(pt: PulseTimes, s: Sys, es: seq<Event>, p: Param, chn: Channel)
    requires Fresh(s) && InSync(s.ctl, s.dev) && CleanRun(pt, s, es) && NoRaces(pt, s, es)
    ensures var s', o := Steps(pt, s, es), AskedFor(es, p, chn);
            CacheOn(s'.cache, p, chn) ==>
              && o == Some(Stored(p, CachedValue(s'.cache, p, chn)))
              && (s'.filter == |s'.queue| && !s'.ctl.pendingReset[chn] ==> s'.ctl.ovr[chn].Get(p) == o)
  {
    RunsKeepValues(pt, s, es, p, chn);
    RunsAgree(pt, s, es);
    CacheKnowsOverrides(pt, s, es, p, chn);
    var s' := Steps(pt, s, es);
    assert AgreeAt(s', p, chn) && Obeys(s', AskedFor(es, p, chn), p, chn);
  }

  // ---------------------------------------------------------------------------------------
  // Why the condition is there

  /** A read is sent, and while it is on its way the override is set; then its result comes back, the
      set is run, and both are popped. */
  function Race(pt: PulseTimes, s: Sys, p: Param, chn: Channel, v: Word, now: nat): Sys {
    var s1 := Step(pt, Step(pt, s, GetDds(p, chn, false, now)), Start);
    var s2 := Step(pt, Step(pt, s1, Event.SetDds(p, chn, true, v, now)), Complete(true));
    Step(pt, Step(pt, Step(pt, s2, Start), Pop(now)), Pop(now))
  }

  lemma RaceReads(pt: PulseTimes, s: Sys, p: Param, chn: Channel, now: nat)
    requires QueueInv(s) && s.queue == [] && !CacheGet(s.cache, DdsKey(p, chn, false), |s.keys|, now).hit
    ensures var s1 := Step(pt, Step(pt, s, GetDds(p, chn, false, now)), Start);
            && s1.queue == [DdsCmd(p, chn, true, false, 0)] && s1.filter == 0 && s1.waiting
            && s1.results == [s.dev.dds[chn].Get(p)] && s1.ctl == s.ctl
  {
    var s0 := Step(pt, s, GetDds(p, chn, false, now));
    assert s0.queue == [DdsCmd(p, chn, true, false, 0)] && s0.ctl == s.ctl && s0.dev == s.dev && !s0.waiting;
  }

  lemma RaceSets(pt: PulseTimes, s: Sys, p: Param, chn: Channel, v: Word, now: nat)
    requires s.queue == [DdsCmd(p, chn, true, false, 0)] && s.filter == 0 && s.waiting && |s.results| == 1
    ensures var s2 := Step(pt, Step(pt, s, Event.SetDds(p, chn, true, v, now)), Complete(true));
            && s2.queue == [DdsCmd(p, chn, true, false, s.results[0]), DdsCmd(p, chn, false, true, v)]
            && s2.filter == 1 && !s2.waiting && s2.ctl == s.ctl
            && DdsKey(p, chn, true) in s2.cache && s2.cache[DdsKey(p, chn, true)].val == v
  {
  }

  lemma RaceRuns(pt: PulseTimes, s: Sys, p: Param, chn: Channel, r: Word, v: Word, now: nat)
    requires s.queue == [DdsCmd(p, chn, true, false, r), DdsCmd(p, chn, false, true, v)] && s.filter == 1 && !s.waiting
    requires DdsKey(p, chn, true) in s.cache && s.cache[DdsKey(p, chn, true)].val == v && v != ALL_ONES
    ensures var s' := Step(pt, Step(pt, Step(pt, s, Start), Pop(now)), Pop(now));
            && s'.queue == [] && s'.ctl == Backend.SetDds(s.ctl, p, chn, true, v).ctl
            && DdsKey(p, chn, true) in s'.cache && s'.cache[DdsKey(p, chn, true)].val == r
  {
    var s1 := Step(pt, s, Start);
    assert s1.queue == s.queue && s1.filter == 2 && s1.cache == s.cache;
    var s2 := Step(pt, s1, Pop(now));
    assert s2.queue == [DdsCmd(p, chn, false, true, v)] && s2.filter == 1;
  }

  /** From any state at rest, such a race leaves the cache with what the read returned: the two agree
      that the override is on exactly if that is not all ones, and about its value exactly if it is, as
      stored, the value that was set. */
  lemma LateReadReplacesOverride(pt: PulseTimes, s: Sys, p: Param, chn: Channel, v: Word, now: nat)
    requires QueueInv(s) && s.queue == [] && !CacheGet(s.cache, DdsKey(p, chn, false), |s.keys|, now).hit
    requires InSync(s.ctl, s.dev) && v != ALL_ONES
    ensures var s', r := Race(pt, s, p, chn, v, now), s.dev.dds[chn].Get(p);
            && s'.queue == [] && s'.ctl.ovr[chn].Get(p) == Some(Stored(p, v))
            && (CacheOn(s'.cache, p, chn) <==> r != ALL_ONES)
            && (r != ALL_ONES ==> CachedValue(s'.cache, p, chn) == r)
            && (r != ALL_ONES ==>
                  (Some(Stored(p, CachedValue(s'.cache, p, chn))) == s'.ctl.ovr[chn].Get(p) <==>
                   Stored(p, r) == Stored(p, v)))
  {
    var s1 := Step(pt, Step(pt, s, GetDds(p, chn, false, now)), Start);
    var s2 := Step(pt, Step(pt, s1, Event.SetDds(p, chn, true, v, now)), Complete(true));
    RaceReads(pt, s, p, chn, now);
    RaceSets(pt, s1, p, chn, v, now);
    RaceRuns(pt, s2, p, chn, s.dev.dds[chn].Get(p), v, now);
    SetReaches(s.ctl, s.dev, p, chn, true, v);
  }
}
