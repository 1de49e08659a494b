/** What single requests do, from the frontend to the device and back (lib/ctrl_iface.cpp,
    lib/controller.cpp): laws that the model of the two threads has to meet. */
module Requests {
  import opened Pulses
  import opened Backend
  import opened Commands

  /** All commands have run and nothing waits. */
  ghost predicate AtRest(s: Sys) {
    QueueInv(s) && s.filter == |s.queue| && InSync(s.ctl, s.dev)
  }

  /** A TTL request moves exactly the outputs that it names, in its bank. */
  lemma TtlRequest(pt: PulseTimes, s: Sys, high: bool, bank: Bank, mask: Bits, b: Bank, i: nat)
    requires AtRest(s)
    ensures var s' := Step(pt, Step(pt, s, Event.SetTtl(high, bank, mask)), Start);
            && s'.filter == |s'.queue|
            && (i in s'.dev.ttl[b] <==> if b == bank && i in mask then high else i in s.dev.ttl[b])
  {
    var s1 := Step(pt, s, Event.SetTtl(high, bank, mask));
    assert s1.queue[s1.filter] == TtlCmd(high, bank, mask) && s1.ctl == s.ctl && s1.dev == s.dev && !s1.waiting;
    RunOne(s.dev, TTL(SetBits(s.ctl.ttl[bank], high, mask), pt.min, bank));
  }

  /** A clock request sets the clock, and is what the cache then has. */
  lemma ClockRequest(pt: PulseTimes, s: Sys, div: Word, now: nat)
    requires AtRest(s)
    ensures var s' := Step(pt, Step(pt, s, Event.SetClock(div, now)), Start);
            && s'.filter == |s'.queue| && s'.dev == s.dev.(clock := div % 256)
            && EntryAt(s'.cache, Key(ClockOp, 0, false)).val == div
  {
    var s1 := Step(pt, s, Event.SetClock(div, now));
    assert s1.queue[s1.filter] == ClockCmd(div) && s1.ctl == s.ctl && s1.dev == s.dev && !s1.waiting;
    RunOne(s.dev, Clock(div % 256));
  }

  /** A register as a set of this value leaves it: all of it, or under an override the low 12 bits of an
      amplitude. */
  predicate Holding(reg: Word, p: Param, overridden: bool, val: Word) {
    match p
    case Freq => reg == val
    case Phase => reg == val % 65536
    case Amp => reg % 4096 == val % 4096 && (!overridden ==> reg == val % 65536)
  }

  lemma SetPuts(c: Ctl, d: Device, p: Param, chn: Channel, isOverride: bool, val: Word)
    requires InSync(c, d) && val != ALL_ONES
    ensures var d' := Pulses.Run(d, Backend.SetDds(c, p, chn, isOverride, val).pulses);
            OnlyReg(d, d', p, chn) && Holding(d'.dds[chn].Get(p), p, c.ovr[chn].Get(p).Some?, val)
  {
    SetReaches(c, d, p, chn, isOverride, val);
    LowBitsOf(val);
    if c.ovr[chn].Get(p).None? {
      SetSends(c, p, chn, isOverride, val);
      RunOne(d, DDSSet(p, chn, Narrow(p, val)));
    }
  }

  /** The request, and the backend running it. */
  lemma DdsRuns(pt: PulseTimes, s: Sys, p: Param, chn: Channel, isOverride: bool, val: Word, now: nat)
    requires AtRest(s)
    ensures var s1 := Step(pt, s, Event.SetDds(p, chn, isOverride, val, now));
            var s', e := Step(pt, s1, Start), Backend.SetDds(s.ctl, p, chn, isOverride, val);
            && s'.filter == |s'.queue| && s'.ctl == e.ctl && s'.dev == Pulses.Run(s.dev, e.pulses) && s'.cache == s1.cache
  {
    var s1, cmd := Step(pt, s, Event.SetDds(p, chn, isOverride, val, now)), DdsCmd(p, chn, false, isOverride, val);
    assert s1.queue[s1.filter] == cmd && s1.ctl == s.ctl && s1.dev == s.dev && !s1.waiting;
  }

  /** A DDS request puts its value into its register and no other, turns the override on if it is for one,
      and is what the cache then has. */
  lemma DdsRequest(pt: PulseTimes, s: Sys, p: Param, chn: Channel, isOverride: bool, val: Word, now: nat)
    requires AtRest(s) && val != ALL_ONES
    ensures var s1 := Step(pt, s, Event.SetDds(p, chn, isOverride, val, now));
            var s' := Step(pt, s1, Start);
            && s'.filter == |s'.queue| && OnlyReg(s.dev, s'.dev, p, chn)
            && Holding(s'.dev.dds[chn].Get(p), p, s.ctl.ovr[chn].Get(p).Some?, val)
            && (isOverride ==> s'.ctl.ovr[chn].Get(p).Some?)
            && EntryAt(s1.cache, DdsKey(p, chn, isOverride)).val == val && s'.cache == s1.cache
  {
    DdsRuns(pt, s, p, chn, isOverride, val, now);
    SetPuts(s.ctl, s.dev, p, chn, isOverride, val);
    SetReaches(s.ctl, s.dev, p, chn, isOverride, val);
  }

  lemma LowBitsOf(v: Word)
    ensures v % 65536 % 4096 == v % 4096
  {
  }

  lemma ResetRuns(pt: PulseTimes, s: Sys, chn: Channel, now: nat, p: Param)
    requires AtRest(s)
    ensures var s' := Step(pt, Step(pt, s, Event.ResetDds(chn, now)), Start);
            && s'.filter == |s'.queue| && !s'.waiting && s'.ctl.pendingReset[chn] && !CacheOn(s'.cache, p, chn)
  {
    var s1 := Step(pt, s, Event.ResetDds(chn, now));
    assert s1.queue[s1.filter] == ResetCmd(chn) && s1.ctl == s.ctl && !s1.waiting;
  }

  /** A reset request, once the channel is checked, turns its overrides off, in cache and backend, and
      clears its registers. */
  lemma ResetRequest(pt: PulseTimes, s: Sys, chn: Channel, now: nat, p: Param)
    requires AtRest(s)
    ensures var s' := Step(pt, Step(pt, Step(pt, s, Event.ResetDds(chn, now)), Start), Event.Check(chn));
            && s'.filter == |s'.queue| && !CacheOn(s'.cache, p, chn)
            && s'.ctl.ovr[chn].Get(p) == None && s'.ctl.phase[chn] == 0 && !s'.ctl.pendingReset[chn]
            && s'.dev.dds[chn].Get(p) == 0
  {
    var s2 := Step(pt, Step(pt, s, Event.ResetDds(chn, now)), Start);
    ResetRuns(pt, s, chn, now, p);
    RunOne(s2.dev, DDSReset(chn));
  }

  /** What is recorded for a read is what the pulser returns for the pulse that is sent. */
  lemma ReadsThePulser(pt: PulseTimes, s: Sys)
    requires s.filter < |s.queue| && s.queue[s.filter].Reads()
    ensures var cmd, s' := s.queue[s.filter], StartCmd(pt, s);
            var ps := RunCmd(pt, s.ctl, cmd).pulses;
            && ps == [DDSGet(cmd.p, cmd.chn)] && s'.waiting
            && |s'.results| == |s.results| + 1
            && ResultOf(s.dev, ps[0]) == Some(s'.results[|s.results|])
  {
  }

  lemma ReadSent(pt: PulseTimes, s: Sys, p: Param, chn: Channel, now: nat)
    requires AtRest(s) && s.queue == []
    requires EntryAt(s.cache, DdsKey(p, chn, false)).cbs == [] && now > EntryAt(s.cache, DdsKey(p, chn, false)).t + FRESH_NS
    ensures var s1 := Step(pt, s, Event.GetDds(p, chn, false, now));
            && s1.queue == [DdsCmd(p, chn, true, false, 0)] && s1.filter == 0 && !s1.waiting && s1.results == []
            && s1.dev == s.dev && s1.fired == s.fired
            && s1.cache == s.cache[DdsKey(p, chn, false) := EntryAt(s.cache, DdsKey(p, chn, false)).(cbs := [|s.keys|])]
  {
    assert [] + [|s.keys|] == [|s.keys|];
  }

  lemma ReadReturns(pt: PulseTimes, s: Sys, p: Param, chn: Channel)
    requires s.queue == [DdsCmd(p, chn, true, false, 0)] && s.filter == 0 && !s.waiting && s.results == []
    ensures var s' := Step(pt, Step(pt, s, Start), Complete(true));
            && s'.queue == [DdsCmd(p, chn, true, false, s.dev.dds[chn].Get(p))] && s'.filter == 1
            && s'.dev == s.dev && s'.fired == s.fired && s'.cache == s.cache
  {
    RunOne(s.dev, DDSGet(p, chn));
  }

  /** A read request, with no fresh value at hand and nobody else waiting, is sent, and its callback is
      called once its result is back, which is what the register held. */
  lemma ReadRequest(pt: PulseTimes, s: Sys, p: Param, chn: Channel, now: nat, later: nat)
    requires AtRest(s) && s.queue == []
    requires EntryAt(s.cache, DdsKey(p, chn, false)).cbs == [] && now > EntryAt(s.cache, DdsKey(p, chn, false)).t + FRESH_NS
    ensures var s1 := Step(pt, s, Event.GetDds(p, chn, false, now));
            var s3 := Step(pt, Step(pt, Step(pt, s1, Start), Complete(true)), Pop(later));
            && s1.fired == s.fired && s3.queue == [] && s3.dev == s.dev
            && s3.fired[|s.keys|] > s.fired[|s.keys|]
            && EntryAt(s3.cache, DdsKey(p, chn, false)) == Entry(later, s.dev.dds[chn].Get(p), [])
  {
    var s1 := Step(pt, s, Event.GetDds(p, chn, false, now));
    ReadSent(pt, s, p, chn, now);
    ReadReturns(pt, s1, p, chn);
    var s2, k := Step(pt, Step(pt, s1, Start), Complete(true)), DdsKey(p, chn, false);
    assert |s.keys| in CacheSet(s2.cache, k, s2.queue[0].val, later).fired;
  }

  /** A value older than 0.1s is not used: a plain read then waits, and asks only if nobody else has. */
  lemma StaleAsks(c: Cache, k: Key, cb: nat, now: nat)
    requires now > EntryAt(c, k).t + 100_000_000 && !k.isOverride
    ensures var a := CacheGet(c, k, cb, now);
            && a.fired == [] && (a.hit <==> EntryAt(c, k).cbs != [])
            && a.cache == c[k := EntryAt(c, k).(cbs := EntryAt(c, k).cbs + [cb])]
  {
  }
}
