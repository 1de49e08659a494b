/** What a sequence and the commands served with it leave behind in controller and device
    (lib/controller.cpp). */
module SeqEffects {
  import opened Pulses
  import opened Backend
  import opened Timeline
  import opened Service

  function Actions(bs: seq<Beat>): seq<Action> {
    if bs == [] then []
    else
      var a := ActionOf(bs[|bs| - 1]);
      if a.Some? then Actions(bs[..|bs| - 1]) + [a.value] else Actions(bs[..|bs| - 1])
  }

  lemma {:induction false} ReplayActs(pt: PulseTimes, s: Track, bs: seq<Beat>)
    ensures Replay(pt, s, bs).live == DoAll(pt, s.live, Actions(bs))
    decreases |bs|
  {
    if bs != [] {
      var bs', a := bs[..|bs| - 1], ActionOf(bs[|bs| - 1]);
      ReplayActs(pt, s, bs');
      if a.Some? {
        DoNext(pt, s.live, Actions(bs'), a.value);
      }
    }
  }

  /** The TTL outputs as these set commands alone leave them. */
  function SetsOf(ttl: seq<Bits>, cmds: seq<ReqCmd>): (r: seq<Bits>)
    requires |ttl| == NUM_TTL_BANKS
    ensures |r| == NUM_TTL_BANKS
  {
    if cmds == [] then ttl
    else
      var before, cmd := SetsOf(ttl, cmds[..|cmds| - 1]), cmds[|cmds| - 1];
      if cmd.TtlCmd? then before[cmd.bank := SetBits(before[cmd.bank], cmd.high, cmd.mask)] else before
  }

  lemma {:induction false} SetsAreServed(ttl: seq<Bits>, bs: seq<Beat>)
    requires |ttl| == NUM_TTL_BANKS
    ensures SetsOnly(ttl, Actions(bs)) == SetsOf(ttl, Serves(bs))
    decreases |bs|
  {
    if bs != [] {
      var bs', b := bs[..|bs| - 1], bs[|bs| - 1];
      SetsAreServed(ttl, bs');
      if ActionOf(b).Some? {
        SetsNext(ttl, Actions(bs'), ActionOf(b).value);
      }
      if b.Serve? {
        SetsOfNext(ttl, Serves(bs'), b.cmd);
      }
    }
  }

  lemma SetsOfNext(ttl: seq<Bits>, cmds: seq<ReqCmd>, cmd: ReqCmd)
    requires |ttl| == NUM_TTL_BANKS
    ensures var before := SetsOf(ttl, cmds);
            SetsOf(ttl, cmds + [cmd]) ==
            if cmd.TtlCmd? then before[cmd.bank := SetBits(before[cmd.bank], cmd.high, cmd.mask)] else before
  {
    assert (cmds + [cmd])[..|cmds|] == cmds;
  }

  lemma SetsNext(ttl: seq<Bits>, es: seq<Action>, e: Action)
    requires |ttl| == NUM_TTL_BANKS
    ensures var before := SetsOnly(ttl, es);
            SetsOnly(ttl, es + [e]) ==
            if e.Command? && e.cmd.TtlCmd? then
              before[e.cmd.bank := SetBits(before[e.cmd.bank], e.cmd.high, e.cmd.mask)]
            else before
  {
    assert (es + [e])[..|es|] == es;
  }

  lemma {:induction false} ActionsInside(mask: seq<Bits>, bs: seq<Beat>)
    requires |mask| == NUM_TTL_BANKS
    requires forall op :: op in Owns(bs) && StepOf(op).Some? ==> Inside(mask, StepOf(op).value)
    ensures forall i :: 0 <= i < |Actions(bs)| ==> Inside(mask, Actions(bs)[i])
    decreases |bs|
  {
    if bs != [] {
      var b := bs[|bs| - 1];
      assert b.Own? ==> b.op in Owns(bs);
      ActionsInside(mask, bs[..|bs| - 1]);
    }
  }

  lemma {:induction false} OpsHave(ps: seq<Play>, op: SeqOp)
    requires op in Ops(ps)
    ensures exists i :: 0 <= i < |ps| && ps[i].op == op
    decreases |ps|
  {
    if op in Ops(ps[..|ps| - 1]) {
      OpsHave(ps[..|ps| - 1], op);
    } else {
      assert ps[|ps| - 1].op == op;
    }
  }

  ghost predicate PlaysInside(mask: seq<Bits>, ps: seq<Play>)
    requires |mask| == NUM_TTL_BANKS
  {
    forall i :: 0 <= i < |ps| && StepOf(ps[i].op).Some? ==> Inside(mask, StepOf(ps[i].op).value)
  }

  /** After any sequence, with whatever commands run meanwhile, shadows and overrides are in step with
      the device; and if it only writes inside its mask, the other TTL outputs are as the commands it
      served leave them. */
  lemma SequenceEffects(k: Plan, f: Flow, ps: seq<Play>) returns (bs: seq<Beat>)
    ensures var s, s' := f.track.live, Played(k, f, ps).flow.track.live;
            && Played(k, f, ps).flow.track.beats == f.track.beats + bs
            && (InSync(s.ctl, s.dev) ==> InSync(s'.ctl, s'.dev))
            && (s.preserve == Outside(s.ctl.ttl, s.mask) && PlaysInside(s.mask, ps) ==>
                  Outside(s'.ctl.ttl, s.mask) == Outside(SetsOf(s.ctl.ttl, Serves(bs)), s.mask))
  {
    bs := PlaysOnTime(k, f, ps);
    ReplayBeats(k.pt, f.track, bs);
    var s := f.track.live;
    ReplayActs(k.pt, f.track, bs);
    if InSync(s.ctl, s.dev) {
      ShadowsAndOverridesHold(k.pt, s, Actions(bs));
    }
    if s.preserve == Outside(s.ctl.ttl, s.mask) && PlaysInside(s.mask, ps) {
      forall op | op in Owns(bs) && StepOf(op).Some? ensures Inside(s.mask, StepOf(op).value) {
        OpsHave(ps, op);
      }
      ActionsInside(s.mask, bs);
      OnlySetCommandsOutside(k.pt, s, Actions(bs));
      SetsAreServed(s.ctl.ttl, bs);
    }
  }
}
