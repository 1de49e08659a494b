/** What the end of a sequence run sends (lib/controller.cpp): the clock settings, the waits, and the
    checks; and that the requests served are the ones started. */
module EndLaws {
  import opened Pulses
  import opened Backend
  import opened Timeline
  import opened Service
  import opened Instructions
  import opened WorkLoop
  import opened WorkLaws

  /** Serving after the last pulse is serving, as in a round. */
  lemma TailIsPump(pt: PulseTimes, f: Flow, turn: Turn)
    ensures var b := BaseOf(f);
            BaseOf(TailTurn(pt, f, turn)) == Pumped(pt, b.(inbox := b.inbox.Arrive(turn.arrived)), turn.answer)
    ensures TailTurn(pt, f, turn).track.t == f.track.t
  {
    var cmd := f.inbox.Arrive(turn.arrived).Next();
    if cmd.Some? {
      RunsCommand(pt, f.track.live, cmd.value);
    }
  }

  lemma RunsCommand(pt: PulseTimes, s: Live, cmd: ReqCmd)
    ensures var e, s' := RunCmd(pt, s.ctl, cmd), Do(pt, s, Command(cmd));
            s'.ctl == e.ctl && s'.dev == Run(s.dev, e.pulses)
  {
  }

  /** The clock settings among the pulses. */
  function Clocks(ps: seq<Pulse>): seq<nat> {
    if ps == [] then []
    else if ps[|ps| - 1].Clock? then Clocks(ps[..|ps| - 1]) + [ps[|ps| - 1].div]
    else Clocks(ps[..|ps| - 1])
  }

  lemma {:induction false} ClocksConcat(a: seq<Pulse>, b: seq<Pulse>)
    ensures Clocks(a + b) == Clocks(a) + Clocks(b)
    decreases |b|
  {
    if b == [] {
      assert a + b == a;
    } else {
      ClocksConcat(a, b[..|b| - 1]);
      assert (a + b)[..|a + b| - 1] == a + b[..|b| - 1];
    }
  }

  lemma {:induction false} NoClocks(ps: seq<Pulse>)
    requires forall i :: 0 <= i < |ps| ==> !ps[i].Clock?
    ensures Clocks(ps) == []
    decreases |ps|
  {
    if ps != [] {
      NoClocks(ps[..|ps| - 1]);
    }
  }

  /** The clock settings that the instructions among the beats make, if no command makes one. */
  function ClocksOf(ops: seq<SeqOp>): seq<nat> {
    if ops == [] then []
    else if ops[|ops| - 1].OpClock? then ClocksOf(ops[..|ops| - 1]) + [ops[|ops| - 1].div]
    else ClocksOf(ops[..|ops| - 1])
  }

  /** The clock settings that beats send. */
  function BeatClocks(bs: seq<Beat>): seq<nat> {
    if bs == [] then []
    else BeatClocks(bs[..|bs| - 1]) + ClockOf(bs[|bs| - 1])
  }

  function ClockOf(b: Beat): seq<nat> {
    match b
    case Own(OpClock(div)) => [div]
    case Serve(ClockCmd(div)) => [div % 256]
    case _ => []
  }

  lemma BeatSendsClock(pt: PulseTimes, s: Live, b: Beat)
    ensures Clocks(BeatPulses(pt, s, b)) == ClockOf(b)
  {
    BeatSends(pt, s, b);
    var ps := BeatPulses(pt, s, b);
    if ps != [] {
      assert ps == [ps[0]] && ps[..0] == [];
    }
  }

  lemma {:induction false} ReplayClocks(pt: PulseTimes, s: Track, bs: seq<Beat>)
    ensures Clocks(Replay(pt, s, bs).out) == Clocks(s.out) + BeatClocks(bs)
    decreases |bs|
  {
    if bs == [] {
      assert Clocks(s.out) + [] == Clocks(s.out);
    } else {
      var bs', b := bs[..|bs| - 1], bs[|bs| - 1];
      var s' := Replay(pt, s, bs');
      ReplayClocks(pt, s, bs');
      ClocksConcat(s'.out, BeatPulses(pt, s'.live, b));
      BeatSendsClock(pt, s'.live, b);
      SeqAssoc(Clocks(s.out), BeatClocks(bs'), ClockOf(b));
    }
  }

  predicate NoClockCmd(cmds: seq<ReqCmd>) {
    forall i :: 0 <= i < |cmds| ==> !cmds[i].ClockCmd?
  }

  lemma {:induction false} OwnClocks(bs: seq<Beat>)
    requires NoClockCmd(Serves(bs))
    ensures BeatClocks(bs) == ClocksOf(Owns(bs))
    decreases |bs|
  {
    if bs != [] {
      var bs', b := bs[..|bs| - 1], bs[|bs| - 1];
      assert NoClockCmd(Serves(bs')) by {
        if b.Serve? {
          assert forall i :: 0 <= i < |Serves(bs')| ==> Serves(bs)[i] == Serves(bs')[i];
        }
      }
      OwnClocks(bs');
      if b.Own? {
        assert Owns(bs)[..|Owns(bs')|] == Owns(bs');
      } else {
        assert b.Serve? ==> Serves(bs)[|Serves(bs')|] == b.cmd;
        assert BeatClocks(bs') + [] == BeatClocks(bs');
      }
    }
  }

  // ---------------------------------------------------------------------------------------
  // The commands served are the ones started

  /** Everything started is what had been before, and what is recorded as served. */
  ghost predicate Linked(f: Flow, before: seq<ReqCmd>) {
    f.inbox.started == before + Serves(f.track.beats)
  }

  lemma LinkedServe(k: Plan, f: Flow, left: Time, answer: Option<Word>, before: seq<ReqCmd>)
    requires Linked(f, before)
    ensures Linked(ServeNext(k, f, left, answer).flow, before)
  {
    var cmd := f.inbox.Next();
    if cmd.Some? {
      ServesNext(f.track.beats, Serve(cmd.value));
      SeqAssoc(before, Serves(f.track.beats), [cmd.value]);
    }
  }

  lemma LinkedTurn(k: Plan, f: Flow, left: Time, turn: Turn, before: seq<ReqCmd>)
    requires Linked(f, before)
    ensures Linked(TurnOf(k, f, left, turn).flow, before)
  {
    var f0 := f.(inbox := f.inbox.Arrive(turn.arrived));
    if Behind(k, f0, turn.now) {
      AheadServes(k, f0, left, turn.now);
    } else {
      ServesNext(f0.track.beats, Idle(1000));
      var o1 := Release(k, f0, left);
      LinkedServe(k, o1.flow, o1.left, turn.answer, before);
    }
  }

  lemma {:induction false} LinkedTurns(k: Plan, f: Flow, wait: Time, turns: seq<Turn>, before: seq<ReqCmd>)
    requires Linked(f, before)
    ensures Linked(WaitTurns(k, f, wait, turns).flow, before)
    decreases |turns|
  {
    if turns != [] {
      LinkedTurns(k, f, wait, turns[..|turns| - 1], before);
      var o := WaitTurns(k, f, wait, turns[..|turns| - 1]);
      LinkedTurn(k, o.flow, o.left, turns[|turns| - 1], before);
    }
  }

  lemma LinkedOne(k: Plan, f: Flow, p: Play, before: seq<ReqCmd>)
    requires Linked(f, before)
    ensures Linked(PlayedOne(k, f, p).flow, before)
  {
    var f1, rest := Started(k, f, p), Remains(k.pt, f.track.live.ctl, p.op);
    ServesNext(f.track.beats, Own(p.op));
    if rest.Some? {
      IdledServes(k.pt, f1.track, rest.value);
      ServesNext(f1.track.beats, Idle(rest.value));
      LinkedTurns(k, f1, rest.value, p.turns, before);
    }
  }

  lemma {:induction false} LinkedPlays(k: Plan, f: Flow, ps: seq<Play>, before: seq<ReqCmd>)
    requires Linked(f, before)
    ensures Linked(Played(k, f, ps).flow, before)
    decreases |ps|
  {
    if ps != [] {
      LinkedPlays(k, f, ps[..|ps| - 1], before);
      LinkedOne(k, Played(k, f, ps[..|ps| - 1]).flow, ps[|ps| - 1], before);
    }
  }

  lemma {:induction false} ServesConcat(a: seq<Beat>, b: seq<Beat>)
    ensures Serves(a + b) == Serves(a) + Serves(b)
    decreases |b|
  {
    if b == [] {
      assert a + b == a && Serves(a) + [] == Serves(a);
    } else {
      var b', x := b[..|b| - 1], b[|b| - 1];
      ServesConcat(a, b');
      assert b == b' + [x];
      SeqAssoc(a, b', [x]);
      ServesNext(a + b', x);
      ServesNext(b', x);
    }
  }

  // ---------------------------------------------------------------------------------------
  // Clock settings at the end

  lemma SuffixNoClockCmd(a: seq<ReqCmd>, b: seq<ReqCmd>)
    requires NoClockCmd(a + b)
    ensures NoClockCmd(a) && NoClockCmd(b)
  {
    assert forall i :: 0 <= i < |a| ==> (a + b)[i] == a[i];
    assert forall i :: 0 <= i < |b| ==> (a + b)[|a| + i] == b[i];
  }

  /** What a sequence serves is added to what was started. */
  lemma PlayedStarts(k: Plan, f: Flow, ps: seq<Play>, before: seq<ReqCmd>) returns (bs: seq<Beat>)
    requires Linked(f, before)
    ensures var o := Played(k, f, ps);
            && o.flow.track == Replay(k.pt, f.track, bs) && Linked(o.flow, before)
            && o.flow.inbox.started == f.inbox.started + Serves(bs)
            && (o.done ==> Owns(bs) == Ops(ps))
  {
    bs := PlaysOnTime(k, f, ps);
    LinkedPlays(k, f, ps, before);
    ReplayBeats(k.pt, f.track, bs);
    ServesConcat(f.track.beats, bs);
    SeqAssoc(before, Serves(f.track.beats), Serves(bs));
  }

  /** Without clock commands, the clock settings sent are those of the instructions. */
  lemma PlayedClocks(k: Plan, f: Flow, ps: seq<Play>, before: seq<ReqCmd>)
    requires Linked(f, before) && Played(k, f, ps).done && NoClockCmd(Played(k, f, ps).flow.inbox.started)
    ensures var o := Played(k, f, ps);
            && Clocks(o.flow.track.out) == Clocks(f.track.out) + ClocksOf(Ops(ps))
            && Linked(o.flow, before) && NoClockCmd(f.inbox.started)
  {
    var bs := PlayedStarts(k, f, ps, before);
    SuffixNoClockCmd(f.inbox.started, Serves(bs));
    ReplayClocks(k.pt, f.track, bs);
    OwnClocks(bs);
  }

  lemma {:induction false} LinkedTail(pt: PulseTimes, f: Flow, turns: seq<Turn>, before: seq<ReqCmd>)
    requires Linked(f, before)
    ensures Linked(TailAll(pt, f, turns), before)
    decreases |turns|
  {
    if turns != [] {
      LinkedTail(pt, f, turns[..|turns| - 1], before);
      var f', turn := TailAll(pt, f, turns[..|turns| - 1]), turns[|turns| - 1];
      var cmd := f'.inbox.Arrive(turn.arrived).Next();
      if cmd.Some? {
        ServesNext(f'.track.beats, Serve(cmd.value));
        SeqAssoc(before, Serves(f'.track.beats), [cmd.value]);
      }
    }
  }

  lemma {:induction false} TailClocks(pt: PulseTimes, f: Flow, turns: seq<Turn>)
    requires NoClockCmd(TailAll(pt, f, turns).inbox.started)
    ensures Clocks(TailAll(pt, f, turns).track.out) == Clocks(f.track.out)
    ensures NoClockCmd(f.inbox.started)
    decreases |turns|
  {
    if turns != [] {
      var f', turn := TailAll(pt, f, turns[..|turns| - 1]), turns[|turns| - 1];
      var cmd, f'' := f'.inbox.Arrive(turn.arrived).Next(), TailAll(pt, f, turns);
      if cmd.Some? {
        SuffixNoClockCmd(f'.inbox.started, [cmd.value]);
      }
      TailClocks(pt, f, turns[..|turns| - 1]);
      if cmd.Some? {
        assert [cmd.value][0] == cmd.value;
        ClocksConcat(f'.track.out, RunCmd(pt, f'.track.live.ctl, cmd.value).pulses);
        BeatSendsClock(pt, f'.track.live, Serve(cmd.value));
        assert Clocks(f'.track.out) + [] == Clocks(f'.track.out);
      }
    }
  }

  lemma {:induction false} ChecksClocks(b: Base, existing: set<Channel>, n: nat, forget: bool)
    requires n <= NUM_DDS
    ensures Clocks(CheckUpTo(b, existing, n, forget).out) == Clocks(b.out)
  {
    var sent := ChecksSend(b, existing, n, forget, 0);
    NoClocks(sent);
    ClocksConcat(b.out, sent);
    assert Clocks(b.out) + [] == Clocks(b.out);
  }

  lemma OpsOfTwo(a: Play, b: Play)
    ensures Ops([a]) == [a.op] && Ops([a, b]) == [a.op, b.op]
  {
    assert [a][..0] == [] && [a, b][..1] == [a];
    assert Ops([]) == [];
  }

  lemma ClocksOfTwo(a: SeqOp, b: SeqOp)
    requires !a.OpClock?
    ensures ClocksOf([a]) == [] && ClocksOf([a, b]) == if b.OpClock? then [b.div] else []
  {
    assert [a][..0] == [] && [a, b][..1] == [a];
    assert ClocksOf([]) == [];
  }

  lemma WoundClocks(b: Base, existing: set<Channel>)
    ensures Clocks(Wound(b, existing).out) == Clocks(b.out)
  {
    var b' := Base(b.ctl, Run(b.dev, [ClearErr]), b.out + [ClearErr], b.inbox);
    NoClocks([ClearErr]);
    ClocksConcat(b.out, [ClearErr]);
    assert Clocks(b.out) + [] == Clocks(b.out);
    ChecksClocks(b', existing, NUM_DDS, false);
  }

  lemma FlushOps(pt: PulseTimes, isCmd: bool, w: SeqWorld)
    ensures ClocksOf(Ops(FlushPlays(pt, isCmd, w))) == if isCmd then [] else [9]
  {
    var a, b := Play(OpWait(pt.min), w.flushing, 0), Play(OpClock(9), [], 0);
    OpsOfTwo(a, b);
    ClocksOfTwo(a.op, b.op);
    assert FlushPlays(pt, isCmd, w) == if isCmd then [a] else [a, b];
  }

  lemma RestOps(w: SeqWorld)
    ensures ClocksOf(Ops(RestPlays(w))) == [255]
  {
    var a, b := Play(OpWait(1_000_000), w.resting, 0), Play(OpClock(255), [], 0);
    OpsOfTwo(a, b);
    ClocksOfTwo(a.op, b.op);
  }

  /** The clock settings of the first part of the end. */
  lemma FlushClocks(k: Plan, f: Flow, isCmd: bool, w: SeqWorld, before: seq<ReqCmd>, o: Outcome, f': Flow)
    requires Linked(f, before) && o == Played(k, f, FlushPlays(k.pt, isCmd, w)) && o.done
    requires f' == TailAll(k.pt, o.flow, w.ending) && NoClockCmd(f'.inbox.started)
    ensures Clocks(f'.track.out) == Clocks(f.track.out) + (if isCmd then [] else [9])
  {
    TailClocks(k.pt, o.flow, w.ending);
    PlayedClocks(k, f, FlushPlays(k.pt, isCmd, w), before);
    FlushOps(k.pt, isCmd, w);
  }

  /** The clock setting of an experiment's second part. */
  lemma RestClocks(k: Plan, f: Flow, w: SeqWorld, before: seq<ReqCmd>)
    requires Linked(f, before) && Rested(k, f, false, w).done && NoClockCmd(Rested(k, f, false, w).base.inbox.started)
    ensures Clocks(Rested(k, f, false, w).base.out) == Clocks(f.track.out) + [255] && NoClockCmd(f.inbox.started)
  {
    var f2 := f.(processCmd := true);
    assert Linked(f2, before);
    PlayedClocks(k, f2, RestPlays(w), before);
    RestOps(w);
  }

  lemma WoundKeepsInbox(b: Base, existing: set<Channel>)
    ensures Wound(b, existing).inbox == b.inbox
  {
    ChecksKeepInbox(Base(b.ctl, Run(b.dev, [ClearErr]), b.out + [ClearErr], b.inbox), existing, NUM_DDS, false);
  }

  /** Main result: at the end of an experiment the clock is set to 9 and then to 255, and at the end of a
      command list not at all, if no clock command has been started. */
  lemma EndClocks(k: Plan, f: Flow, isCmd: bool, w: SeqWorld, before: seq<ReqCmd>)
    requires Linked(f, before)
    ensures var e := Finished(k, f, isCmd, w);
            e.done && NoClockCmd(e.base.inbox.started) ==>
              Clocks(e.base.out) == Clocks(f.track.out) + if isCmd then [] else [9, 255]
  {
    var e := Finished(k, f, isCmd, w);
    if e.done && NoClockCmd(e.base.inbox.started) {
      var o := Played(k, f, FlushPlays(k.pt, isCmd, w));
      var f' := TailAll(k.pt, o.flow, w.ending);
      var r := Rested(k, f', isCmd, w);
      WoundClocks(r.base, w.existing);
      WoundKeepsInbox(r.base, w.existing);
      if isCmd {
        FlushClocks(k, f, isCmd, w, before, o, f');
      } else {
        LinkedPlays(k, f, FlushPlays(k.pt, isCmd, w), before);
        LinkedTail(k.pt, o.flow, w.ending, before);
        RestClocks(k, f', w, before);
        FlushClocks(k, f, isCmd, w, before, o, f');
        assert (Clocks(f.track.out) + [9]) + [255] == Clocks(f.track.out) + [9, 255];
      }
    }
  }

  // ---------------------------------------------------------------------------------------
  // Waits and checks at the end

  /** An experiment rests for 10ms, serving commands, before its last clock setting. */
  lemma RestTakes(k: Plan, f: Flow, w: SeqWorld)
    ensures var o := Played(k, f, RestPlays(w));
            o.done ==> o.flow.track.t == f.track.t + 1_000_000 + k.pt.clock + o.wraps * TWO_64
  {
    var a, b := Play(OpWait(1_000_000), w.resting, 0), Play(OpClock(255), [], 0);
    assert RestPlays(w)[..1] == [a] && [a][..0] == [];
    assert Played(k, f, []) == Outcome(f, 0, true, 0);
    var bs1 := OneBalances(k, f, a);
    var o1 := PlayedOne(k, f, a);
    assert Played(k, f, [a]) == o1;
    if o1.done {
      var bs2 := OneBalances(k, o1.flow, b);
    }
  }

  /** While it rests, a turn ahead of the clock starts the next command. */
  lemma RestServes(k: Plan, f: Flow, w: SeqWorld)
    requires InOrder(f.inbox) && !f.inbox.waiting && f.inbox.Pending() != [] && |w.resting| == 1
    requires w.resting[0].now + k.minT <= f.startT + f.track.t * 10
    ensures var e := Rested(k, f, false, w);
            f.inbox.started + [f.inbox.Pending()[0]] <= e.base.inbox.started
  {
    var f1 := Started(k, f.(processCmd := true), Play(OpWait(1_000_000), w.resting, 0));
    var a, b := Play(OpWait(1_000_000), w.resting, 0), Play(OpClock(255), [], 0);
    OwnTime(k.pt, f.track.live, a.op);
    assert RestPlays(w)[..1] == [a] && [a][..0] == [];
    assert Played(k, f.(processCmd := true), []) == Outcome(f.(processCmd := true), 0, true, 0);
    assert w.resting[..0] == [];
    assert WaitTurns(k, f1, 1_000_000, []) == Outcome(f1, 1_000_000, false, 0);
    assert WaitTurns(k, f1, 1_000_000, w.resting).flow == TurnOf(k, f1, 1_000_000, w.resting[0]).flow;
    assert !PlayedOne(k, f.(processCmd := true), a).done;
    assert f1.track.t == f.track.t && !Behind(k, f1, w.resting[0].now);
    var i, turn := f.inbox.Arrive(w.resting[0].arrived), w.resting[0];
    assert i.Next() == Some(f.inbox.Pending()[0]);
    assert TurnOf(k, f1, 1_000_000, turn).flow.inbox == i.Pump(turn.answer);
    assert Played(k, f.(processCmd := true), RestPlays(w)).flow == PlayedOne(k, f.(processCmd := true), a).flow by {
      assert Played(k, f.(processCmd := true), [a]) == PlayedOne(k, f.(processCmd := true), a);
    }
  }

  /** At the very end errors are cleared, and then, unless a read waits, pending resets of the existing
      channels are sent and carried out. */
  lemma EndChecks(k: Plan, f: Flow, isCmd: bool, w: SeqWorld, chn: Channel) returns (b: Base, sent: seq<Pulse>)
    ensures var e := Finished(k, f, isCmd, w);
            e.done ==>
              && e.base.out == (b.out + [ClearErr]) + sent && e.base.inbox == b.inbox
              && (DDSReset(chn) in sent <==> !b.inbox.waiting && chn in w.existing && b.ctl.pendingReset[chn])
              && (!b.inbox.waiting && chn in w.existing ==> !e.base.ctl.pendingReset[chn])
  {
    var o := Played(k, f, FlushPlays(k.pt, isCmd, w));
    b := Rested(k, TailAll(k.pt, o.flow, w.ending), isCmd, w).base;
    var b' := Base(b.ctl, Run(b.dev, [ClearErr]), b.out + [ClearErr], b.inbox);
    sent := ChecksSend(b', w.existing, NUM_DDS, false, chn);
    ChecksReset(b', w.existing, NUM_DDS, false, chn);
    ChecksKeepInbox(b', w.existing, NUM_DDS, false);
    if b.inbox.waiting {
      sent := [];
      assert b'.out + [] == b'.out;
    }
  }
}
