/** What the worker's rounds and sequence runs do, in terms of pulses, registers and outputs
    (lib/controller.cpp): laws that the specification of the worker has to meet. */
module WorkLaws {
  import opened Pulses
  import opened Backend
  import opened Timeline
  import opened Service
  import opened SeqEffects
  import opened Instructions
  import opened WorkLoop

  // ---------------------------------------------------------------------------------------
  // Outputs that do not belong to a sequence

  /** The runner keeps exactly the outputs outside its mask. */
  ghost predicate Keeps(s: Live) {
    forall bank: Bank, i: nat :: i in s.preserve[bank] <==> i in s.ctl.ttl[bank] && i !in s.mask[bank]
  }

  /** An output as these set commands leave it, the last that names it deciding. */
  function LastSet(was: bool, cmds: seq<ReqCmd>, bank: Bank, i: nat): bool {
    if cmds == [] then was
    else
      var cmd := cmds[|cmds| - 1];
      if cmd.TtlCmd? && cmd.bank == bank && i in cmd.mask then cmd.high
      else LastSet(was, cmds[..|cmds| - 1], bank, i)
  }

  lemma {:induction false} SetsAreLast(ttl: seq<Bits>, cmds: seq<ReqCmd>, bank: Bank, i: nat)
    requires |ttl| == NUM_TTL_BANKS
    ensures i in SetsOf(ttl, cmds)[bank] <==> LastSet(i in ttl[bank], cmds, bank, i)
    decreases |cmds|
  {
    if cmds != [] {
      SetsAreLast(ttl, cmds[..|cmds| - 1], bank, i);
    }
  }

  lemma KeepsOutside(s: Live)
    requires Keeps(s)
    ensures s.preserve == Outside(s.ctl.ttl, s.mask)
  {
    forall bank | 0 <= bank < NUM_TTL_BANKS ensures s.preserve[bank] == Outside(s.ctl.ttl, s.mask)[bank] {
      var b: Bank := bank;
      forall i: nat ensures i in s.preserve[b] <==> i in Outside(s.ctl.ttl, s.mask)[b] {
      }
    }
  }

  /** A sequence, as the worker starts it. */
  ghost predicate Starts(s: Show) {
    Proper(s) && Keeps(s.start.track.live) && !s.start.released && !s.start.inbox.waiting
  }

  lemma RunStarts(pt: PulseTimes, b: Base, r: SeqReq, w: SeqWorld)
    requires r.Valid() && InOrder(b.inbox)
    ensures var run := RunOf(pt, b, r, w);
            run.show.Some? ==>
              var s := run.show.value;
              && Starts(s) && s.plays == r.plays && s.start.track.live.mask == r.mask
              && s.start.track.out == b.out && s.start.track.live.dev == b.dev && s.start.track.live.ctl.ttl == b.dev.ttl
              && s.start.startT == w.now && (s.start.processCmd <==> r.lenNs > 1_000_000_000)
              && s.plan.pt == pt && s.plan.minT >= 500_000_000 && s.plan.minT >= 20 * w.coarseRes
              && (s.plan.minT == 500_000_000 || s.plan.minT == 20 * w.coarseRes)
  {
    if Ready(b.inbox, w.answers) && b.inbox.waiting {
      var j :| 0 <= j < |w.answers| - 1 && w.answers[j].Some?;
      AnswerComes(w.answers, j);
    }
  }

  /** The read that waits when a sequence is to start is completed with the first answer. */
  lemma SettledCompletes(i: Inbox, answers: seq<Option<Word>>, n: nat)
    requires InOrder(i) && i.waiting && n < |answers| && answers[n].Some? && forall j :: 0 <= j < n ==> answers[j].None?
    ensures var i' := Settled(i, answers);
            && !i'.waiting && i'.filter == i.filter + 1 && |i'.queue| == |i.queue|
            && i'.queue[i.filter] == i.queue[i.filter].(val := answers[n].value)
            && (forall j :: 0 <= j < |i.queue| && j != i.filter ==> i'.queue[j] == i.queue[j])
            && i'.started == i.started && i'.came == i.came
  {
    FirstAnswerAt(answers, n);
  }

  lemma {:induction false} AnswerComes(answers: seq<Option<Word>>, j: nat)
    requires j < |answers| && answers[j].Some?
    ensures FirstAnswer(answers).Some?
    decreases j
  {
    if answers[0].None? {
      AnswerComes(answers[1..], j - 1);
    }
  }

  /** A job and a round leave only sequences that start like that. */
  lemma {:induction false} WorkStarts(pt: PulseTimes, b: Base, rounds: seq<Round>)
    requires InOrder(b.inbox) && forall i :: 0 <= i < |rounds| ==> rounds[i].Valid()
    ensures forall j :: 0 <= j < |WorkOf(pt, b, rounds).shows| ==> Starts(WorkOf(pt, b, rounds).shows[j])
    decreases |rounds|
  {
    if rounds != [] {
      var rounds', r := rounds[..|rounds| - 1], rounds[|rounds| - 1];
      var w := WorkOf(pt, b, rounds');
      WorkStarts(pt, b, rounds');
      WorkInOrder(pt, b, rounds');
      var b' := w.base.(inbox := w.base.inbox.Arrive(r.arrived));
      ArriveInOrder(w.base.inbox, r.arrived);
      if r.job.Some? && !r.job.value.cancelled {
        RunStarts(pt, b', r.job.value.req, r.job.value.world);
      }
    }
  }

  /** A sequence that writes inside its mask leaves every other output, bit by bit, where the set
      commands served while it played leave it. */
  lemma ShowLeavesOthers(s: Show, bank: Bank, i: nat)
    requires Starts(s) && PlaysInside(s.start.track.live.mask, s.plays) && i !in s.start.track.live.mask[bank]
    ensures var o := s.outcome.flow.track;
            i in o.live.ctl.ttl[bank] <==> LastSet(i in s.start.track.live.ctl.ttl[bank], Serves(o.beats), bank, i)
  {
    var l, l' := s.start.track.live, s.outcome.flow.track.live;
    KeepsOutside(l);
    var bs := SequenceEffects(s.plan, s.start, s.plays);
    assert [] + bs == bs;
    SetsAreLast(l.ctl.ttl, Serves(bs), bank, i);
    assert Outside(l'.ctl.ttl, l.mask)[bank] == Outside(SetsOf(l.ctl.ttl, Serves(bs)), l.mask)[bank];
    assert i in Outside(l'.ctl.ttl, l.mask)[bank] <==> i in l'.ctl.ttl[bank];
    assert i in Outside(SetsOf(l.ctl.ttl, Serves(bs)), l.mask)[bank] <==> i in SetsOf(l.ctl.ttl, Serves(bs))[bank];
    assert s.outcome.flow.track.beats == bs;
  }

  /** Main result: over every run of the worker, no sequence that writes inside its mask changes an
      output outside it; only set commands do, and the last one that names it decides. */
  lemma WorkLeavesOthers(pt: PulseTimes, b: Base, rounds: seq<Round>, j: nat, bank: Bank, i: nat)
    requires InOrder(b.inbox) && forall i :: 0 <= i < |rounds| ==> rounds[i].Valid()
    requires j < |WorkOf(pt, b, rounds).shows|
    ensures var s := WorkOf(pt, b, rounds).shows[j];
            PlaysInside(s.start.track.live.mask, s.plays) && i !in s.start.track.live.mask[bank] ==>
              var o := s.outcome.flow.track;
              i in o.live.ctl.ttl[bank] <==> LastSet(i in s.start.track.live.ctl.ttl[bank], Serves(o.beats), bank, i)
  {
    WorkStarts(pt, b, rounds);
    var s := WorkOf(pt, b, rounds).shows[j];
    if PlaysInside(s.start.track.live.mask, s.plays) && i !in s.start.track.live.mask[bank] {
      ShowLeavesOthers(s, bank, i);
    }
  }

  // ---------------------------------------------------------------------------------------
  // Rounds and resets

  /** A DDS channel as a reset leaves it. */
  ghost predicate IsReset(b: Base, chn: Channel) {
    && b.ctl.ovr[chn].freq == None && b.ctl.ovr[chn].amp == None && b.ctl.ovr[chn].phase == None
    && b.ctl.phase[chn] == 0 && !b.ctl.pendingReset[chn]
    && forall p :: b.dev.dds[chn].Get(p) == 0
  }

  /** What checking the channels sends: resets of those with one pending, and nothing else. */
  lemma {:induction false} ChecksSend(b: Base, existing: set<Channel>, n: nat, forget: bool, chn: Channel)
    returns (sent: seq<Pulse>)
    requires n <= NUM_DDS
    ensures CheckUpTo(b, existing, n, forget).out == b.out + sent
    ensures DDSReset(chn) in sent <==> chn < n && chn in existing && b.ctl.pendingReset[chn]
    ensures forall i :: 0 <= i < |sent| ==> sent[i].DDSReset?
  {
    if n == 0 {
      sent := [];
    } else {
      var b' := CheckUpTo(b, existing, n - 1, forget);
      var before := ChecksSend(b, existing, n - 1, forget, chn);
      var k: Channel := n - 1;
      ChecksReset(b, existing, n - 1, forget, k);
      var more := if k in existing && b'.ctl.pendingReset[k] then [DDSReset(k)] else [];
      sent := before + more;
      SeqAssoc(b.out, before, more);
      assert b'.out + [] == b'.out;
    }
  }

  /** If no read waits and the reset of an existing channel is pending, a round sends the reset and has
      the channel reset before it serves a command. */
  lemma RoundResets(pt: PulseTimes, b: Base, existing: set<Channel>, due: bool, finished: bool,
                    answer: Option<Word>, chn: Channel) returns (b2: Base, sent: seq<Pulse>, more: seq<Pulse>)
    requires !b.inbox.waiting && chn in existing && b.ctl.pendingReset[chn]
    ensures b2.out == b.out + sent && DDSReset(chn) in sent && IsReset(b2, chn) && b2.inbox == b.inbox
    ensures var cmd := b.inbox.Next();
            CommandRound(pt, b, existing, due, finished, answer).out ==
            (b2.out + if cmd.Some? then RunCmd(pt, b2.ctl, cmd.value).pulses else []) + more
  {
    var b1 := if finished then Synced(b) else b;
    assert AnyReset(b1.ctl);
    b2 := Detected(b1, existing, due);
    sent := ChecksSend(b1, existing, NUM_DDS, true, chn);
    ChecksReset(b1, existing, NUM_DDS, true, chn);
    ChecksKeepInbox(b1, existing, NUM_DDS, true);
    var b3 := Pumped(pt, b2, answer);
    var after := ChecksSend(b3, existing, NUM_DDS, true, chn);
    assert b2.out + [] == b2.out && b3.out + [] == b3.out;
    more := if b3.inbox.waiting || !(due || AnyReset(b3.ctl)) then [] else after;
  }

  /** After a round that ends with no read waiting, no reset is pending anywhere. */
  lemma RoundLeavesNoReset(pt: PulseTimes, b: Base, existing: set<Channel>, due: bool, finished: bool,
                           answer: Option<Word>, chn: Channel)
    ensures var b' := CommandRound(pt, b, existing, due, finished, answer);
            !b'.inbox.waiting ==> !b'.ctl.pendingReset[chn]
  {
    var b1 := if finished then Synced(b) else b;
    var b2 := if b1.inbox.waiting then b1 else Detected(b1, existing, due);
    var b3 := Pumped(pt, b2, answer);
    ChecksReset(b3, existing, NUM_DDS, true, chn);
    ChecksKeepInbox(b3, existing, NUM_DDS, true);
  }

  /** The second checks of a round, with nothing pending before its command. */
  lemma ChecksFollow(b: Base, existing: set<Channel>, due: bool, cmd: Option<ReqCmd>) returns (more: seq<Pulse>)
    requires forall chn: Channel :: b.ctl.pendingReset[chn] <==> cmd == Some(ResetCmd(chn))
    ensures Detected(b, existing, due).out == b.out + more
    ensures forall p :: p in more ==> p.DDSReset? && cmd == Some(ResetCmd(p.chn)) && p.chn in existing
    ensures cmd.Some? && cmd.value.ResetCmd? && cmd.value.chn in existing ==> DDSReset(cmd.value.chn) in more
  {
    if cmd.Some? && cmd.value.ResetCmd? {
      assert b.ctl.pendingReset[cmd.value.chn];
      more := ResetFollows(b, existing, cmd.value.chn);
    } else {
      NothingPending(b, existing, NUM_DDS);
      more := [];
      assert b.out + [] == b.out;
    }
  }

  lemma PumpedSends(pt: PulseTimes, b: Base, answer: Option<Word>)
    ensures var b', cmd := Pumped(pt, b, answer), b.inbox.Next();
            && b'.out == b.out + (if cmd.Some? then RunCmd(pt, b.ctl, cmd.value).pulses else [])
            && forall chn: Channel :: b'.ctl.pendingReset[chn] <==> b.ctl.pendingReset[chn] || cmd == Some(ResetCmd(chn))
  {
    assert b.out + [] == b.out;
  }

  /** With nothing pending, a round sends what its command sends; if that is the reset of an existing
      channel, the reset itself follows in the same round. */
  lemma QuietRound(pt: PulseTimes, b: Base, existing: set<Channel>, due: bool, finished: bool, answer: Option<Word>)
    returns (more: seq<Pulse>)
    requires forall chn: Channel :: !b.ctl.pendingReset[chn]
    ensures var b', cmd := CommandRound(pt, b, existing, due, finished, answer), b.inbox.Next();
            var c := if finished then b.ctl.(ttl := b.dev.ttl) else b.ctl;
            && b'.out == (b.out + if cmd.Some? then RunCmd(pt, c, cmd.value).pulses else []) + more
            && (forall p :: p in more ==> p.DDSReset? && cmd == Some(ResetCmd(p.chn)) && p.chn in existing)
            && (cmd.Some? && cmd.value.ResetCmd? && cmd.value.chn in existing ==> DDSReset(cmd.value.chn) in more)
  {
    var b1 := if finished then Synced(b) else b;
    NothingPending(b1, existing, NUM_DDS);
    var b3, cmd := Pumped(pt, b1, answer), b.inbox.Next();
    PumpedSends(pt, b1, answer);
    if b3.inbox.waiting {
      more := [];
      assert b3.out + [] == b3.out;
    } else {
      more := ChecksFollow(b3, existing, due, cmd);
    }
  }

  /** Checks with one reset pending. */
  lemma ResetFollows(b: Base, existing: set<Channel>, chn: Channel) returns (sent: seq<Pulse>)
    requires forall k: Channel :: b.ctl.pendingReset[k] <==> k == chn
    ensures CheckUpTo(b, existing, NUM_DDS, true).out == b.out + sent
    ensures chn in existing ==> DDSReset(chn) in sent
    ensures forall p :: p in sent ==> p == DDSReset(chn) && chn in existing
  {
    sent := ChecksSend(b, existing, NUM_DDS, true, chn);
    var out := CheckUpTo(b, existing, NUM_DDS, true).out;
    assert sent == out[|b.out|..];
    forall p | p in sent ensures p == DDSReset(chn) && chn in existing {
      var again := ChecksSend(b, existing, NUM_DDS, true, p.chn);
      assert again == out[|b.out|..];
    }
  }

  lemma {:induction false} NothingPending(b: Base, existing: set<Channel>, n: nat)
    requires n <= NUM_DDS && forall chn: Channel :: !b.ctl.pendingReset[chn]
    ensures CheckUpTo(b, existing, n, true) == b
  {
    if n > 0 {
      NothingPending(b, existing, n - 1);
      assert b.out + [] == b.out;
      assert b.ctl.pendingReset[n - 1 := false] == b.ctl.pendingReset;
    }
  }

  /** A round of a worker whose pulser has finished starts from the pulser's outputs, and reports a
      mismatch exactly if one of them differs from the controller's. */
  lemma RoundSyncs(pt: PulseTimes, b: Base, existing: set<Channel>, due: bool, answer: Option<Word>)
    ensures var b' := CommandRound(pt, b, existing, due, true, answer);
            b'.ctl.ttl == b'.dev.ttl && (b.inbox.Next().None? ==> b'.dev.ttl == b.dev.ttl)
    ensures Differs(b) <==> exists bank: Bank :: b.ctl.ttl[bank] != b.dev.ttl[bank]
  {
    var b1 := Synced(b);
    var b2 := if b1.inbox.waiting then b1 else Detected(b1, existing, due);
    DetectKeepsTtl(b1, existing, due);
    PumpedSyncs(pt, b2, answer);
    DetectKeepsTtl(Pumped(pt, b2, answer), existing, due);
    if forall bank: Bank :: b.ctl.ttl[bank] == b.dev.ttl[bank] {
      assert b.ctl.ttl == b.dev.ttl;
    }
  }

  lemma DetectKeepsTtl(b: Base, existing: set<Channel>, due: bool)
    ensures var b' := Detected(b, existing, due);
            b'.ctl.ttl == b.ctl.ttl && b'.dev.ttl == b.dev.ttl && b'.inbox == b.inbox
  {
    ChecksReset(b, existing, NUM_DDS, true, 0);
    ChecksKeepInbox(b, existing, NUM_DDS, true);
  }

  lemma PumpedSyncs(pt: PulseTimes, b: Base, answer: Option<Word>)
    requires b.ctl.ttl == b.dev.ttl
    ensures var b' := Pumped(pt, b, answer);
            b'.ctl.ttl == b'.dev.ttl && (b.inbox.Next().None? ==> b'.dev.ttl == b.dev.ttl)
  {
    var cmd := b.inbox.Next();
    if cmd.Some? {
      var e := RunCmd(pt, b.ctl, cmd.value);
      if e.pulses != [] {
        assert e.pulses == [e.pulses[0]];
        RunOne(b.dev, e.pulses[0]);
      }
    }
  }

  /** Main result about resets: in every run of the worker, once a round has ended with no read waiting,
      no reset is pending. */
  lemma WorkLeavesNoReset(pt: PulseTimes, b: Base, rounds: seq<Round>, chn: Channel)
    requires rounds != [] && forall i :: 0 <= i < |rounds| ==> rounds[i].Valid()
    ensures var w := WorkOf(pt, b, rounds);
            w.done && !w.base.inbox.waiting ==> !w.base.ctl.pendingReset[chn]
  {
    var w, r := WorkOf(pt, b, rounds[..|rounds| - 1]), rounds[|rounds| - 1];
    if w.done {
      var s := JobDone(pt, w.base.(inbox := w.base.inbox.Arrive(r.arrived)), r.job);
      RoundLeavesNoReset(pt, s.base, r.existing, r.due, r.finished, r.answer, chn);
    }
  }
}
