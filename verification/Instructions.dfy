/** What single instructions and waits send, pulse by pulse (the runner of lib/controller.cpp): laws that
    the runner's specification has to meet. */
module Instructions {
  import opened Pulses
  import opened Backend
  import opened Timeline

  lemma {:induction false} ReplayGrows(pt: PulseTimes, s: Track, bs: seq<Beat>)
    ensures s.out <= Replay(pt, s, bs).out
    decreases |bs|
  {
    if bs != [] {
      ReplayGrows(pt, s, bs[..|bs| - 1]);
    }
  }

  lemma OneGrows(k: Plan, f: Flow, p: Play)
    ensures Beaten(k.pt, f.track, Own(p.op)).out <= PlayedOne(k, f, p).flow.track.out
  {
    var bs := OneBalances(k, f, p);
    ReplayGrows(k.pt, Beaten(k.pt, f.track, Own(p.op)), bs);
  }

  /** Instructions that are one pulse send that pulse, with its own arguments, and a trigger restarts the
      time and the start time. */
  lemma PulsesSent(k: Plan, f: Flow, p: Play)
    ensures var o := PlayedOne(k, f, p);
            match p.op
            case OpDac(dac, v) => o.done && o.flow.track.out == f.track.out + [DAC(dac, v)]
            case OpClock(div) => o.done && o.flow.track.out == f.track.out + [Clock(div)]
            case OpTrigger(input, raise, timeout) =>
              && o.done && o.flow.track.out == f.track.out + [Trigger(input, raise, timeout)]
              && o.flow.track.t == 0 && o.flow.startT == p.now
            case _ => true
    ensures !p.op.OpTrigger? && PlayedOne(k, f, p).done && Remains(k.pt, f.track.live.ctl, p.op).None? ==>
              PlayedOne(k, f, p).flow.startT == f.startT
  {
  }

  /** The output is to be high, by what the write asks for. */
  predicate Asked(s: Live, op: SeqOp, i: nat)
    requires op.OpTtl? || op.OpTtl1?
  {
    if op.OpTtl? then i in op.bits else if i == op.full % 32 then op.high else i in s.ctl.ttl[0]
  }

  /** A TTL write starts with one pulse, of the whole time if that is short and else of 100 steps. It
      sets the outputs asked for, and those that are kept. */
  lemma TtlSent(k: Plan, f: Flow, p: Play, i: nat) returns (v: Bits)
    requires p.op.OpTtl? || p.op.OpTtl1?
    ensures var o, s := PlayedOne(k, f, p), f.track.live;
            var bank: Bank := if p.op.OpTtl? then p.op.bank else 0;
            && f.track.out + [TTL(v, if p.op.time <= 1000 then p.op.time else 100, bank)] <= o.flow.track.out
            && (p.op.time <= 1000 ==> o.done && |o.flow.track.out| == |f.track.out| + 1)
            && (i in v <==> Asked(s, p.op, i) || i in s.preserve[bank])
  {
    var s := f.track.live;
    if p.op.OpTtl? {
      v := p.op.bits + s.preserve[p.op.bank];
    } else {
      assert Ttl1Bank(p.op.full) == 0;
      v := Ttl1Value(s.ctl.ttl[0], p.op.full, p.op.high) + s.preserve[0];
    }
    OneGrows(k, f, p);
  }

  /** A DDS write is its own pulse if the register is not overridden, and otherwise only a wait. */
  lemma DdsSent(k: Plan, f: Flow, p: Play)
    requires p.op.OpDds? || p.op.OpShift?
    ensures var o, c := PlayedOne(k, f, p), f.track.live.ctl;
            var q := if p.op.OpDds? then p.op.p else Phase;
            var word: Word := if p.op.OpShift? then (c.phase[p.op.chn] + p.op.delta) % 65536
                              else if p.op.p == Freq then p.op.word else p.op.word % 65536;
            if c.ovr[p.op.chn].Get(q).None? then
              o.done && o.flow.track.out == f.track.out + [DDSSet(q, p.op.chn, word)]
            else
              o == WaitFor(k, Started(k, f, p), ParamTime(k.pt, q), p.turns) && Started(k, f, p).track.out == f.track.out
  {
  }

  // ---------------------------------------------------------------------------------------
  // Waits

  predicate OnlyWaits(ps: seq<Pulse>) {
    forall i :: 0 <= i < |ps| ==> ps[i].Wait?
  }

  lemma {:induction false} IdlesSend(pt: PulseTimes, s: Track, ts: seq<nat>) returns (sent: seq<Pulse>)
    ensures Replay(pt, s, Idles(ts)).out == s.out + sent && OnlyWaits(sent) && |sent| == |ts|
    ensures forall i :: 0 <= i < |sent| ==> sent[i] == Pulse.Wait(ts[i])
    decreases |ts|
  {
    if ts == [] {
      sent := [];
    } else {
      var b := Idle(ts[0]);
      ReplayConcat(pt, s, [b], Idles(ts[1..]));
      OneBeat(pt, s, b);
      var rest := IdlesSend(pt, Beaten(pt, s, b), ts[1..]);
      sent := [Pulse.Wait(ts[0])] + rest;
      SeqAssoc(s.out, [Pulse.Wait(ts[0])], rest);
    }
  }

  lemma IdledSends(pt: PulseTimes, s: Track, t: nat) returns (sent: seq<Pulse>)
    ensures Idled(pt, s, t).out == s.out + sent && OnlyWaits(sent)
  {
    sent := IdlesSend(pt, s, Pieces(t));
  }

  /** A wait of a short sequence, and a short wait of a long one, serve nobody: all that is sent is the
      wait, in pieces or as one. */
  lemma PlainWait(k: Plan, f: Flow, wait: Time, turns: seq<Turn>) returns (sent: seq<Pulse>)
    requires !f.processCmd || wait < 2000
    ensures var o := WaitFor(k, f, wait, turns);
            && o.done && o.wraps == 0 && o.flow == f.(track := o.flow.track)
            && o.flow.track.out == f.track.out + sent && OnlyWaits(sent)
            && (f.processCmd ==> sent == [Pulse.Wait(wait)])
            && (!f.processCmd ==> |sent| == |Pieces(wait)|)
            && (forall i :: 0 <= i < |sent| && !f.processCmd ==> sent[i] == Pulse.Wait(Pieces(wait)[i]))
  {
    if !f.processCmd {
      sent := IdlesSend(k.pt, f.track, Pieces(wait));
    } else {
      sent := [Pulse.Wait(wait)];
    }
  }

  /** A short sequence is played to its end, and serves no command. */
  lemma {:induction false} ShortSequence(k: Plan, f: Flow, ps: seq<Play>)
    requires !f.processCmd
    ensures var o := Played(k, f, ps);
            o.done && o.wraps == 0 && o.flow.inbox == f.inbox && !o.flow.processCmd && o.flow.released == f.released
    decreases |ps|
  {
    if ps != [] {
      ShortSequence(k, f, ps[..|ps| - 1]);
      var o, p := Played(k, f, ps[..|ps| - 1]), ps[|ps| - 1];
      var rest := Remains(k.pt, o.flow.track.live.ctl, p.op);
      if rest.Some? {
        var sent := PlainWait(k, Started(k, o.flow, p), rest.value, p.turns);
      }
    }
  }

  /** The lead to play, when the sequence is late by `late`: 2^64 less that, in steps of 10ns. */
  lemma LeadWraps(seqRt: nat, late: nat)
    requires 0 < late <= TWO_64 - 100000
    ensures MinSeqT(seqRt, seqRt + late) == (TWO_64 - late) / 10
  {
    var behind: int := late;
    assert -behind % TWO_64 == TWO_64 - behind;
  }

  /** Playing ahead ends a wait exactly if no more than 3000 steps would be left; otherwise the lead is
      taken off it. Only waits are sent. */
  lemma AheadEnds(k: Plan, f: Flow, left: Time, now: nat) returns (sent: seq<Pulse>)
    requires Behind(k, f, now)
    ensures var o, lead := Ahead(k, f, left, now), MinSeqT(f.startT + f.track.t * 10, now + k.minT);
            && (o.done <==> left <= lead + 3000) && o.left == (if o.done then 0 else left - lead)
            && o.flow == f.(track := o.flow.track)
            && o.flow.track.out == f.track.out + sent && OnlyWaits(sent)
  {
    var lead := MinSeqT(f.startT + f.track.t * 10, now + k.minT);
    sent := IdledSends(k.pt, f.track, if left <= lead + 3000 then left else lead);
  }
}
