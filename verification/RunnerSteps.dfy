/** The runner's specification, in the steps in which the code takes it (lib/controller.cpp): single
    instructions, the pieces of a wait, commands, and loops that end early. */
module RunnerSteps {
  import opened Pulses
  import opened Backend
  import opened Timeline

  /** The TTL write of an instruction: the outputs and the bank. */
  predicate WritesTtl(s: Live, op: SeqOp, bits: Bits, bank: Bank) {
    || (op.OpTtl? && op.bits == bits && op.bank == bank)
    || (op.OpTtl1? && bank == Ttl1Bank(op.full) && bits == Ttl1Value(s.ctl.ttl[bank], op.full, op.high))
  }

  lemma OwnTtl(pt: PulseTimes, s: Track, op: SeqOp, bits: Bits, bank: Bank)
    requires WritesTtl(s.live, op, bits, bank)
    ensures var v, time := bits + s.live.preserve[bank], TtlTime(op.time);
            var live := s.live.(ctl := s.live.ctl.(ttl := s.live.ctl.ttl[bank := v]),
                                dev := Exec(s.live.dev, TTL(v, time, bank)));
            Beaten(pt, s, Own(op)) == Track(live, s.out + [TTL(v, time, bank)], s.t + time, s.beats + [Own(op)])
  {
    var v, time := bits + s.live.preserve[bank], TtlTime(op.time);
    DoTtl(pt, s.live, StepOf(op).value, bits, bank, time);
    TotalOne(pt, TTL(v, time, bank));
  }

  /** Playing a TTL write. */
  lemma PlayedTtl(k: Plan, f: Flow, p: Play)
    requires p.op.OpTtl? || p.op.OpTtl1?
    ensures var f' := f.(track := Beaten(k.pt, f.track, Own(p.op)));
            PlayedOne(k, f, p) ==
            if p.op.time <= 1000 then Outcome(f', 0, true, 0) else WaitFor(k, f', p.op.time - 100, p.turns)
  {
  }

  /** The DDS write of an instruction: the register and the value. */
  predicate WritesDds(s: Live, op: SeqOp, p: Param, chn: Channel, word: Word) {
    || op == OpDds(p, chn, word)
    || (op.OpShift? && op.chn == chn && p == Phase && word == (s.ctl.phase[chn] + op.delta) % 0x1_0000)
  }

  lemma OwnDds(pt: PulseTimes, s: Track, op: SeqOp, p: Param, chn: Channel, word: Word)
    requires WritesDds(s.live, op, p, chn, word) && s.live.ctl.ovr[chn].Get(p).None?
    ensures var pulse := DDSSet(p, chn, Narrow(p, word));
            var live := s.live.(ctl := WriteDds(s.live.ctl, p, chn, word).ctl, dev := Exec(s.live.dev, pulse));
            Beaten(pt, s, Own(op)) == Track(live, s.out + [pulse], s.t + ParamTime(pt, p), s.beats + [Own(op)])
  {
    DoDds(pt, s.live, StepOf(op).value, p, chn, word);
    TotalOne(pt, DDSSet(p, chn, Narrow(p, word)));
    assert Narrow(Phase, word) == word || p != Phase || op.OpDds?;
  }

  lemma OwnSkips(pt: PulseTimes, s: Track, op: SeqOp, p: Param, chn: Channel, word: Word)
    requires WritesDds(s.live, op, p, chn, word) && s.live.ctl.ovr[chn].Get(p).Some?
    ensures Beaten(pt, s, Own(op)) == s.(beats := s.beats + [Own(op)])
    ensures Remains(pt, s.live.ctl, op) == Some(ParamTime(pt, p))
  {
    DoDds(pt, s.live, StepOf(op).value, p, chn, word);
    assert s.out + [] == s.out;
  }

  /** Instructions that are one pulse, whatever the overrides. */
  predicate IsPulse(op: SeqOp, p: Pulse) {
    match op
    case OpDac(dac, v) => p == DAC(dac, v)
    case OpClock(div) => p == Clock(div)
    case OpTrigger(input, raise, timeout) => p == Trigger(input, raise, timeout)
    case _ => false
  }

  lemma OwnPulse(pt: PulseTimes, s: Track, op: SeqOp, p: Pulse)
    requires IsPulse(op, p)
    ensures Remains(pt, s.live.ctl, op) == None
    ensures Beaten(pt, s, Own(op)) ==
            Track(s.live.(dev := Exec(s.live.dev, p)), s.out + [p], if op.OpTrigger? then 0 else s.t + Duration(pt, p),
                  s.beats + [Own(op)])
  {
    TotalOne(pt, p);
    RunOne(s.live.dev, p);
  }

  lemma OwnWait(pt: PulseTimes, s: Track, time: Time)
    ensures Beaten(pt, s, Own(OpWait(time))) == s.(beats := s.beats + [Own(OpWait(time))])
  {
    assert s.out + [] == s.out;
  }

  lemma IdleSends(pt: PulseTimes, s: Track, time: nat)
    ensures Beaten(pt, s, Idle(time)) ==
            s.(out := s.out + [Pulse.Wait(time)], t := s.t + time, beats := s.beats + [Idle(time)])
  {
    IdleTime(pt, s, time);
  }

  lemma PieceFirst(pt: PulseTimes, s: Track, t: nat, rest: seq<nat>)
    ensures Replay(pt, s, Idles([t] + rest)) == Replay(pt, Beaten(pt, s, Idle(t)), Idles(rest))
  {
    assert ([t] + rest)[1..] == rest;
    ReplayConcat(pt, s, [Idle(t)], Idles(rest));
    OneBeat(pt, s, Idle(t));
  }

  lemma IdledLong(pt: PulseTimes, s: Track, rest: nat)
    requires rest > MAX_WAIT + 100
    ensures Idled(pt, s, rest) == Idled(pt, Beaten(pt, s, Idle(MAX_WAIT)), rest - MAX_WAIT)
  {
    PieceFirst(pt, s, MAX_WAIT, Pieces(rest - MAX_WAIT));
  }

  /** The last pieces of a wait. */
  lemma IdledTail(pt: PulseTimes, s: Track, rest: nat)
    requires rest <= MAX_WAIT + 100
    ensures Idled(pt, s, rest) ==
            if rest > MAX_WAIT then Beaten(pt, Beaten(pt, s, Idle(rest / 2)), Idle(rest - rest / 2))
            else if rest > 0 then Beaten(pt, s, Idle(rest))
            else s
  {
    if rest > MAX_WAIT {
      var half := rest / 2;
      assert [half] + [rest - half] == [half, rest - half];
      PieceFirst(pt, s, half, [rest - half]);
      LastPiece(pt, Beaten(pt, s, Idle(half)), rest - half);
    } else if rest > 0 {
      LastPiece(pt, s, rest);
    }
  }

  lemma LastPiece(pt: PulseTimes, s: Track, t: nat)
    ensures Replay(pt, s, Idles([t])) == Beaten(pt, s, Idle(t))
  {
    assert [t] + [] == [t];
    PieceFirst(pt, s, t, []);
  }

  /** A command, seen by the runner. */
  lemma ServeSends(pt: PulseTimes, s: Track, cmd: ReqCmd)
    ensures var e := RunCmd(pt, s.live.ctl, cmd);
            var kept := if cmd.TtlCmd? then
                          s.live.preserve[cmd.bank := e.ctl.ttl[cmd.bank] - s.live.mask[cmd.bank]]
                        else s.live.preserve;
            Beaten(pt, s, Serve(cmd)) ==
            Track(Live(e.ctl, Run(s.live.dev, e.pulses), s.live.mask, kept), s.out + e.pulses,
                  s.t + Total(pt, e.pulses), s.beats + [Serve(cmd)])
  {
  }

  // ---------------------------------------------------------------------------------------
  // Loops that end early

  lemma {:induction false} TurnsStop(k: Plan, f: Flow, wait: Time, turns: seq<Turn>, i: nat)
    requires i <= |turns| && WaitTurns(k, f, wait, turns[..i]).done
    ensures WaitTurns(k, f, wait, turns) == WaitTurns(k, f, wait, turns[..i])
    decreases |turns|
  {
    if i == |turns| {
      assert turns[..i] == turns;
    } else {
      var turns' := turns[..|turns| - 1];
      assert turns'[..i] == turns[..i];
      TurnsStop(k, f, wait, turns', i);
    }
  }

  lemma {:induction false} PlayedStops(k: Plan, f: Flow, ps: seq<Play>, i: nat)
    requires i <= |ps| && !Played(k, f, ps[..i]).done
    ensures Played(k, f, ps) == Played(k, f, ps[..i])
    decreases |ps|
  {
    if i == |ps| {
      assert ps[..i] == ps;
    } else {
      var ps' := ps[..|ps| - 1];
      assert ps'[..i] == ps[..i];
      PlayedStops(k, f, ps', i);
    }
  }
}
