/** The timeline of a sequence (the runner of lib/controller.cpp): what is sent for each
    instruction, how long waits are cut up and shared with stand-alone commands, and when every
    instruction starts. The clock, the requests that arrive and the pulser's answers are parameters. */
module Timeline {
  import opened Pulses
  import opened Backend

  const TWO_64: nat := 0x1_0000_0000_0000_0000

  type Time = t: nat | t < TWO_64

  /** Unsigned subtraction in 64 bits, and whether it wraps around. */
  function Sub(a: Time, b: nat): Time {
    (a - b) % TWO_64
  }

  function Borrow(a: Time, b: nat): nat {
    if a < b then 1 else 0
  }

  /** How far to play ahead when the sequence is behind. The difference is negative and taken in
      64-bit unsigned arithmetic. */
  function MinSeqT(seqRt: nat, threshRt: nat): (r: nat)
    requires seqRt < threshRt
    ensures r >= 10000
  {
    var d := (seqRt - threshRt) % TWO_64 / 10;
    if d < 10000 then 10000 else d
  }

  // ---------------------------------------------------------------------------------------
  // The pieces of a wait

  /** The pieces of a wait, in the order they are sent. */
  function Pieces(t: nat): seq<nat> {
    if t > MAX_WAIT + 100 then [MAX_WAIT] + Pieces(t - MAX_WAIT)
    else if t > MAX_WAIT then [t / 2, t - t / 2]
    else if t > 0 then [t]
    else []
  }

  function Sum(ts: seq<nat>): nat {
    if ts == [] then 0 else ts[0] + Sum(ts[1..])
  }

  /** The pieces add up to the wait and fit an instruction, and unless one piece is enough none
      of them is short. */
  lemma {:induction false} PiecesFit(t: nat)
    ensures Sum(Pieces(t)) == t
    ensures forall i :: 0 <= i < |Pieces(t)| ==> Pieces(t)[i] <= 16777215
    ensures Pieces(t) == (if t == 0 then [] else [t]) || forall i :: 0 <= i < |Pieces(t)| ==> Pieces(t)[i] >= 101
  {
    if t > MAX_WAIT + 100 {
      PiecesFit(t - MAX_WAIT);
    } else if t > MAX_WAIT {
      var a, b := t / 2, t - t / 2;
      assert [a, b][1..] == [b] && Sum([b]) == b && Sum([a, b]) == a + b;
    }
  }

  // ---------------------------------------------------------------------------------------
  // Instructions, and what is sent

  /** An instruction of a sequence. */
  datatype SeqOp =
    | OpTtl(bits: Bits, time: Time, bank: Bank)
    | OpTtl1(full: nat, high: bool, time: Time)
    | OpDds(p: Param, chn: Channel, word: Word)
    | OpShift(chn: Channel, delta: Word)
    | OpDac(dac: nat, v: nat)
    | OpClock(div: nat)
    | OpWait(time: Time)
    | OpTrigger(input: nat, raise: bool, timeout: nat)

  /** How long an instruction takes, by itself. */
  function Nominal(pt: PulseTimes, op: SeqOp): nat {
    match op
    case OpTtl(_, time, _) => time
    case OpTtl1(_, _, time) => time
    case OpDds(p, _, _) => ParamTime(pt, p)
    case OpShift(_, _) => pt.phase
    case OpDac(_, _) => pt.dac
    case OpClock(_) => pt.clock
    case OpWait(time) => time
    case OpTrigger(_, _, _) => 0
  }

  /** When the next instruction is due: what the instructions since the last trigger take. */
  function Schedule(pt: PulseTimes, ops: seq<SeqOp>): nat {
    if ops == [] || ops[|ops| - 1].OpTrigger? then 0
    else Schedule(pt, ops[..|ops| - 1]) + Nominal(pt, ops[|ops| - 1])
  }

  /** What an instruction does to the controller, if anything. */
  function StepOf(op: SeqOp): Option<Action> {
    match op
    case OpTtl(bits, _, bank) => Some(SeqTtl(bits, bank))
    case OpTtl1(full, high, _) => Some(SeqTtl1(full, high))
    case OpDds(p, chn, word) => Some(SeqDds(p, chn, word))
    case OpShift(chn, delta) => Some(SeqShift(chn, delta))
    case OpClock(div) => Some(SeqClock(div))
    case _ => None
  }

  /** The register that an instruction writes, unless that is overridden. */
  predicate Overridden(c: Ctl, op: SeqOp) {
    match op
    case OpDds(p, chn, _) => c.ovr[chn].Get(p).Some?
    case OpShift(chn, _) => c.ovr[chn].phase.Some?
    case _ => false
  }

  /** A long TTL pulse is a short one and a wait. */
  function TtlTime(time: nat): nat {
    if time <= 1000 then time else 100
  }

  /** The pulse that an instruction sends first, if it is not overridden and not a wait. */
  function OwnPulses(s: Live, op: SeqOp): seq<Pulse> {
    if Overridden(s.ctl, op) then []
    else
      match op
      case OpTtl(bits, time, bank) => [TTL(bits + s.preserve[bank], TtlTime(time), bank)]
      case OpTtl1(full, high, time) =>
        var bank := Ttl1Bank(full);
        [TTL(Ttl1Value(s.ctl.ttl[bank], full, high) + s.preserve[bank], TtlTime(time), bank)]
      case OpDds(p, chn, word) => [DDSSet(p, chn, Narrow(p, word))]
      case OpShift(chn, delta) => [DDSSet(Phase, chn, (s.ctl.phase[chn] + delta) % 0x1_0000)]
      case OpDac(dac, v) => [DAC(dac, v)]
      case OpClock(div) => [Clock(div)]
      case OpWait(_) => []
      case OpTrigger(input, raise, timeout) => [Trigger(input, raise, timeout)]
  }

  /** How long an instruction still has to wait once that is sent. */
  function Remains(pt: PulseTimes, c: Ctl, op: SeqOp): Option<Time> {
    if Overridden(c, op) then Some(Nominal(pt, op))
    else
      match op
      case OpTtl(_, time, _) => if time <= 1000 then None else Some(time - 100)
      case OpTtl1(_, _, time) => if time <= 1000 then None else Some(time - 100)
      case OpWait(time) => Some(time)
      case _ => None
  }

  /** What the runner does next: an instruction, a command, or a piece of a wait. */
  datatype Beat = Own(op: SeqOp) | Serve(cmd: ReqCmd) | Idle(time: nat)

  /** Everything sent so far, where that leaves controller and device, and the runner's clock. */
  datatype Track = Track(live: Live, out: seq<Pulse>, t: nat, beats: seq<Beat>)

  function BeatPulses(pt: PulseTimes, s: Live, b: Beat): seq<Pulse> {
    match b
    case Own(op) => OwnPulses(s, op)
    case Serve(cmd) => RunCmd(pt, s.ctl, cmd).pulses
    case Idle(time) => [Wait(time)]
  }

  function ActionOf(b: Beat): Option<Action> {
    match b
    case Own(op) => StepOf(op)
    case Serve(cmd) => Some(Command(cmd))
    case Idle(_) => None
  }

  function BeatTime(pt: PulseTimes, s: Live, b: Beat): nat {
    Total(pt, BeatPulses(pt, s, b))
  }

  function Beaten(pt: PulseTimes, s: Track, b: Beat): Track {
    var a := ActionOf(b);
    Track(if a.Some? then Do(pt, s.live, a.value) else s.live, s.out + BeatPulses(pt, s.live, b),
          if b.Own? && b.op.OpTrigger? then 0 else s.t + BeatTime(pt, s.live, b), s.beats + [b])
  }

  function Replay(pt: PulseTimes, s: Track, bs: seq<Beat>): Track {
    if bs == [] then s else Beaten(pt, Replay(pt, s, bs[..|bs| - 1]), bs[|bs| - 1])
  }

  lemma ReplayNext(pt: PulseTimes, s: Track, bs: seq<Beat>, b: Beat)
    ensures Replay(pt, s, bs + [b]) == Beaten(pt, Replay(pt, s, bs), b)
  {
    assert (bs + [b])[..|bs|] == bs;
  }

  lemma {:induction false} ReplayConcat(pt: PulseTimes, s: Track, a: seq<Beat>, b: seq<Beat>)
    ensures Replay(pt, s, a + b) == Replay(pt, Replay(pt, s, a), b)
    decreases |b|
  {
    if b == [] {
      assert a + b == a;
    } else {
      var b', x := b[..|b| - 1], b[|b| - 1];
      ReplayConcat(pt, s, a, b');
      assert b == b' + [x];
      SeqAssoc(a, b', [x]);
      ReplayNext(pt, s, a + b', x);
      ReplayNext(pt, Replay(pt, s, a), b', x);
    }
  }

  lemma {:induction false} ReplayBeats(pt: PulseTimes, s: Track, bs: seq<Beat>)
    ensures Replay(pt, s, bs).beats == s.beats + bs
    decreases |bs|
  {
    if bs != [] {
      ReplayBeats(pt, s, bs[..|bs| - 1]);
      assert s.beats + bs == (s.beats + bs[..|bs| - 1]) + [bs[|bs| - 1]];
    }
  }

  function Idles(ts: seq<nat>): seq<Beat> {
    if ts == [] then [] else [Idle(ts[0])] + Idles(ts[1..])
  }

  /** A wait without commands, in pieces. */
  function Idled(pt: PulseTimes, s: Track, t: nat): Track {
    Replay(pt, s, Idles(Pieces(t)))
  }

  // ---------------------------------------------------------------------------------------
  // Waits that serve commands

  /** The command queue: commands before `filter` are finished, and the one there may be waiting for
      its result. `came` is every command that has come in, and `started` every one that was started. */
  datatype Inbox = Inbox(queue: seq<ReqCmd>, filter: nat, waiting: bool, started: seq<ReqCmd>, came: seq<ReqCmd>) {
    function Arrive(cmds: seq<ReqCmd>): Inbox {
      this.(queue := queue + cmds, came := came + cmds)
    }

    /** The command that can be started now. */
    function Next(): Option<ReqCmd> {
      if !waiting && filter < |queue| then Some(queue[filter]) else None
    }

    /** Complete the waiting read if there is an answer, or start the next command. */
    function Pump(answer: Option<Word>): Inbox {
      if waiting then
        if answer.Some? && filter < |queue| && queue[filter].DdsCmd? then
          this.(queue := queue[filter := queue[filter].(val := answer.value)], filter := filter + 1, waiting := false)
        else this
      else if filter < |queue| then
        var i := this.(started := started + [queue[filter]]);
        if queue[filter].Reads() then i.(waiting := true) else i.(filter := filter + 1)
      else this
    }

    /** The commands that have not been started. */
    function Pending(): seq<ReqCmd> {
      var first := filter + if waiting then 1 else 0;
      if first <= |queue| then queue[first..] else []
    }
  }

  /** One turn of the loop in a long wait: the clock, the requests that have come in, and the
      pulser's answer to a waiting read. */
  datatype Turn = Turn(now: nat, arrived: seq<ReqCmd>, answer: Option<Word>)

  /** What does not change while a sequence plays. */
  datatype Plan = Plan(pt: PulseTimes, minT: nat)

  datatype Flow = Flow(track: Track, startT: nat, released: bool, processCmd: bool, inbox: Inbox)

  /** After a wait, or as much of it as there were turns for: `left` is the time still to go, and
      `wraps` how often that has wrapped around. */
  datatype Outcome = Outcome(flow: Flow, left: Time, done: bool, wraps: nat)

  /** The sequence is not far enough ahead of the clock. */
  predicate Behind(k: Plan, f: Flow, now: nat) {
    f.startT + f.track.t * 10 < now + k.minT
  }

  /** A turn that finds the sequence behind plays ahead, to the end of the wait if little is left. */
  function Ahead(k: Plan, f: Flow, left: Time, now: nat): Outcome
    requires Behind(k, f, now)
  {
    var m := MinSeqT(f.startT + f.track.t * 10, now + k.minT);
    var all := left <= m + 3000;
    Outcome(f.(track := Idled(k.pt, f.track, if all then left else m)), if all then 0 else left - m, all, 0)
  }

  function Release(k: Plan, f: Flow, left: Time): Outcome {
    if f.released then Outcome(f, left, false, 0)
    else
      Outcome(f.(released := true, track := Beaten(k.pt, f.track, Idle(1000))), Sub(left, 1000), false,
              Borrow(left, 1000))
  }

  function ServeNext(k: Plan, f: Flow, left: Time, answer: Option<Word>): Outcome {
    var f', cmd := f.(inbox := f.inbox.Pump(answer)), f.inbox.Next();
    if cmd.None? then Outcome(f', left, false, 0)
    else
      var step := BeatTime(k.pt, f.track.live, Serve(cmd.value));
      Outcome(f'.(track := Beaten(k.pt, f.track, Serve(cmd.value))), Sub(left, step), false, Borrow(left, step))
  }

  function TurnOf(k: Plan, f: Flow, left: Time, turn: Turn): Outcome {
    var f := f.(inbox := f.inbox.Arrive(turn.arrived));
    if Behind(k, f, turn.now) then Ahead(k, f, left, turn.now)
    else
      var o1 := Release(k, f, left);
      var o2 := ServeNext(k, o1.flow, o1.left, turn.answer);
      o2.(wraps := o1.wraps + o2.wraps)
  }

  function WaitTurns(k: Plan, f: Flow, wait: Time, turns: seq<Turn>): Outcome {
    if turns == [] then Outcome(f, wait, false, 0)
    else
      var o := WaitTurns(k, f, wait, turns[..|turns| - 1]);
      if o.done then o
      else
        var o' := TurnOf(k, o.flow, o.left, turns[|turns| - 1]);
        o'.(wraps := o.wraps + o'.wraps)
  }

  function WaitFor(k: Plan, f: Flow, wait: Time, turns: seq<Turn>): Outcome {
    if !f.processCmd then Outcome(f.(track := Idled(k.pt, f.track, wait)), 0, true, 0)
    else if wait < 2000 then Outcome(f.(track := Beaten(k.pt, f.track, Idle(wait))), 0, true, 0)
    else WaitTurns(k, f, wait, turns)
  }

  /** An instruction with what the outside world does while it plays. */
  datatype Play = Play(op: SeqOp, turns: seq<Turn>, now: nat)

  function Started(k: Plan, f: Flow, p: Play): Flow {
    f.(track := Beaten(k.pt, f.track, Own(p.op)), startT := if p.op.OpTrigger? then p.now else f.startT)
  }

  function PlayedOne(k: Plan, f: Flow, p: Play): Outcome {
    var rest := Remains(k.pt, f.track.live.ctl, p.op);
    if rest.None? then Outcome(Started(k, f, p), 0, true, 0)
    else WaitFor(k, Started(k, f, p), rest.value, p.turns)
  }

  /** A sequence; it stops at an instruction whose wait runs out of turns. */
  function Played(k: Plan, f: Flow, ps: seq<Play>): Outcome {
    if ps == [] then Outcome(f, 0, true, 0)
    else
      var o := Played(k, f, ps[..|ps| - 1]);
      if !o.done then o
      else
        var o' := PlayedOne(k, o.flow, ps[|ps| - 1]);
        o'.(wraps := o.wraps + o'.wraps)
  }

  // ---------------------------------------------------------------------------------------
  // Time is conserved

  /** Nothing but commands and waiting. */
  predicate Fills(bs: seq<Beat>) {
    forall i :: 0 <= i < |bs| ==> !bs[i].Own?
  }

  ghost predicate FillsFrom(pt: PulseTimes, s: Track, s': Track, bs: seq<Beat>) {
    Fills(bs) && s' == Replay(pt, s, bs)
  }

  lemma FillsConcat(pt: PulseTimes, s: Track, s1: Track, s2: Track, a: seq<Beat>, b: seq<Beat>)
    requires FillsFrom(pt, s, s1, a) && FillsFrom(pt, s1, s2, b)
    ensures FillsFrom(pt, s, s2, a + b)
  {
    ReplayConcat(pt, s, a, b);
  }

  lemma OneBeat(pt: PulseTimes, s: Track, b: Beat)
    requires !b.Own?
    ensures FillsFrom(pt, s, Beaten(pt, s, b), [b])
  {
    assert [b][..0] == [];
  }

  lemma TotalOne(pt: PulseTimes, p: Pulse)
    ensures Total(pt, [p]) == Duration(pt, p)
  {
    assert [p][..0] == [];
  }

  lemma IdleTime(pt: PulseTimes, s: Track, t: nat)
    ensures Beaten(pt, s, Idle(t)).t == s.t + t
  {
    TotalOne(pt, Pulse.Wait(t));
  }

  lemma {:induction false} IdlesTime(pt: PulseTimes, s: Track, ts: seq<nat>)
    ensures Replay(pt, s, Idles(ts)).t == s.t + Sum(ts)
    ensures Fills(Idles(ts)) && Replay(pt, s, Idles(ts)).live == s.live
    decreases |ts|
  {
    if ts != [] {
      var b, rest := Idle(ts[0]), Idles(ts[1..]);
      ReplayConcat(pt, s, [b], rest);
      OneBeat(pt, s, b);
      IdleTime(pt, s, ts[0]);
      IdlesTime(pt, Beaten(pt, s, b), ts[1..]);
    }
  }

  lemma IdledTime(pt: PulseTimes, s: Track, t: nat)
    ensures FillsFrom(pt, s, Idled(pt, s, t), Idles(Pieces(t)))
    ensures Idled(pt, s, t).t == s.t + t && Idled(pt, s, t).live == s.live
  {
    IdlesTime(pt, s, Pieces(t));
    PiecesFit(t);
  }

  /** Wrapping subtraction and its borrow balance. */
  lemma SubBalances(a: Time, b: nat)
    requires b < TWO_64
    ensures Sub(a, b) + b == a + Borrow(a, b) * TWO_64
  {
  }

  lemma CommandTime(pt: PulseTimes, c: Ctl, cmd: ReqCmd)
    ensures var ps := RunCmd(pt, c, cmd).pulses;
            && |ps| <= 1 && (ps != [] ==> !ps[0].Trigger?)
            && Total(pt, ps) <= Cost(pt, cmd) <= ALL_ONES
            && Total(pt, ps) == if ps == [] then 0 else Duration(pt, ps[0])
  {
    var ps := RunCmd(pt, c, cmd).pulses;
    if |ps| == 1 {
      assert ps[..0] == [];
    }
  }

  /** The most time that a command can take. */
  function Cost(pt: PulseTimes, cmd: ReqCmd): nat {
    match cmd
    case TtlCmd(_, _, _) => pt.min
    case DdsCmd(p, _, _, _, _) => ParamTime(pt, p)
    case ResetCmd(_) => 0
    case ClockCmd(_) => pt.clock
  }

  /** The time sent and the time left add up, with 2^64 for each wrap. */
  ghost predicate Balanced(k: Plan, f: Flow, left: nat, o: Outcome) {
    o.flow.track.t + o.left == f.track.t + left + o.wraps * TWO_64
  }

  lemma AheadBalances(k: Plan, f: Flow, left: Time, now: nat) returns (bs: seq<Beat>)
    requires Behind(k, f, now)
    ensures var o := Ahead(k, f, left, now);
            Balanced(k, f, left, o) && FillsFrom(k.pt, f.track, o.flow.track, bs)
  {
    var m := MinSeqT(f.startT + f.track.t * 10, now + k.minT);
    var n := if left <= m + 3000 then left else m;
    IdledTime(k.pt, f.track, n);
    bs := Idles(Pieces(n));
  }

  lemma ReleaseBalances(k: Plan, f: Flow, left: Time) returns (bs: seq<Beat>)
    ensures var o := Release(k, f, left);
            Balanced(k, f, left, o) && FillsFrom(k.pt, f.track, o.flow.track, bs)
  {
    bs := [];
    if !f.released {
      bs := [Idle(1000)];
      OneBeat(k.pt, f.track, Idle(1000));
      IdleTime(k.pt, f.track, 1000);
      SubBalances(left, 1000);
    }
  }

  lemma ServeBalances(k: Plan, f: Flow, left: Time, answer: Option<Word>) returns (bs: seq<Beat>)
    ensures var o := ServeNext(k, f, left, answer);
            Balanced(k, f, left, o) && FillsFrom(k.pt, f.track, o.flow.track, bs)
  {
    bs := [];
    var cmd := f.inbox.Next();
    if cmd.Some? {
      bs := [Serve(cmd.value)];
      OneBeat(k.pt, f.track, Serve(cmd.value));
      CommandTime(k.pt, f.track.live.ctl, cmd.value);
      SubBalances(left, BeatTime(k.pt, f.track.live, Serve(cmd.value)));
    }
  }

  lemma TurnBalances(k: Plan, f: Flow, left: Time, turn: Turn) returns (bs: seq<Beat>)
    ensures var o := TurnOf(k, f, left, turn);
            Balanced(k, f, left, o) && FillsFrom(k.pt, f.track, o.flow.track, bs) && (o.done ==> o.left == 0)
  {
    var f0 := f.(inbox := f.inbox.Arrive(turn.arrived));
    if Behind(k, f0, turn.now) {
      bs := AheadBalances(k, f0, left, turn.now);
    } else {
      var o1 := Release(k, f0, left);
      var a := ReleaseBalances(k, f0, left);
      var b := ServeBalances(k, o1.flow, o1.left, turn.answer);
      bs := a + b;
      FillsConcat(k.pt, f0.track, o1.flow.track, ServeNext(k, o1.flow, o1.left, turn.answer).flow.track, a, b);
    }
  }

  lemma {:induction false} TurnsBalance(k: Plan, f: Flow, wait: Time, turns: seq<Turn>) returns (bs: seq<Beat>)
    ensures var o := WaitTurns(k, f, wait, turns);
            Balanced(k, f, wait, o) && FillsFrom(k.pt, f.track, o.flow.track, bs) && (o.done ==> o.left == 0)
    decreases |turns|
  {
    if turns == [] {
      bs := [];
    } else {
      var turns', turn := turns[..|turns| - 1], turns[|turns| - 1];
      var o := WaitTurns(k, f, wait, turns');
      bs := TurnsBalance(k, f, wait, turns');
      if !o.done {
        var more := TurnBalances(k, o.flow, o.left, turn);
        FillsConcat(k.pt, f.track, o.flow.track, TurnOf(k, o.flow, o.left, turn).flow.track, bs, more);
        bs := bs + more;
      }
    }
  }

  /** A wait takes exactly as long as asked, whatever it serves and whenever it is asked, with 2^64
      more for each wrap; it sends commands and waits only. */
  lemma WaitBalances(k: Plan, f: Flow, wait: Time, turns: seq<Turn>) returns (bs: seq<Beat>)
    ensures var o := WaitFor(k, f, wait, turns);
            && Balanced(k, f, wait, o) && FillsFrom(k.pt, f.track, o.flow.track, bs)
            && (o.done ==> o.left == 0 && o.flow.track.t == f.track.t + wait + o.wraps * TWO_64)
  {
    if !f.processCmd {
      IdledTime(k.pt, f.track, wait);
      bs := Idles(Pieces(wait));
    } else if wait < 2000 {
      OneBeat(k.pt, f.track, Idle(wait));
      IdleTime(k.pt, f.track, wait);
      bs := [Idle(wait)];
    } else {
      bs := TurnsBalance(k, f, wait, turns);
    }
  }

  /** After its instruction a beat of its own, and then only what fills its time. */
  lemma OneBalances(k: Plan, f: Flow, p: Play) returns (bs: seq<Beat>)
    ensures var o, s := PlayedOne(k, f, p), Beaten(k.pt, f.track, Own(p.op));
            && FillsFrom(k.pt, s, o.flow.track, bs)
            && (o.done ==>
                  o.flow.track.t == (if p.op.OpTrigger? then 0 else f.track.t + Nominal(k.pt, p.op)) + o.wraps * TWO_64)
  {
    var rest := Remains(k.pt, f.track.live.ctl, p.op);
    OwnTime(k.pt, f.track.live, p.op);
    if rest.None? {
      bs := [];
    } else {
      bs := WaitBalances(k, Started(k, f, p), rest.value, p.turns);
    }
  }

  /** What an instruction sends itself and what it waits for are its time. */
  lemma OwnTime(pt: PulseTimes, s: Live, op: SeqOp)
    ensures var rest := Remains(pt, s.ctl, op);
            !op.OpTrigger? ==>
              Total(pt, OwnPulses(s, op)) + (if rest.Some? then rest.value else 0) == Nominal(pt, op)
    ensures op.OpTrigger? ==> Remains(pt, s.ctl, op) == None
  {
    if OwnPulses(s, op) != [] {
      assert OwnPulses(s, op) == [OwnPulses(s, op)[0]];
      TotalOne(pt, OwnPulses(s, op)[0]);
    }
  }

  // ---------------------------------------------------------------------------------------
  // Every instruction is on time

  function Ops(ps: seq<Play>): seq<SeqOp> {
    if ps == [] then [] else Ops(ps[..|ps| - 1]) + [ps[|ps| - 1].op]
  }

  /** The instructions among the beats. */
  function Owns(bs: seq<Beat>): seq<SeqOp> {
    if bs == [] then []
    else if bs[|bs| - 1].Own? then Owns(bs[..|bs| - 1]) + [bs[|bs| - 1].op]
    else Owns(bs[..|bs| - 1])
  }

  lemma {:induction false} OwnsFilled(a: seq<Beat>, b: seq<Beat>)
    requires Fills(b)
    ensures Owns(a + b) == Owns(a)
    decreases |b|
  {
    if b == [] {
      assert a + b == a;
    } else {
      OwnsFilled(a, b[..|b| - 1]);
      assert (a + b)[..|a + b| - 1] == a + b[..|b| - 1];
    }
  }

  /** The instructions among the beats, by themselves, take as long as the beats have taken. */
  ghost predicate Punctual(pt: PulseTimes, s: Track, bs: seq<Beat>) {
    Replay(pt, s, bs).t == Schedule(pt, Owns(bs))
  }

  /** Each instruction starts when the instructions before it, by themselves, have had their time. */
  ghost predicate OnTime(pt: PulseTimes, s: Track, bs: seq<Beat>) {
    forall i :: 0 <= i < |bs| && bs[i].Own? ==> Punctual(pt, s, bs[..i])
  }

  lemma OnTimeMore(pt: PulseTimes, s: Track, bs: seq<Beat>, op: SeqOp, more: seq<Beat>)
    requires OnTime(pt, s, bs) && Fills(more) && Punctual(pt, s, bs)
    ensures OnTime(pt, s, (bs + [Own(op)]) + more)
  {
    var all := (bs + [Own(op)]) + more;
    forall i | 0 <= i < |all| && all[i].Own? ensures Punctual(pt, s, all[..i]) {
      if i < |bs| {
        assert all[..i] == bs[..i] && all[i] == bs[i];
      } else {
        assert i == |bs|;
        assert all[..i] == bs;
      }
    }
  }

  /** The beats of a sequence so far: each instruction once and in order, and on time as long as
      nothing wrapped around. */
  ghost predicate Plays(k: Plan, s: Track, o: Outcome, bs: seq<Beat>) {
    && o.flow.track == Replay(k.pt, s, bs)
    && (s.t == 0 && o.wraps == 0 ==> OnTime(k.pt, s, bs) && (o.done ==> Punctual(k.pt, s, bs)))
  }

  /** The beats after one more instruction. */
  lemma NextPlay(k: Plan, s: Track, o: Outcome, bs: seq<Beat>, p: Play) returns (bs': seq<Beat>)
    requires Plays(k, s, o, bs) && o.done
    ensures var o' := PlayedOne(k, o.flow, p);
            Plays(k, s, o'.(wraps := o.wraps + o'.wraps), bs') && Owns(bs') == Owns(bs) + [p.op]
  {
    var more := OneBalances(k, o.flow, p);
    var own := bs + [Own(p.op)];
    bs' := own + more;
    ReplayNext(k.pt, s, bs, Own(p.op));
    ReplayConcat(k.pt, s, own, more);
    assert own[..|bs|] == bs;
    OwnsFilled(own, more);
    if s.t == 0 && o.wraps == 0 {
      OnTimeMore(k.pt, s, bs, p.op, more);
      ScheduleNext(k.pt, Owns(bs), p.op);
    }
  }

  lemma ScheduleNext(pt: PulseTimes, ops: seq<SeqOp>, op: SeqOp)
    ensures Schedule(pt, ops + [op]) == if op.OpTrigger? then 0 else Schedule(pt, ops) + Nominal(pt, op)
  {
    assert (ops + [op])[..|ops|] == ops;
  }

  lemma {:induction false} PlaysOnTime(k: Plan, f: Flow, ps: seq<Play>) returns (bs: seq<Beat>)
    ensures var o := Played(k, f, ps);
            Plays(k, f.track, o, bs) && if o.done then Owns(bs) == Ops(ps) else Owns(bs) <= Ops(ps)
    decreases |ps|
  {
    if ps == [] {
      bs := [];
    } else {
      var ps', p := ps[..|ps| - 1], ps[|ps| - 1];
      var o := Played(k, f, ps');
      bs := PlaysOnTime(k, f, ps');
      if o.done {
        bs := NextPlay(k, f.track, o, bs, p);
      }
    }
  }

  /** Time since the last trigger, in the pulses from `first` on. */
  function Elapsed(pt: PulseTimes, out: seq<Pulse>, first: nat): nat {
    if |out| <= first || out[|out| - 1].Trigger? then 0
    else Elapsed(pt, out[..|out| - 1], first) + Duration(pt, out[|out| - 1])
  }

  lemma ElapsedNext(pt: PulseTimes, out: seq<Pulse>, first: nat, p: Pulse)
    requires first <= |out|
    ensures Elapsed(pt, out + [p], first) == if p.Trigger? then 0 else Elapsed(pt, out, first) + Duration(pt, p)
  {
    assert (out + [p])[..|out|] == out;
  }

  /** A beat sends at most one pulse, a trigger only if it is one. */
  lemma BeatSends(pt: PulseTimes, s: Live, b: Beat)
    ensures var ps := BeatPulses(pt, s, b);
            && (ps == [] || ps == [ps[0]])
            && BeatTime(pt, s, b) == (if ps == [] then 0 else Duration(pt, ps[0]))
            && (ps != [] && ps[0].Trigger? <==> b.Own? && b.op.OpTrigger?)
  {
    var ps := BeatPulses(pt, s, b);
    if b.Serve? {
      CommandTime(pt, s.ctl, b.cmd);
    }
    if ps != [] {
      assert ps == [ps[0]];
      TotalOne(pt, ps[0]);
    }
  }

  /** What has been sent since `s`: the clock is the time since the last trigger in it, and the device is
      where it leaves it. */
  ghost predicate Accounts(pt: PulseTimes, s: Track, s': Track, sent: seq<Pulse>) {
    && s'.out == s.out + sent && s'.live.dev == Run(s.live.dev, sent)
    && s'.t == Elapsed(pt, s'.out, |s.out|)
  }

  lemma AccountsNext(pt: PulseTimes, s: Track, s1: Track, sent: seq<Pulse>, b: Beat)
    requires Accounts(pt, s, s1, sent)
    ensures Accounts(pt, s, Beaten(pt, s1, b), sent + BeatPulses(pt, s1.live, b))
  {
    var ps := BeatPulses(pt, s1.live, b);
    BeatIsTrue(pt, s1, b, |s.out|);
    RunConcat(s.live.dev, sent, ps);
    SeqAssoc(s.out, sent, ps);
    assert Beaten(pt, s1, b).out == s1.out + ps;
  }

  /** The runner's clock is the time of the pulses sent since the last trigger, and the device is
      where these pulses leave it. */
  lemma {:induction false} ClockIsTrue(pt: PulseTimes, s: Track, bs: seq<Beat>) returns (sent: seq<Pulse>)
    requires s.t == 0
    ensures Accounts(pt, s, Replay(pt, s, bs), sent)
    decreases |bs|
  {
    if bs == [] {
      sent := [];
    } else {
      sent := ClockIsTrue(pt, s, bs[..|bs| - 1]);
      var s1, b := Replay(pt, s, bs[..|bs| - 1]), bs[|bs| - 1];
      AccountsNext(pt, s, s1, sent, b);
      sent := sent + BeatPulses(pt, s1.live, b);
    }
  }

  lemma BeatIsTrue(pt: PulseTimes, s: Track, b: Beat, first: nat)
    requires first <= |s.out| && s.t == Elapsed(pt, s.out, first)
    ensures var s' := Beaten(pt, s, b);
            s'.t == Elapsed(pt, s'.out, first) && s'.live.dev == Run(s.live.dev, BeatPulses(pt, s.live, b))
  {
    var ps := BeatPulses(pt, s.live, b);
    BeatSends(pt, s.live, b);
    BeatActs(pt, s.live, b);
    if ps == [] {
      assert s.out + ps == s.out;
    } else {
      ElapsedNext(pt, s.out, first, ps[0]);
    }
  }

  /** What a beat does to the device is what its pulses do. */
  lemma BeatActs(pt: PulseTimes, s: Live, b: Beat)
    ensures var a := ActionOf(b);
            Run(s.dev, BeatPulses(pt, s, b)) == if a.Some? then Do(pt, s, a.value).dev else s.dev
  {
    var ps := BeatPulses(pt, s, b);
    BeatSends(pt, s, b);
    if ps != [] {
      RunOne(s.dev, ps[0]);
    }
    if b.Own? && ActionOf(b).Some? {
      OwnActs(pt, s, b.op);
    }
  }

  lemma OwnActs(pt: PulseTimes, s: Live, op: SeqOp)
    requires StepOf(op).Some?
    ensures Do(pt, s, StepOf(op).value).dev ==
            if OwnPulses(s, op) == [] then s.dev else Exec(s.dev, OwnPulses(s, op)[0])
  {
    match op
    case OpTtl(bits, time, bank) => DoTtl(pt, s, StepOf(op).value, bits, bank, TtlTime(time));
    case OpTtl1(full, high, time) =>
      var bank := Ttl1Bank(full);
      DoTtl(pt, s, StepOf(op).value, Ttl1Value(s.ctl.ttl[bank], full, high), bank, TtlTime(time));
    case OpDds(p, chn, word) => DoDds(pt, s, StepOf(op).value, p, chn, word);
    case OpShift(chn, delta) =>
      DoDds(pt, s, StepOf(op).value, Phase, chn, (s.ctl.phase[chn] + delta) % 0x1_0000);
    case OpClock(div) => RunOne(s.dev, Clock(div));
  }

  /** What has been sent by beat `i`, and what it adds, is the beginning of everything sent. */
  lemma {:induction false} SentInOrder(pt: PulseTimes, s: Track, bs: seq<Beat>, i: nat)
    requires i < |bs|
    ensures var before := Replay(pt, s, bs[..i]);
            before.out + BeatPulses(pt, before.live, bs[i]) <= Replay(pt, s, bs).out
    decreases |bs|
  {
    var bs' := bs[..|bs| - 1];
    if i < |bs'| {
      SentInOrder(pt, s, bs', i);
      assert bs'[..i] == bs[..i];
    }
  }

  /** What is sent by beat `i` comes after what was sent before it, and on time. */
  ghost predicate SentAt(k: Plan, s: Track, o: Outcome, bs: seq<Beat>, i: nat)
    requires i < |bs|
  {
    var before := Replay(k.pt, s, bs[..i]);
    && before.out + BeatPulses(k.pt, before.live, bs[i]) <= o.flow.track.out
    && (bs[i].Own? && o.wraps == 0 ==> Elapsed(k.pt, before.out, |s.out|) == Schedule(k.pt, Owns(bs[..i])))
  }

  /** Main result. For any instructions, overrides, clock readings and commands: what is sent is, in
      order, each instruction's own pulse and, after it, waits and the pulses of commands; the
      instructions are played once each, in order, and all of them unless a wait runs out of turns.
      As long as no wait wraps around, each instruction starts exactly as long after the last trigger
      as the instructions before it take by themselves, and the clock at the end is that of the whole
      sequence. The device is where the pulses leave it. */
  lemma TimelineHolds(k: Plan, f: Flow, ps: seq<Play>) returns (bs: seq<Beat>, sent: seq<Pulse>)
    requires f.track.t == 0
    ensures var o, s := Played(k, f, ps), f.track;
            && o.flow.track == Replay(k.pt, s, bs)
            && (if o.done then Owns(bs) == Ops(ps) else Owns(bs) <= Ops(ps))
            && (forall i :: 0 <= i < |bs| ==> SentAt(k, s, o, bs, i))
            && o.flow.track.out == s.out + sent && o.flow.track.live.dev == Run(s.live.dev, sent)
            && o.flow.track.t == Elapsed(k.pt, s.out + sent, |s.out|)
            && (o.wraps == 0 && o.done ==> o.flow.track.t == Schedule(k.pt, Ops(ps)))
  {
    bs := PlaysOnTime(k, f, ps);
    sent := ClockIsTrue(k.pt, f.track, bs);
    var o := Played(k, f, ps);
    forall i | 0 <= i < |bs| ensures SentAt(k, f.track, o, bs, i) {
      SentInOrder(k.pt, f.track, bs, i);
      var before := ClockIsTrue(k.pt, f.track, bs[..i]);
      assert bs[i].Own? && o.wraps == 0 ==> Punctual(k.pt, f.track, bs[..i]);
    }
  }
}
