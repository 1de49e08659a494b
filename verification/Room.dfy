/** Long waits serve commands, and the time that these take is taken off the wait in unsigned
    arithmetic without a check (lib/controller.cpp). These lemmas say when that is safe: exactly when
    a wait wraps around, a condition that rules it out, and runs where it happens. */
module Room {
  import opened Pulses
  import opened Backend
  import opened Timeline
  import opened Service

  const TWO_63: nat := 0x8000_0000_0000_0000

  // ---------------------------------------------------------------------------------------
  // When a wait wraps around

  /** While the hold is not released at least 2000 steps are left, so that releasing it cannot
      wrap around. */
  lemma {:induction false} ReleaseFits(k: Plan, f: Flow, wait: Time, turns: seq<Turn>)
    requires wait >= 2000
    ensures var o := WaitTurns(k, f, wait, turns);
            !o.done && !o.flow.released ==> o.left >= 2000
    decreases |turns|
  {
    if turns != [] {
      ReleaseFits(k, f, wait, turns[..|turns| - 1]);
    }
  }

  lemma TurnWrapsAt(k: Plan, f: Flow, left: Time, turn: Turn)
    requires f.released || left >= 2000
    ensures var cmd := f.inbox.Arrive(turn.arrived).Next();
            TurnOf(k, f, left, turn).wraps == 0 <==>
              Behind(k, f, turn.now) || cmd.None?
              || BeatTime(k.pt, f.track.live, Serve(cmd.value)) <= left - if f.released then 0 else 1000
  {
    var f0 := f.(inbox := f.inbox.Arrive(turn.arrived));
    if !Behind(k, f0, turn.now) && !f.released {
      SubFits(left, 1000);
      assert Release(k, f0, left).flow.track.live == f.track.live;
    }
  }

  /** A turn of a long wait wraps around exactly if the sequence is far enough ahead and the next
      command takes longer than what is left once the hold is released. */
  lemma TurnWraps(k: Plan, f: Flow, wait: Time, turns: seq<Turn>, turn: Turn)
    requires wait >= 2000 && !WaitTurns(k, f, wait, turns).done
    ensures var o := WaitTurns(k, f, wait, turns);
            var cmd := o.flow.inbox.Arrive(turn.arrived).Next();
            TurnOf(k, o.flow, o.left, turn).wraps == 0 <==>
              Behind(k, o.flow, turn.now) || cmd.None?
              || BeatTime(k.pt, o.flow.track.live, Serve(cmd.value)) <= o.left - if o.flow.released then 0 else 1000
  {
    ReleaseFits(k, f, wait, turns);
    var o := WaitTurns(k, f, wait, turns);
    TurnWrapsAt(k, o.flow, o.left, turn);
  }

  /** A sequence that is behind plays the whole rest of a wait at once: the lead to play has wrapped
      around and is huge, unless the wait or the delay is about 300 years. */
  lemma BehindEndsWait(k: Plan, f: Flow, left: Time, now: nat)
    requires Behind(k, f, now) && now + k.minT <= f.startT + TWO_63 && left <= TWO_63 / 10
    ensures Ahead(k, f, left, now).done
  {
    var d := now + k.minT - (f.startT + f.track.t * 10);
    assert -d % TWO_64 == TWO_64 - d;
  }

  function Costs(pt: PulseTimes, cmds: seq<ReqCmd>): nat {
    if cmds == [] then 0 else Cost(pt, cmds[0]) + Costs(pt, cmds[1..])
  }

  lemma {:induction false} CostsConcat(pt: PulseTimes, a: seq<ReqCmd>, b: seq<ReqCmd>)
    ensures Costs(pt, a + b) == Costs(pt, a) + Costs(pt, b)
    decreases |a|
  {
    if a == [] {
      assert a + b == b;
    } else {
      assert (a + b)[1..] == a[1..] + b;
      CostsConcat(pt, a[1..], b);
    }
  }

  /** The time that everything pending, and the release, can take. */
  function Need(pt: PulseTimes, f: Flow): nat {
    Costs(pt, f.inbox.Pending()) + if f.released then 0 else 1000
  }

  /** There is room: as much time as all commands that are or will be pending can take, with the
      release. If that is more than 3001, a turn that finds the sequence behind must end the wait. */
  ghost predicate Roomy(k: Plan, f: Flow, wait: Time, turns: seq<Turn>) {
    var need := Need(k.pt, f) + Costs(k.pt, Arrivals(turns));
    && Sound(f.inbox) && need <= wait
    && (need <= 3001 ||
        (wait <= TWO_63 / 10 && forall i :: 0 <= i < |turns| ==> turns[i].now + k.minT <= f.startT + TWO_63))
  }

  lemma SubFits(a: Time, b: nat)
    requires b <= a
    ensures Sub(a, b) == a - b && Borrow(a, b) == 0
  {
  }

  /** Serving a command takes no more than it was counted for. */
  lemma ServeCosts(k: Plan, f: Flow, left: Time, answer: Option<Word>)
    requires Sound(f.inbox) && Costs(k.pt, f.inbox.Pending()) <= left
    ensures var o := ServeNext(k, f, left, answer);
            var used := Costs(k.pt, f.inbox.Pending()) - Costs(k.pt, f.inbox.Pump(answer).Pending());
            used >= 0 && o.wraps == 0 && left - used <= o.left <= left
  {
    PendingCosts(k.pt, f.inbox, answer);
    var cmd := f.inbox.Next();
    if cmd.Some? {
      CommandTime(k.pt, f.track.live.ctl, cmd.value);
      SubFits(left, BeatTime(k.pt, f.track.live, Serve(cmd.value)));
    }
  }

  lemma PendingCosts(pt: PulseTimes, i: Inbox, answer: Option<Word>)
    requires Sound(i)
    ensures Costs(pt, i.Pending()) ==
            (if i.Next().Some? then Cost(pt, i.Next().value) else 0) + Costs(pt, i.Pump(answer).Pending())
  {
    PumpTakes(i, answer);
    var rest := i.Pump(answer).Pending();
    if i.Next().Some? {
      CostsFirst(pt, i.Next().value, rest);
    } else {
      assert [] + rest == rest;
    }
  }

  lemma CostsFirst(pt: PulseTimes, cmd: ReqCmd, rest: seq<ReqCmd>)
    ensures Costs(pt, [cmd] + rest) == Cost(pt, cmd) + Costs(pt, rest)
  {
    assert ([cmd] + rest)[1..] == rest;
  }

  /** A turn that plays ahead, in a wait with room. */
  lemma AheadCovered(k: Plan, f: Flow, left: Time, now: nat, need: nat, floor: nat)
    requires Behind(k, f, now) && Need(k.pt, f) <= need <= floor
    requires floor <= 3001 || Ahead(k, f, left, now).done
    ensures var o := Ahead(k, f, left, now);
            && o.wraps == 0 && o.left <= left && o.flow == f.(track := o.flow.track)
            && (!o.done ==> o.left + need >= Need(k.pt, o.flow) + floor)
  {
  }

  /** A turn that serves a command, in a wait with room. */
  lemma ServeCovered(k: Plan, f: Flow, left: Time, answer: Option<Word>)
    requires Sound(f.inbox) && Need(k.pt, f) <= left
    ensures var o1 := Release(k, f, left);
            var o2 := ServeNext(k, o1.flow, o1.left, answer);
            && Sound(o2.flow.inbox) && o1.wraps == o2.wraps == 0 && o2.flow.startT == f.startT
            && Need(k.pt, o2.flow) <= Need(k.pt, f) && o2.left <= left
            && o2.left + Need(k.pt, f) >= left + Need(k.pt, o2.flow)
  {
    var o1 := Release(k, f, left);
    if !f.released {
      SubFits(left, 1000);
    }
    assert o1.flow.inbox == f.inbox && o1.flow.released;
    ServeCosts(k, o1.flow, o1.left, answer);
    PumpTakes(f.inbox, answer);
    assert ServeNext(k, o1.flow, o1.left, answer).flow.inbox == f.inbox.Pump(answer);
  }

  /** What arrives in a turn adds to what is needed. */
  lemma ArriveNeeds(k: Plan, f: Flow, cmds: seq<ReqCmd>)
    requires Sound(f.inbox)
    ensures var f' := f.(inbox := f.inbox.Arrive(cmds));
            Sound(f'.inbox) && Need(k.pt, f') == Need(k.pt, f) + Costs(k.pt, cmds)
  {
    ArriveAdds(f.inbox, cmds);
    CostsConcat(k.pt, f.inbox.Pending(), cmds);
  }

  /** A turn in a wait with room. */
  lemma TurnCovered(k: Plan, f: Flow, left: Time, turn: Turn, need: nat, floor: nat)
    requires Sound(f.inbox) && Need(k.pt, f) + Costs(k.pt, turn.arrived) <= need
    requires left + need >= Need(k.pt, f) + Costs(k.pt, turn.arrived) + floor && need <= floor
    requires floor <= 3001 || (Behind(k, f, turn.now) ==> Ahead(k, f, left, turn.now).done)
    ensures var o := TurnOf(k, f, left, turn);
            && Sound(o.flow.inbox) && o.wraps == 0 && o.flow.startT == f.startT && o.left <= left
            && Need(k.pt, o.flow) <= Need(k.pt, f) + Costs(k.pt, turn.arrived)
            && (!o.done ==> o.left + need >= Need(k.pt, o.flow) + floor)
  {
    var f0 := f.(inbox := f.inbox.Arrive(turn.arrived));
    ArriveNeeds(k, f, turn.arrived);
    if Behind(k, f0, turn.now) {
      assert Ahead(k, f0, left, turn.now).done == Ahead(k, f, left, turn.now).done;
      AheadCovered(k, f0, left, turn.now, need, floor);
      assert Need(k.pt, Ahead(k, f0, left, turn.now).flow) == Need(k.pt, f0);
    } else {
      ServeCovered(k, f0, left, turn.answer);
    }
  }

  /** A wait that has room, in turns. */
  lemma {:induction false} TurnsCovered(k: Plan, f: Flow, wait: Time, turns: seq<Turn>, need: nat, floor: nat)
    requires Sound(f.inbox) && Need(k.pt, f) + Costs(k.pt, Arrivals(turns)) <= need <= floor <= wait
    requires floor <= 3001 || (wait <= TWO_63 / 10 &&
               forall i :: 0 <= i < |turns| ==> turns[i].now + k.minT <= f.startT + TWO_63)
    ensures var o := WaitTurns(k, f, wait, turns);
            && Sound(o.flow.inbox) && o.wraps == 0 && o.flow.startT == f.startT && o.left <= wait
            && Need(k.pt, o.flow) <= Need(k.pt, f) + Costs(k.pt, Arrivals(turns))
            && (!o.done ==> o.left + need >= Need(k.pt, o.flow) + floor)
    decreases |turns|
  {
    if turns != [] {
      var turns', turn := turns[..|turns| - 1], turns[|turns| - 1];
      CostsConcat(k.pt, Arrivals(turns'), turn.arrived);
      TurnsCovered(k, f, wait, turns', need - Costs(k.pt, turn.arrived), floor);
      var o := WaitTurns(k, f, wait, turns');
      if !o.done {
        if Behind(k, o.flow, turn.now) && floor > 3001 {
          BehindEndsWait(k, o.flow, o.left, turn.now);
        }
        TurnCovered(k, o.flow, o.left, turn, need, floor);
      }
    }
  }

  /** Main result on waits: one with room never wraps around. */
  lemma RoomyNeverWraps(k: Plan, f: Flow, wait: Time, turns: seq<Turn>)
    requires Roomy(k, f, wait, turns)
    ensures WaitFor(k, f, wait, turns).wraps == 0
  {
    var need := Need(k.pt, f) + Costs(k.pt, Arrivals(turns));
    TurnsCovered(k, f, wait, turns, need, if need <= 3001 && wait > 3001 then 3001 else wait);
  }

  // ---------------------------------------------------------------------------------------
  // Sequences with room

  /** The longest wait that an instruction can be in for. */
  function WaitOf(pt: PulseTimes, op: SeqOp): nat {
    match op
    case OpTtl(_, time, _) => if time <= 1000 then 0 else time - 100
    case OpTtl1(_, _, time) => if time <= 1000 then 0 else time - 100
    case OpDds(_, _, _) => Nominal(pt, op)
    case OpShift(_, _) => Nominal(pt, op)
    case OpWait(time) => time
    case _ => 0
  }

  function AllArrivals(ps: seq<Play>): seq<ReqCmd> {
    if ps == [] then [] else AllArrivals(ps[..|ps| - 1]) + Arrivals(ps[|ps| - 1].turns)
  }

  /** Every long wait of the sequence has room for all commands pending or arriving in all of it.
      `base` is before every start and trigger. */
  ghost predicate RoomyPlay(k: Plan, p: Play, need: nat, base: nat) {
    var w := WaitOf(k.pt, p.op);
    && (p.op.OpTrigger? ==> base <= p.now)
    && (w < 2000 || (need <= w && (need <= 3001 ||
          (w <= TWO_63 / 10 && forall i :: 0 <= i < |p.turns| ==> p.turns[i].now + k.minT <= base + TWO_63))))
  }

  lemma {:induction false} AllRoomy(k: Plan, f: Flow, ps: seq<Play>, need: nat, base: nat)
    requires Sound(f.inbox) && base <= f.startT && Need(k.pt, f) + Costs(k.pt, AllArrivals(ps)) <= need
    requires forall i :: 0 <= i < |ps| ==> RoomyPlay(k, ps[i], need, base)
    ensures var o := Played(k, f, ps);
            && o.wraps == 0 && Sound(o.flow.inbox) && base <= o.flow.startT
            && Need(k.pt, o.flow) <= Need(k.pt, f) + Costs(k.pt, AllArrivals(ps))
    decreases |ps|
  {
    if ps != [] {
      var ps', p := ps[..|ps| - 1], ps[|ps| - 1];
      CostsConcat(k.pt, AllArrivals(ps'), Arrivals(p.turns));
      AllRoomy(k, f, ps', need, base);
      var o := Played(k, f, ps');
      if o.done {
        OneRoomy(k, o.flow, p, need, base);
      }
    }
  }

  lemma OneRoomy(k: Plan, f: Flow, p: Play, need: nat, base: nat)
    requires Sound(f.inbox) && base <= f.startT && Need(k.pt, f) + Costs(k.pt, Arrivals(p.turns)) <= need
    requires RoomyPlay(k, p, need, base)
    ensures var o := PlayedOne(k, f, p);
            && o.wraps == 0 && Sound(o.flow.inbox) && base <= o.flow.startT
            && Need(k.pt, o.flow) <= Need(k.pt, f) + Costs(k.pt, Arrivals(p.turns))
  {
    var rest, f1 := Remains(k.pt, f.track.live.ctl, p.op), Started(k, f, p);
    assert Need(k.pt, f1) == Need(k.pt, f);
    if rest.Some? && f1.processCmd && rest.value >= 2000 {
      assert rest.value == WaitOf(k.pt, p.op);
      var floor := if need <= 3001 && rest.value > 3001 then 3001 else rest.value;
      TurnsCovered(k, f1, rest.value, p.turns, need, floor);
    }
  }

  /** Main result: a sequence is on time, whatever the overrides and the clock, if each of its long
      waits has room for all commands that are pending or arrive while it plays. */
  lemma RoomySequenceOnTime(k: Plan, f: Flow, ps: seq<Play>, base: nat) returns (bs: seq<Beat>)
    requires f.track.t == 0 && Sound(f.inbox) && base <= f.startT
    requires forall i :: 0 <= i < |ps| ==>
               RoomyPlay(k, ps[i], Need(k.pt, f) + Costs(k.pt, AllArrivals(ps)), base)
    ensures var o := Played(k, f, ps);
            && o.wraps == 0 && o.flow.track == Replay(k.pt, f.track, bs)
            && (if o.done then Owns(bs) == Ops(ps) else Owns(bs) <= Ops(ps)) && OnTime(k.pt, f.track, bs)
            && (o.done ==> o.flow.track.t == Schedule(k.pt, Ops(ps)))
  {
    AllRoomy(k, f, ps, Need(k.pt, f) + Costs(k.pt, AllArrivals(ps)), base);
    bs := PlaysOnTime(k, f, ps);
  }

  // ---------------------------------------------------------------------------------------
  // Waits without room

  /** The time that the commands among the beats take. */
  function ServeTime(pt: PulseTimes, s: Track, bs: seq<Beat>): nat {
    if bs == [] then 0
    else
      var bs', b := bs[..|bs| - 1], bs[|bs| - 1];
      ServeTime(pt, s, bs') + if b.Serve? then BeatTime(pt, Replay(pt, s, bs').live, b) else 0
  }

  lemma ServeTimeNext(pt: PulseTimes, s: Track, bs: seq<Beat>, b: Beat)
    ensures ServeTime(pt, s, bs + [b]) ==
            ServeTime(pt, s, bs) + if b.Serve? then BeatTime(pt, Replay(pt, s, bs).live, b) else 0
  {
    assert (bs + [b])[..|bs|] == bs;
  }

  /** Turns that find the sequence far enough ahead of the clock. */
  predicate InTime(k: Plan, f: Flow, turns: seq<Turn>) {
    forall i :: 0 <= i < |turns| ==> turns[i].now + k.minT <= f.startT + f.track.t * 10
  }

  function ReleaseTime(f: Flow, turns: seq<Turn>): nat {
    if f.released || turns == [] then 0 else 1000
  }

  /** Since `f`, these beats: commands, and the release. */
  ghost predicate Spent(k: Plan, f: Flow, f': Flow, bs: seq<Beat>, release: nat) {
    && FillsFrom(k.pt, f.track, f'.track, bs) && f'.startT == f.startT
    && f'.track.t == f.track.t + ServeTime(k.pt, f.track, bs) + release
  }

  lemma SpentOne(k: Plan, f: Flow, f1: Flow, f2: Flow, bs: seq<Beat>, b: Beat, release: nat)
    requires Spent(k, f, f1, bs, release) && !b.Own?
    requires f2.track == Beaten(k.pt, f1.track, b) && f2.startT == f1.startT
    ensures Spent(k, f, f2, bs + [b], if b.Idle? then release + b.time else release)
  {
    ReplayNext(k.pt, f.track, bs, b);
    ServeTimeNext(k.pt, f.track, bs, b);
    if b.Idle? {
      IdleTime(k.pt, f1.track, b.time);
    }
  }

  /** One turn ahead of the clock. */
  lemma SpentTurn(k: Plan, f: Flow, f1: Flow, left: Time, turn: Turn, bs: seq<Beat>, release: nat)
    returns (bs': seq<Beat>)
    requires Spent(k, f, f1, bs, release) && !Behind(k, f1, turn.now)
    ensures var o := TurnOf(k, f1, left, turn);
            !o.done && o.flow.released && Spent(k, f, o.flow, bs', release + if f1.released then 0 else 1000)
  {
    var f0 := f1.(inbox := f1.inbox.Arrive(turn.arrived));
    var o1 := Release(k, f0, left);
    bs' := bs;
    if !f1.released {
      SpentOne(k, f, f0, o1.flow, bs, Idle(1000), release);
      bs' := bs + [Idle(1000)];
    }
    var release' := release + if f1.released then 0 else 1000;
    var cmd := o1.flow.inbox.Next();
    if cmd.Some? {
      SpentOne(k, f, o1.flow, ServeNext(k, o1.flow, o1.left, turn.answer).flow, bs', Serve(cmd.value), release');
      bs' := bs' + [Serve(cmd.value)];
    }
  }

  lemma {:induction false} SpentTurns(k: Plan, f: Flow, wait: Time, turns: seq<Turn>) returns (bs: seq<Beat>)
    requires InTime(k, f, turns)
    ensures var o := WaitTurns(k, f, wait, turns);
            && !o.done && o.flow.released == (f.released || turns != [])
            && Spent(k, f, o.flow, bs, ReleaseTime(f, turns))
    decreases |turns|
  {
    if turns == [] {
      bs := [];
    } else {
      var turns', turn := turns[..|turns| - 1], turns[|turns| - 1];
      bs := SpentTurns(k, f, wait, turns');
      var o := WaitTurns(k, f, wait, turns');
      assert Behind(k, o.flow, turn.now) ==> Behind(k, f, turn.now);
      bs := SpentTurn(k, f, o.flow, o.left, turn, bs, ReleaseTime(f, turns'));
    }
  }

  /** Ahead of the clock the condition is exact, whatever is served and arrives: a wait wraps around
      unless the times that the commands it has served took, and the release, fit it. */
  lemma WrapsIff(k: Plan, f: Flow, wait: Time, turns: seq<Turn>) returns (bs: seq<Beat>)
    requires wait >= 2000 && f.processCmd && InTime(k, f, turns)
    ensures var o := WaitFor(k, f, wait, turns);
            && !o.done && FillsFrom(k.pt, f.track, o.flow.track, bs)
            && (o.wraps == 0 <==> ServeTime(k.pt, f.track, bs) + ReleaseTime(f, turns) <= wait)
  {
    bs := SpentTurns(k, f, wait, turns);
    var bs' := TurnsBalance(k, f, wait, turns);
    var o, used := WaitTurns(k, f, wait, turns), ServeTime(k.pt, f.track, bs) + ReleaseTime(f, turns);
    assert used + o.left == wait + o.wraps * TWO_64;
  }

  // ---------------------------------------------------------------------------------------
  // A run that wraps around

  /** The first `n` pending commands have been served, and took some time each. */
  ghost predicate ServedSets(f: Flow, f': Flow, n: nat) {
    && f'.startT == f.startT && f'.inbox.queue == f.inbox.queue && !f'.inbox.waiting
    && f'.inbox.filter == f.inbox.filter + n
    && f'.track.t >= f.track.t + n
  }

  lemma ServedSetsNext(k: Plan, f: Flow, f1: Flow, left: Time, turn: Turn, n: nat)
    requires ServedSets(f, f1, n) && f.inbox.filter + n < |f.inbox.queue| && f.inbox.queue[f.inbox.filter + n].TtlCmd?
    requires turn.arrived == [] && !Behind(k, f1, turn.now) && k.pt.min > 0
    ensures var o := TurnOf(k, f1, left, turn);
            !o.done && ServedSets(f, o.flow, n + 1)
  {
    var f0 := f1.(inbox := f1.inbox.Arrive(turn.arrived));
    assert f0.inbox.queue == f1.inbox.queue;
    var o1, cmd := Release(k, f0, left), f.inbox.queue[f.inbox.filter + n];
    IdleTime(k.pt, f0.track, 1000);
    assert o1.flow.track.t >= f1.track.t && o1.flow.inbox.Next() == Some(cmd);
    SetTime(k.pt, o1.flow.track.live, cmd);
  }

  lemma SetTime(pt: PulseTimes, s: Live, cmd: ReqCmd)
    requires cmd.TtlCmd?
    ensures BeatTime(pt, s, Serve(cmd)) == pt.min
  {
    var ps := RunCmd(pt, s.ctl, cmd).pulses;
    assert ps == [ps[0]];
    TotalOne(pt, ps[0]);
  }

  lemma {:induction false} ServesSets(k: Plan, f: Flow, wait: Time, turns: seq<Turn>)
    requires InTime(k, f, turns) && !f.inbox.waiting && f.inbox.filter + |turns| <= |f.inbox.queue| && k.pt.min > 0
    requires forall i :: 0 <= i < |turns| ==> turns[i].arrived == []
    requires forall i :: 0 <= i < |f.inbox.queue| ==> f.inbox.queue[i].TtlCmd?
    ensures var o := WaitTurns(k, f, wait, turns);
            !o.done && ServedSets(f, o.flow, |turns|)
    decreases |turns|
  {
    if turns != [] {
      var turns', turn := turns[..|turns| - 1], turns[|turns| - 1];
      ServesSets(k, f, wait, turns');
      var o := WaitTurns(k, f, wait, turns');
      assert Behind(k, o.flow, turn.now) ==> Behind(k, f, turn.now);
      ServedSetsNext(k, f, o.flow, o.left, turn, |turns'|);
    }
  }

  /** A long wait, ahead of the clock, with more TTL commands queued than it has steps. */
  lemma TooManySets(k: Plan, f: Flow, wait: Time, turns: seq<Turn>)
    requires wait >= 2000 && f.processCmd && k.pt.min > 0 && |turns| == wait + 1
    requires InTime(k, f, turns) && !f.inbox.waiting && f.inbox.filter + |turns| <= |f.inbox.queue|
    requires forall i :: 0 <= i < |turns| ==> turns[i].arrived == []
    requires forall i :: 0 <= i < |f.inbox.queue| ==> f.inbox.queue[i].TtlCmd?
    ensures WaitFor(k, f, wait, turns).wraps > 0
  {
    ServesSets(k, f, wait, turns);
    var bs := TurnsBalance(k, f, wait, turns);
    var o, n := WaitTurns(k, f, wait, turns), |turns|;
    assert o.flow.track.t + o.left == f.track.t + wait + o.wraps * TWO_64;
  }

  /** A wait that starts the sequence, at the clock's own pace, is played ahead at once. */
  lemma FirstWait(k: Plan, f: Flow, lead: Time, start: nat)
    requires f.track.t == 0 && f.startT == start && f.processCmd && 0 < k.minT <= TWO_63 && 2000 <= lead <= TWO_63 / 10
    ensures var o := PlayedOne(k, f, Play(OpWait(lead), [Turn(start, [], None)], start));
            && o.done && o.wraps == 0 && o.flow.track.t == lead && o.flow.startT == start && o.flow.processCmd
            && o.flow.inbox.queue == f.inbox.queue && o.flow.inbox.filter == f.inbox.filter
            && o.flow.inbox.waiting == f.inbox.waiting
  {
    var p, turn := Play(OpWait(lead), [Turn(start, [], None)], start), Turn(start, [], None);
    var f1 := Started(k, f, p);
    OwnTime(k.pt, f.track.live, p.op);
    assert f1.track.t == 0;
    var f2 := f1.(inbox := f1.inbox.Arrive([]));
    assert f2.inbox.queue == f1.inbox.queue;
    BehindEndsWait(k, f2, lead, start);
    var bs := AheadBalances(k, f2, lead, start);
    assert [turn][..0] == [];
    assert WaitTurns(k, f1, lead, []) == Outcome(f1, lead, false, 0);
  }

  /** Any long wait can wrap around, in a run from the start of a sequence in which the clock stands
      still: the first wait is played ahead, and in the second the sequence is in time to serve the
      TTL commands queued, more than the wait has steps. */
  lemma WaitCanWrap(k: Plan, live: Live, start: nat, lead: Time, wait: Time) returns (f: Flow, ps: seq<Play>)
    requires wait >= 2000 && k.pt.min > 0 && 0 < k.minT <= lead * 10 && 2000 <= lead <= TWO_63 / 10
    ensures f == Flow(Track(live, [], 0, []), start, false, true, f.inbox)
    ensures f.inbox.filter == 0 && !f.inbox.waiting && f.inbox.started == [] && f.inbox.came == f.inbox.queue
    ensures |ps| == 2 && ps[0].op == OpWait(lead) && ps[1].op == OpWait(wait)
    ensures forall i, j :: 0 <= i < 2 && 0 <= j < |ps[i].turns| ==> ps[i].turns[j].now == start
    ensures Played(k, f, ps).wraps > 0
  {
    var queue := seq(wait + 1, _ => TtlCmd(true, 0, {}));
    var turns := seq(wait + 1, _ => Turn(start, [], None));
    f := Flow(Track(live, [], 0, []), start, false, true, Inbox(queue, 0, false, [], queue));
    var p0, p1 := Play(OpWait(lead), [Turn(start, [], None)], start), Play(OpWait(wait), turns, start);
    ps := [p0, p1];
    FirstWait(k, f, lead, start);
    var o0 := PlayedOne(k, f, p0);
    OwnTime(k.pt, o0.flow.track.live, p1.op);
    TooManySets(k, Started(k, o0.flow, p1), wait, turns);
    PlayedTwo(k, f, p0, p1);
  }

  lemma PlayedTwo(k: Plan, f: Flow, p0: Play, p1: Play)
    requires PlayedOne(k, f, p0).done && PlayedOne(k, f, p0).wraps == 0
    ensures Played(k, f, [p0, p1]) == PlayedOne(k, PlayedOne(k, f, p0).flow, p1)
  {
    assert [p0, p1][..1] == [p0] && [p0][..0] == [];
    assert Played(k, f, []) == Outcome(f, 0, true, 0);
    assert Played(k, f, [p0]) == PlayedOne(k, f, p0);
  }
}
