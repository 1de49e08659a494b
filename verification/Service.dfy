/** Which commands the runner serves in its waits (lib/controller.cpp), and in which order. */
module Service {
  import opened Pulses
  import opened Backend
  import opened Timeline

  /** The commands among the beats. */
  function Serves(bs: seq<Beat>): seq<ReqCmd> {
    if bs == [] then []
    else if bs[|bs| - 1].Serve? then Serves(bs[..|bs| - 1]) + [bs[|bs| - 1].cmd]
    else Serves(bs[..|bs| - 1])
  }

  function Arrivals(turns: seq<Turn>): seq<ReqCmd> {
    if turns == [] then [] else Arrivals(turns[..|turns| - 1]) + turns[|turns| - 1].arrived
  }

  /** The queue has what it says it has. */
  predicate Sound(i: Inbox) {
    i.filter + (if i.waiting then 1 else 0) <= |i.queue|
  }

  lemma PumpTakes(i: Inbox, answer: Option<Word>)
    requires Sound(i)
    ensures Sound(i.Pump(answer))
    ensures i.Pending() == (if i.Next().Some? then [i.Next().value] else []) + i.Pump(answer).Pending()
  {
  }

  lemma ArriveAdds(i: Inbox, cmds: seq<ReqCmd>)
    requires Sound(i)
    ensures Sound(i.Arrive(cmds)) && i.Arrive(cmds).Pending() == i.Pending() + cmds
  {
  }

  /** What has been served and what is pending is what had been, followed by what came in. */
  ghost predicate Fifo(f: Flow, f': Flow, came: seq<ReqCmd>) {
    && Sound(f'.inbox)
    && Serves(f'.track.beats) + f'.inbox.Pending() == (Serves(f.track.beats) + f.inbox.Pending()) + came
  }

  lemma ServesNext(bs: seq<Beat>, b: Beat)
    ensures Serves(bs + [b]) == if b.Serve? then Serves(bs) + [b.cmd] else Serves(bs)
  {
    assert (bs + [b])[..|bs|] == bs;
  }

  lemma {:induction false} ServesIdle(bs: seq<Beat>, ts: seq<nat>)
    ensures Serves(bs + Idles(ts)) == Serves(bs)
    decreases |ts|
  {
    if ts == [] {
      assert bs + [] == bs;
    } else {
      ServesNext(bs, Idle(ts[0]));
      ServesIdle(bs + [Idle(ts[0])], ts[1..]);
      SeqAssoc(bs, [Idle(ts[0])], Idles(ts[1..]));
    }
  }

  lemma IdledServes(pt: PulseTimes, s: Track, t: nat)
    ensures Serves(Idled(pt, s, t).beats) == Serves(s.beats)
  {
    ReplayBeats(pt, s, Idles(Pieces(t)));
    ServesIdle(s.beats, Pieces(t));
  }

  lemma ServeFifo(k: Plan, f: Flow, left: Time, answer: Option<Word>)
    requires Sound(f.inbox)
    ensures Fifo(f, ServeNext(k, f, left, answer).flow, [])
  {
    PumpTakes(f.inbox, answer);
    var cmd, done, rest := f.inbox.Next(), Serves(f.track.beats), f.inbox.Pump(answer).Pending();
    var f' := ServeNext(k, f, left, answer).flow;
    assert f'.inbox.Pending() == rest;
    var first := if cmd.Some? then [cmd.value] else [];
    assert Serves(f'.track.beats) == done + first by {
      if cmd.Some? {
        ServesNext(f.track.beats, Serve(cmd.value));
      } else {
        assert done + [] == done;
      }
    }
    FifoShift(done, first, rest);
  }

  lemma FifoShift(done: seq<ReqCmd>, first: seq<ReqCmd>, rest: seq<ReqCmd>)
    ensures (done + first) + rest == (done + (first + rest)) + []
  {
  }

  lemma FifoConcat(f: Flow, f1: Flow, f2: Flow, a: seq<ReqCmd>, b: seq<ReqCmd>)
    requires Fifo(f, f1, a) && Fifo(f1, f2, b)
    ensures Fifo(f, f2, a + b)
  {
    SeqAssoc(Serves(f.track.beats) + f.inbox.Pending(), a, b);
  }

  lemma ArriveFifo(f: Flow, cmds: seq<ReqCmd>)
    requires Sound(f.inbox)
    ensures Fifo(f, f.(inbox := f.inbox.Arrive(cmds)), cmds)
  {
    ArriveAdds(f.inbox, cmds);
    SeqAssoc(Serves(f.track.beats), f.inbox.Pending(), cmds);
  }

  /** Waiting serves nobody. */
  lemma WaitFifo(f: Flow, f': Flow)
    requires Sound(f.inbox) && f'.inbox == f.inbox && Serves(f'.track.beats) == Serves(f.track.beats)
    ensures Fifo(f, f', [])
  {
    var all := Serves(f.track.beats) + f.inbox.Pending();
    assert all + [] == all;
  }

  lemma AheadServes(k: Plan, f: Flow, left: Time, now: nat)
    requires Behind(k, f, now)
    ensures var f' := Ahead(k, f, left, now).flow;
            f'.inbox == f.inbox && f'.released == f.released && Serves(f'.track.beats) == Serves(f.track.beats)
  {
    var m := MinSeqT(f.startT + f.track.t * 10, now + k.minT);
    var n := if left <= m + 3000 then left else m;
    assert Ahead(k, f, left, now).flow.track == Idled(k.pt, f.track, n);
    IdledServes(k.pt, f.track, n);
  }

  lemma AheadFifo(k: Plan, f: Flow, left: Time, now: nat)
    requires Sound(f.inbox) && Behind(k, f, now)
    ensures Fifo(f, Ahead(k, f, left, now).flow, [])
  {
    AheadServes(k, f, left, now);
    WaitFifo(f, Ahead(k, f, left, now).flow);
  }

  lemma ReleaseFifo(k: Plan, f: Flow, left: Time)
    requires Sound(f.inbox)
    ensures Fifo(f, Release(k, f, left).flow, [])
  {
    ServesNext(f.track.beats, Idle(1000));
    WaitFifo(f, Release(k, f, left).flow);
  }

  lemma TurnFifo(k: Plan, f: Flow, left: Time, turn: Turn)
    requires Sound(f.inbox)
    ensures Fifo(f, TurnOf(k, f, left, turn).flow, turn.arrived)
  {
    var f0, f' := f.(inbox := f.inbox.Arrive(turn.arrived)), TurnOf(k, f, left, turn).flow;
    ArriveFifo(f, turn.arrived);
    assert Fifo(f0, f', []) by {
      if Behind(k, f0, turn.now) {
        AheadFifo(k, f0, left, turn.now);
      } else {
        var o1 := Release(k, f0, left);
        ReleaseFifo(k, f0, left);
        ServeFifo(k, o1.flow, o1.left, turn.answer);
        FifoConcat(f0, o1.flow, f', [], []);
      }
    }
    FifoConcat(f, f0, f', turn.arrived, []);
    assert turn.arrived + [] == turn.arrived;
  }

  /** What a turn gets done. Behind the clock it serves nobody. Otherwise it does not end the wait, the
      hold is released, the next command is served if there is one and no read is waiting, and a waiting
      read is completed exactly if there is an answer. */
  lemma TurnActs(k: Plan, f: Flow, left: Time, turn: Turn)
    requires f.inbox.waiting ==> f.inbox.filter < |f.inbox.queue| && f.inbox.queue[f.inbox.filter].Reads()
    ensures var o, i := TurnOf(k, f, left, turn), f.inbox.Arrive(turn.arrived);
            if Behind(k, f, turn.now) then
              o.flow.inbox == i && o.flow.released == f.released && Serves(o.flow.track.beats) == Serves(f.track.beats)
            else
              && !o.done && o.flow.released
              && Serves(o.flow.track.beats) == Serves(f.track.beats) + (if i.Next().Some? then [i.Next().value] else [])
              && (i.waiting ==> o.flow.inbox.waiting == turn.answer.None?)
              && (!i.waiting ==> (o.flow.inbox.waiting <==> i.Next().Some? && i.Next().value.Reads()))
  {
    var f0 := f.(inbox := f.inbox.Arrive(turn.arrived));
    if Behind(k, f0, turn.now) {
      AheadServes(k, f0, left, turn.now);
    } else {
      var o1 := Release(k, f0, left);
      ServesNext(f0.track.beats, Idle(1000));
      assert Serves(o1.flow.track.beats) == Serves(f.track.beats) && o1.flow.inbox == f0.inbox;
      ServeActs(k, o1.flow, o1.left, turn.answer);
    }
  }

  lemma ServeActs(k: Plan, f: Flow, left: Time, answer: Option<Word>)
    requires f.inbox.waiting ==> f.inbox.filter < |f.inbox.queue| && f.inbox.queue[f.inbox.filter].Reads()
    ensures var o, i := ServeNext(k, f, left, answer), f.inbox;
            && o.flow.released == f.released
            && Serves(o.flow.track.beats) == Serves(f.track.beats) + (if i.Next().Some? then [i.Next().value] else [])
            && (i.waiting ==> o.flow.inbox.waiting == answer.None?)
            && (!i.waiting ==> (o.flow.inbox.waiting <==> i.Next().Some? && i.Next().value.Reads()))
  {
    if f.inbox.Next().Some? {
      ServesNext(f.track.beats, Serve(f.inbox.Next().value));
    }
  }

  /** A wait serves commands in the order in which they were queued, none twice and none left out. */
  lemma {:induction false} TurnsFifo(k: Plan, f: Flow, wait: Time, turns: seq<Turn>) returns (came: seq<ReqCmd>)
    requires Sound(f.inbox)
    ensures came <= Arrivals(turns) && Fifo(f, WaitTurns(k, f, wait, turns).flow, came)
    ensures !WaitTurns(k, f, wait, turns).done ==> came == Arrivals(turns)
    decreases |turns|
  {
    if turns == [] {
      came := [];
    } else {
      var turns', turn := turns[..|turns| - 1], turns[|turns| - 1];
      came := TurnsFifo(k, f, wait, turns');
      var o := WaitTurns(k, f, wait, turns');
      if !o.done {
        TurnFifo(k, o.flow, o.left, turn);
        FifoConcat(f, o.flow, TurnOf(k, o.flow, o.left, turn).flow, came, turn.arrived);
        came := came + turn.arrived;
      }
    }
  }
}
