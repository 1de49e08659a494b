/** The server's bookkeeping of clients that wait for a sequence (lib/server.cpp), as the code does
    it: loops over the status entries and their wait lists. */
module Server {
  import Pulses
  import opened Sequences
  import opened WaitDesk
  import CtrlIface

  class Server {
    var seqStatus: seq<Status>
    var replied: multiset<nat>
    var value: map<nat, nat>
    ghost var asked: seq<nat>
    ghost var queued: set<nat>
    ghost var forFlush: set<nat>
    ghost var seen: seq<Notice>
    ghost var astray: bool

    ghost function State(): Desk
      reads this
    {
      Desk(seqStatus, asked, queued, forFlush, replied, value, seen, astray)
    }

    constructor ()
      ensures State() == Desk([], [], {}, {}, multiset{}, map[], [], false)
    {
      seqStatus, replied, value := [], multiset{}, map[];
      asked, queued, forFlush, seen, astray := [], {}, {}, [], false;
    }

    method FindSeqStatus(id: nat) returns (i: nat)
      ensures i == Find(seqStatus, id)
    {
      i := 0;
      while i < |seqStatus|
        invariant i <= |seqStatus|
        invariant forall j :: 0 <= j < i ==> seqStatus[j].id != id
      {
        if seqStatus[i].id == id {
          return;
        }
        i := i + 1;
      }
    }

    method SendReply(req: nat, val: nat)
      modifies this
      ensures State() == Reply(old(State()), [req], val)
    {
      replied := replied + multiset{req};
      value := value[req := val];
      assert value == old(value) + (map r | r in [req] :: val);
    }

    /** Tell everyone who waits for the flush. */
    method ReplyFlushed(waits: seq<Waiter>)
      modifies this
      ensures State() == Reply(old(State()), ForFlush(waits), 0)
    {
      var k := 0;
      ghost var before, told := State(), [];
      NoReply(before, 0);
      while k < |waits|
        invariant k <= |waits| && told == ForFlush(waits[..k])
        invariant State() == Reply(before, told, 0)
      {
        assert waits[..k + 1][..k] == waits[..k];
        if waits[k].forFlush {
          SendReply(waits[k].req, 0);
          ReplyOneMore(before, told, waits[k].req, 0);
          told := told + [waits[k].req];
        }
        k := k + 1;
      }
      assert waits[..k] == waits;
    }

    method Flushed(id: nat)
      modifies this
      ensures State() == Notify(old(State()), Flush(id))
    {
      seen := seen + [Flush(id)];
      var i := FindSeqStatus(id);
      if i == |seqStatus| {
        astray := true;
        return;
      }
      seqStatus := seqStatus[i := seqStatus[i].(flushed := true)];
      ReplyFlushed(seqStatus[i].waits);
    }

    /** Tell everyone who has not been told yet. */
    method ReplyOpen(status: Status, val: nat)
      modifies this
      ensures State() == Reply(old(State()), Open(status.waits, status.flushed), val)
    {
      var k := 0;
      ghost var before, open := State(), [];
      NoReply(before, val);
      while k < |status.waits|
        invariant k <= |status.waits| && open == Open(status.waits[..k], status.flushed)
        invariant State() == Reply(before, open, val)
      {
        var w := status.waits[k];
        OpenNext(status.waits, k, status.flushed);
        if !(w.forFlush && status.flushed) {
          SendReply(w.req, val);
          ReplyOneMore(before, open, w.req, val);
          open := open + [w.req];
        }
        k := k + 1;
      }
      assert status.waits[..k] == status.waits;
    }

    method Finalize(id: nat, cancel: bool)
      modifies this
      ensures State() == WaitDesk.Finalize(old(State()), id, cancel)
    {
      var i := FindSeqStatus(id);
      if i == |seqStatus| {
        return;
      }
      ReplyOpen(seqStatus[i], if cancel then 1 else 0);
      seqStatus := seqStatus[..i] + seqStatus[i + 1..];
    }

    /** The callbacks that the server is given, the last being its destructor. */
    method Receive(n: Notice)
      modifies this
      ensures State() == Notify(old(State()), n)
    {
      match n
      case Start(id) =>
        seen := seen + [n];
      case Flush(id) =>
        Flushed(id);
      case End(id) =>
        seen := seen + [n];
        Finalize(id, false);
      case Cancel(id) =>
        seen := seen + [n];
        Finalize(id, true);
      case Free(id) =>
        seen := seen + [n];
        Finalize(id, true);
    }

    /** A new sequence is queued and gets an entry. */
    method ProcessRunSeq(q: CtrlIface.SeqQueue) returns (id: nat)
      requires q.frontend.Quiet?
      modifies this, q
      ensures World(q.State(), State()) == Next(old(World(q.State(), State())), Seq(RunCode)) && id == q.seqCnt
    {
      id := q.RunCode();
      seqStatus := seqStatus + [Status(id, [], false)];
    }

    /** Collect finished sequences, with the backend's steps in between, and receive the callbacks: a run
        of the server and the two threads. */
    method Collect(q: CtrlIface.SeqQueue, turns: nat -> seq<Event>, last: seq<Event>) returns (ghost es: seq<Event>)
      requires q.frontend.Quiet? && Inv(q.State())
      requires forall k: nat :: forall e :: e in turns(k) ==> CtrlIface.OfBackend(e)
      requires forall e :: e in last ==> CtrlIface.OfBackend(e)
      modifies this, q
      ensures World(q.State(), State()) == Run(old(World(q.State(), State())), Moves(es))
      ensures q.frontend.Quiet? && Inv(q.State()) && |q.done| >= |old(q.done)| + old(q.filter)
    {
      ghost var w := World(q.State(), State());
      var n := |q.log|;
      es := q.RunFrontend(turns, last);
      ghost var made := CollectingRuns(w, es);
      assert q.log[n..] == made;
      ReceiveAll(q.log[n..]);
    }

    method ReceiveAll(ns: seq<Notice>)
      modifies this
      ensures State() == NotifyAll(old(State()), ns)
    {
      ghost var d := State();
      for i := 0 to |ns|
        invariant State() == NotifyAll(d, ns[..i])
      {
        assert ns[..i + 1] == ns[..i] + [ns[i]];
        NotifyTwo(d, ns[..i], [ns[i]]);
        assert [ns[i]][1..] == [];
        Receive(ns[i]);
      }
      assert ns[..|ns|] == ns;
    }

    /** A request to wait, numbered `|asked|`. */
    method WaitSeq(id: nat, what: nat, req: nat)
      requires req == |asked|
      modifies this
      ensures State() == Ask(old(State()), id, what)
    {
      asked := asked + [id];
      if id == 0 || (what != 1 && what != 2) {
        SendReply(req, 1);
        return;
      }
      if seqStatus == [] || seqStatus[0].id > id {
        SendReply(req, 0);
        return;
      }
      var i := 0;
      while i < |seqStatus|
        invariant i <= |seqStatus|
        invariant forall j :: 0 <= j < i ==> seqStatus[j].id != id
        invariant State() == old(State()).(asked := old(asked) + [id])
      {
        var status := seqStatus[i];
        if status.id == id {
          assert i == Find(seqStatus, id);
          if what == 1 && status.flushed {
            SendReply(req, 0);
            return;
          }
          seqStatus := seqStatus[i := status.(waits := status.waits + [Waiter(what == 1, req)])];
          queued := queued + {req};
          forFlush := if what == 1 then forFlush + {req} else forFlush;
          return;
        }
        i := i + 1;
      }
      SendReply(req, 1);
    }
  }

  function Moves(es: seq<Event>): seq<Move> {
    if es == [] then [] else Moves(es[..|es| - 1]) + [Seq(es[|es| - 1])]
  }

  /** One more step of collecting. */
  lemma CollectingNext(w: World, w1: World, made: seq<Notice>, e: Event)
    requires CtrlIface.OfCollecting(e) && w1.q.log == w.q.log + made && w1.d == NotifyAll(w.d, made)
    ensures var w2 := Next(w1, Seq(e));
            && w2.q == Step(w1.q, e) && w2.q.log == w.q.log + (made + Made(w1.q, e))
            && w2.d == NotifyAll(w.d, made + Made(w1.q, e))
  {
    var more := Made(w1.q, e);
    StepLogs(w1.q, e);
    NotifyTwo(w.d, made, more);
    Pulses.SeqAssoc(w.q.log, made, more);
    assert w1.q.log + more == w.q.log + (made + more);
  }

  /** Steps of collecting, seen by the server: the queue's steps, and the callbacks made, in order. */
  lemma {:induction false} CollectingRuns(w: World, es: seq<Event>) returns (made: seq<Notice>)
    requires forall e :: e in es ==> CtrlIface.OfCollecting(e)
    ensures var w' := Run(w, Moves(es));
            w'.q == Steps(w.q, es) && w'.q.log == w.q.log + made && w'.d == NotifyAll(w.d, made)
    decreases |es|
  {
    if es == [] {
      made := [];
    } else {
      var es', e := es[..|es| - 1], es[|es| - 1];
      made := CollectingRuns(w, es');
      RunNext(w, Moves(es'), Seq(e));
      CollectingNext(w, Run(w, Moves(es')), made, e);
      made := made + Made(Steps(w.q, es'), e);
    }
  }

  lemma RunNext(w: World, ms: seq<Move>, m: Move)
    ensures Run(w, ms + [m]) == Next(Run(w, ms), m)
  {
    assert (ms + [m])[..|ms|] == ms;
  }

  lemma StepLogs(q: Queue, e: Event)
    ensures Step(q, e).log == q.log + Made(q, e)
  {
  }

  lemma OpenNext(waits: seq<Waiter>, k: nat, flushed: bool)
    requires k < |waits|
    ensures Open(waits[..k + 1], flushed) ==
            if waits[k].forFlush && flushed then Open(waits[..k], flushed)
            else Open(waits[..k], flushed) + [waits[k].req]
  {
    assert waits[..k + 1][..k] == waits[..k];
  }

  lemma NoReply(d: Desk, val: nat)
    ensures Reply(d, [], val) == d
  {
    assert d.value + (map r | r in [] :: val) == d.value;
  }

  /** Answering one more request with the same value. */
  lemma ReplyOneMore(d: Desk, reqs: seq<nat>, req: nat, val: nat)
    ensures Reply(d, reqs + [req], val) == Reply(Reply(d, reqs, val), [req], val)
  {
    assert multiset(reqs + [req]) == multiset(reqs) + multiset([req]);
    assert d.value + (map r | r in reqs + [req] :: val) ==
           (d.value + (map r | r in reqs :: val)) + (map r | r in [req] :: val);
  }
}
