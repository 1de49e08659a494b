/** The life of a sequence request (lib/ctrl_iface.cpp, lib/controller.cpp): the frontend queues it
    and later runs its callbacks, the backend picks it up, plays it or drops it, and passes it back.
    The two threads share the queue, the cancel flag and the state of each sequence; a run is any
    interleaving of their steps. */
module Sequences {
  import opened Pulses

  datatype SeqState = Cancelled | Init | Started | Flushed | Ended

  /** The source compares states by number. */
  function Rank(s: SeqState): int {
    match s case Cancelled => -1 case Init => 0 case Started => 1 case Flushed => 2 case Ended => 3
  }

  datatype ReqSeq = ReqSeq(id: nat, cancel: bool, state: SeqState, processed: SeqState)

  /** The callbacks of a sequence; `Free` is the end of its life. */
  datatype Notice = Start(id: nat) | Flush(id: nat) | End(id: nat) | Cancel(id: nat) | Free(id: nat)

  /** Where the backend is with the sequence at the filter. */
  datatype Worker = Idle | Cancelling | Running | Finishing

  /** Where the frontend is in collecting finished sequences; `cur` is the sequence that was
      current when it began. */
  datatype Frontend = Quiet | Popping(cur: Option<nat>) | AtCurrent(id: nat) | Dangling

  datatype Done = Done(id: nat, cancelled: bool)

  /** Sequences before the filter are finished. `done` are those popped and freed, `flagged` those
      asked to be cancelled, and `early` those asked before the backend picked them. */
  datatype Queue = Queue(seqs: seq<ReqSeq>, filter: nat, seqCnt: nat, worker: Worker, frontend: Frontend,
                         log: seq<Notice>, done: seq<Done>, flagged: set<nat>, early: set<nat>)

  /** The callbacks that are due to a sequence, by what has been processed so far. */
  function Notices(s: ReqSeq): seq<Notice> {
    (if Rank(s.state) >= 1 && Rank(s.processed) < 1 then [Start(s.id)] else []) +
    (if Rank(s.state) >= 2 && Rank(s.processed) < 2 then [Flush(s.id)] else []) +
    (if Rank(s.state) >= 3 && Rank(s.processed) < 3 then [End(s.id)] else []) +
    (if s.state == Cancelled && s.processed != Cancelled then [Cancel(s.id)] else [])
  }

  datatype Event =
    | RunCode
    | CancelSeq(id: nat)  // 0 for all
    | Peek
    | PopNext
    | RunCurrent
    | Pick
    | Store
    | Forward

  predicate Matches(s: ReqSeq, id: nat) {
    id == 0 || s.id == id
  }

  function CancelAll(seqs: seq<ReqSeq>, id: nat): seq<ReqSeq> {
    seq(|seqs|, i requires 0 <= i < |seqs| => if Matches(seqs[i], id) then seqs[i].(cancel := true) else seqs[i])
  }

  /** The backend has not looked at the cancel flag of this sequence yet. */
  predicate Unpicked(q: Queue, i: nat) {
    q.filter < i || (q.filter == i && q.worker == Idle)
  }

  function NextState(s: SeqState): SeqState {
    match s case Init => Started case Started => Flushed case _ => Ended
  }

  function Update(q: Queue, i: nat, s: ReqSeq): Queue
    requires i < |q.seqs|
  {
    q.(seqs := q.seqs[i := s])
  }

  /** The callbacks made by a step. */
  function Made(q: Queue, e: Event): seq<Notice> {
    if e.PopNext? && q.frontend.Popping? && 0 < q.filter <= |q.seqs| then Notices(q.seqs[0]) + [Free(q.seqs[0].id)]
    else if e.RunCurrent? && q.frontend.AtCurrent? && Current(q).Some? then Notices(q.seqs[Current(q).value])
    else []
  }

  /** Where the sequence that the frontend holds on to is in the queue, if it has not been freed. */
  function Current(q: Queue): (r: Option<nat>)
    requires q.frontend.AtCurrent?
    ensures r.Some? ==> r.value < |q.seqs|
  {
    Position(q.seqs, q.frontend.id)
  }

  function Position(seqs: seq<ReqSeq>, id: nat): (r: Option<nat>)
    ensures r.Some? ==> r.value < |seqs| && seqs[r.value].id == id
    ensures r.None? ==> forall i :: 0 <= i < |seqs| ==> seqs[i].id != id
  {
    if seqs == [] then None
    else if seqs[|seqs| - 1].id == id then Some(|seqs| - 1)
    else Position(seqs[..|seqs| - 1], id)
  }

  function Step(q: Queue, e: Event): Queue {
    var q := q.(log := q.log + Made(q, e));
    match e
    case RunCode =>
      if !q.frontend.Quiet? then q
      else q.(seqCnt := q.seqCnt + 1, seqs := q.seqs + [ReqSeq(q.seqCnt + 1, false, Init, Init)])
    case CancelSeq(id) =>
      if !q.frontend.Quiet? then q
      else q.(seqs := CancelAll(q.seqs, id),
              flagged := q.flagged + set i | 0 <= i < |q.seqs| && Matches(q.seqs[i], id) :: q.seqs[i].id,
              early := q.early + set i: nat | 0 <= i < |q.seqs| && Matches(q.seqs[i], id) && Unpicked(q, i) :: q.seqs[i].id)
    case Peek =>
      if !q.frontend.Quiet? then q
      else q.(frontend := Popping(if q.filter < |q.seqs| then Some(q.seqs[q.filter].id) else None))
    case PopNext =>
      if !q.frontend.Popping? then q
      else if 0 < q.filter <= |q.seqs| then
        var s := q.seqs[0];
        q.(seqs := q.seqs[1..], filter := q.filter - 1, done := q.done + [Done(s.id, s.state == Cancelled)],
           frontend := Popping(if q.frontend.cur == Some(s.id) then None else q.frontend.cur))
      else q.(frontend := if q.frontend.cur.Some? then AtCurrent(q.frontend.cur.value) else Quiet)
    case RunCurrent =>
      if !q.frontend.AtCurrent? then q
      else if Current(q).None? then q.(frontend := Dangling)
      else
        var i := Current(q).value;
        Update(q, i, q.seqs[i].(processed := q.seqs[i].state)).(frontend := Quiet)
    case Pick =>
      if q.worker != Idle || |q.seqs| <= q.filter then q
      else q.(worker := if q.seqs[q.filter].cancel then Cancelling else Running)
    case Store =>
      if |q.seqs| <= q.filter then q
      else
        var s := q.seqs[q.filter];
        if q.worker == Cancelling then Update(q, q.filter, s.(state := Cancelled)).(worker := Finishing)
        else if q.worker == Running then
          Update(q, q.filter, s.(state := NextState(s.state)))
          .(worker := if NextState(s.state) == Ended then Finishing else Running)
        else q
    case Forward =>
      if q.worker != Finishing then q else q.(filter := q.filter + 1, worker := Idle)
  }

  function Steps(q: Queue, es: seq<Event>): Queue {
    if es == [] then q else Step(Steps(q, es[..|es| - 1]), es[|es| - 1])
  }

  ghost predicate Initial(q: Queue) {
    q == Queue([], 0, q.seqCnt, Idle, Quiet, [], [], {}, {})
  }

  // ---------------------------------------------------------------------------------------
  // What every step keeps

  predicate Final(s: SeqState) {
    s == Ended || s == Cancelled
  }

  /** The callbacks of a sequence that has been processed up to a state. */
  function Part(id: nat, s: SeqState): seq<Notice> {
    match s
    case Init => []
    case Started => [Start(id)]
    case Flushed => [Start(id), Flush(id)]
    case Ended => [Start(id), Flush(id), End(id)]
    case Cancelled => [Cancel(id)]
  }

  function Life(d: Done): seq<Notice> {
    Part(d.id, if d.cancelled then Cancelled else Ended) + [Free(d.id)]
  }

  function Lives(ds: seq<Done>): seq<Notice> {
    if ds == [] then [] else Lives(ds[..|ds| - 1]) + Life(ds[|ds| - 1])
  }

  /** One state can be followed by the other. */
  predicate Leads(a: SeqState, b: SeqState) {
    a == b || a == Init || (a != Cancelled && b != Cancelled && Rank(a) <= Rank(b))
  }

  /** Running the callbacks that are due completes what has been called already. */
  lemma NoticesComplete(s: ReqSeq)
    requires Leads(s.processed, s.state)
    ensures Part(s.id, s.processed) + Notices(s) == Part(s.id, s.state)
  {
  }

  /** Ids are consecutive, up to the last one issued. */
  ghost predicate Numbered(q: Queue) {
    && |q.done| + |q.seqs| <= q.seqCnt
    && (forall i :: 0 <= i < |q.seqs| ==> q.seqs[i].id == q.seqCnt - |q.seqs| + 1 + i)
    && (forall j :: 0 <= j < |q.done| ==> q.done[j].id == q.seqCnt - |q.seqs| - |q.done| + 1 + j)
  }

  /** The state of each sequence is what its place in the queue says. */
  ghost predicate Staged(q: Queue) {
    && q.filter <= |q.seqs| && (q.worker != Idle ==> q.filter < |q.seqs|)
    && (forall i :: 0 <= i < q.filter ==> Final(q.seqs[i].state))
    && (forall i :: q.filter < i < |q.seqs| ==> q.seqs[i].state == Init)
    && (q.filter < |q.seqs| ==>
          match q.worker
          case Idle => q.seqs[q.filter].state == Init
          case Cancelling => q.seqs[q.filter].state == Init && q.seqs[q.filter].cancel
          case Running => q.seqs[q.filter].state in {Init, Started, Flushed}
          case Finishing => Final(q.seqs[q.filter].state))
  }

  /** Only the first sequence has had callbacks, never more than its state allows. */
  ghost predicate Processed(q: Queue) {
    && (forall i :: 0 <= i < |q.seqs| ==> Leads(q.seqs[i].processed, q.seqs[i].state))
    && (forall i :: 0 < i < |q.seqs| ==> q.seqs[i].processed == Init)
  }

  /** Everything before the sequence that the frontend holds on to can be popped. */
  ghost predicate Holding(q: Queue) {
    match q.frontend
    case Quiet => true
    case Popping(cur) => cur.Some? ==> exists i :: 0 <= i <= q.filter && i < |q.seqs| && q.seqs[i].id == cur.value
    case AtCurrent(id) => q.seqs != [] && q.seqs[0].id == id
    case Dangling => false
  }

  /** A sequence is cancelled only if that was asked for, and certainly if it was asked for early. */
  ghost predicate Obeyed(q: Queue) {
    && (forall i :: 0 <= i < |q.seqs| ==>
          && (q.seqs[i].cancel <==> q.seqs[i].id in q.flagged)
          && (q.seqs[i].state == Cancelled ==> q.seqs[i].cancel)
          && (q.seqs[i].id in q.early ==> q.seqs[i].cancel && q.seqs[i].state in {Init, Cancelled}
                                          && !(i == q.filter && q.worker == Running)))
    && (forall d :: d in q.done ==> (d.cancelled ==> d.id in q.flagged) && (d.id in q.early ==> d.cancelled))
    && (forall id :: id in q.flagged || id in q.early ==> id <= q.seqCnt)
  }

  /** The callbacks so far: the whole life of each popped sequence, in order, and then those of the
      sequence that is first in the queue. */
  ghost predicate Logged(q: Queue) {
    q.log == Lives(q.done) + if q.seqs == [] then [] else Part(q.seqs[0].id, q.seqs[0].processed)
  }

  ghost predicate Inv(q: Queue) {
    Numbered(q) && Staged(q) && Processed(q) && Holding(q) && Obeyed(q) && Logged(q)
  }

  ghost predicate Shape(q: Queue) {
    Numbered(q) && Staged(q) && Processed(q)
  }

  /** What popping leaves, field by field. */
  lemma PopShape(q: Queue)
    requires Inv(q) && q.frontend.Popping? && 0 < q.filter
    ensures Shape(Step(q, PopNext))
  {
    var q' := Step(q, PopNext);
    assert forall i :: 0 <= i < |q'.seqs| ==> q'.seqs[i] == q.seqs[i + 1];
    assert Numbered(q');
    assert Staged(q');
    assert Processed(q');
  }

  lemma PopHolding(q: Queue)
    requires Inv(q) && q.frontend.Popping? && 0 < q.filter
    ensures Holding(Step(q, PopNext))
  {
    var q', cur := Step(q, PopNext), q.frontend.cur;
    if cur.Some? && cur.value != q.seqs[0].id {
      var i :| 0 <= i <= q.filter && i < |q.seqs| && q.seqs[i].id == cur.value;
      assert q'.seqs[i - 1].id == cur.value;
    }
  }

  lemma PopObeyed(q: Queue)
    requires Inv(q) && q.frontend.Popping? && 0 < q.filter
    ensures Obeyed(Step(q, PopNext))
  {
    var q' := Step(q, PopNext);
    assert forall i :: 0 <= i < |q'.seqs| ==> q'.seqs[i] == q.seqs[i + 1];
  }

  lemma LifeEnds(before: seq<Notice>, done: seq<Done>, s: ReqSeq)
    requires Leads(s.processed, s.state) && Final(s.state)
    requires before == Lives(done) + Part(s.id, s.processed)
    ensures before + (Notices(s) + [Free(s.id)]) == Lives(done + [Done(s.id, s.state == Cancelled)])
  {
    var d := Done(s.id, s.state == Cancelled);
    NoticesComplete(s);
    assert (done + [d])[..|done|] == done;
    assert before + (Notices(s) + [Free(s.id)]) == Lives(done) + ((Part(s.id, s.processed) + Notices(s)) + [Free(s.id)]);
    assert Life(d) == Part(s.id, s.state) + [Free(s.id)];
  }

  lemma PopLogged(q: Queue)
    requires Inv(q) && q.frontend.Popping? && 0 < q.filter
    ensures Logged(Step(q, PopNext))
  {
    LifeEnds(q.log, q.done, q.seqs[0]);
    var q', s := Step(q, PopNext), q.seqs[0];
    assert q'.log == q.log + (Notices(s) + [Free(s.id)]);
    assert q'.done == q.done + [Done(s.id, s.state == Cancelled)];
    assert q'.log == Lives(q'.done);
    var tail := if q'.seqs == [] then [] else Part(q'.seqs[0].id, q'.seqs[0].processed);
    assert tail == [] by {
      if q'.seqs != [] {
        assert q'.seqs[0] == q.seqs[1] && q.seqs[1].processed == Init;
      }
    }
    assert Lives(q'.done) + tail == Lives(q'.done);
  }

  lemma CancelKeeps(q: Queue, id: nat)
    requires Inv(q) && q.frontend.Quiet?
    ensures Inv(Step(q, CancelSeq(id)))
  {
    var q' := Step(q, CancelSeq(id));
    assert q'.log == q.log;
    forall i | 0 <= i < |q.seqs|
      ensures q'.seqs[i] == q.seqs[i].(cancel := q'.seqs[i].cancel)
      ensures q'.seqs[i].cancel == (q.seqs[i].cancel || Matches(q.seqs[i], id))
      ensures q.seqs[i].id in q'.flagged <==> q.seqs[i].id in q.flagged || Matches(q.seqs[i], id)
      ensures q.seqs[i].id in q'.early <==> q.seqs[i].id in q.early || (Matches(q.seqs[i], id) && Unpicked(q, i))
    {
    }
  }

  /** The backend stores, one after the other, that a sequence has started, is flushed and has ended, or
      that it is cancelled if it was flagged when it was picked; then it passes it back. */
  lemma StoresInOrder(q: Queue)
    requires Inv(q) && q.worker == Idle && q.filter < |q.seqs|
    ensures var i, p := q.filter, Step(q, Pick);
            var a := Step(p, Store);
            var b := Step(a, Store);
            var c := Step(b, Store);
            if q.seqs[i].cancel then
              a.seqs[i].state == Cancelled && a.worker == Finishing && Step(a, Forward).filter == i + 1
            else
              && a.seqs[i].state == Started && b.seqs[i].state == Flushed && c.seqs[i].state == Ended
              && a.worker == b.worker == Running && c.worker == Finishing && Step(c, Forward).filter == i + 1
  {
  }

  /** A request to cancel reaches exactly the queued sequence with that id, or all if it is for all. If the
      backend has not picked a sequence by then, that is remembered. */
  lemma CancelReaches(q: Queue, id: nat, i: nat)
    requires Inv(q) && q.frontend.Quiet? && i < |q.seqs|
    ensures var q', s := Step(q, CancelSeq(id)), q.seqs[i];
            && |q'.seqs| == |q.seqs|
            && q'.seqs[i] == s.(cancel := s.cancel || id == 0 || s.id == id)
            && (s.id in q'.flagged <==> s.id in q.flagged || id == 0 || s.id == id)
            && ((id == 0 || s.id == id) && (i > q.filter || (i == q.filter && q.worker == Idle)) ==> s.id in q'.early)
  {
  }

  lemma PartGrows(log: seq<Notice>, lives: seq<Notice>, s: ReqSeq)
    requires Leads(s.processed, s.state) && log == lives + Part(s.id, s.processed)
    ensures log + Notices(s) == lives + Part(s.id, s.state)
  {
    NoticesComplete(s);
    assert log + Notices(s) == lives + (Part(s.id, s.processed) + Notices(s));
  }

  lemma RunCurrentMakes(q: Queue)
    requires Inv(q) && q.frontend.AtCurrent?
    ensures var s := q.seqs[0];
            Step(q, RunCurrent) ==
            q.(log := q.log + Notices(s), seqs := q.seqs[0 := s.(processed := s.state)], frontend := Quiet)
  {
    assert Current(q) == Some(0);
  }

  lemma RunCurrentKeeps(q: Queue)
    requires Inv(q) && q.frontend.AtCurrent?
    ensures Inv(Step(q, RunCurrent))
  {
    RunCurrentMakes(q);
    PartGrows(q.log, Lives(q.done), q.seqs[0]);
    var q' := Step(q, RunCurrent);
    assert forall j :: 0 < j < |q.seqs| ==> q'.seqs[j] == q.seqs[j];
    assert Shape(q');
    assert Obeyed(q');
    assert Logged(q');
  }

  lemma RunCodeKeeps(q: Queue)
    requires Inv(q) && q.frontend.Quiet?
    ensures Inv(Step(q, RunCode))
  {
    var q' := Step(q, RunCode);
    assert q' == q.(seqCnt := q.seqCnt + 1, seqs := q.seqs + [ReqSeq(q.seqCnt + 1, false, Init, Init)]) by {
      assert q.log + [] == q.log;
    }
    assert forall j :: 0 <= j < |q.seqs| ==> q'.seqs[j] == q.seqs[j];
    assert Shape(q');
    assert Obeyed(q');
    assert Logged(q');
  }

  /** Steps that only move a thread along. */
  lemma MoveKeeps(q: Queue, e: Event)
    requires Inv(q) && (e.Peek? || (e.PopNext? && q.filter == 0) || e.Pick? || e.Forward?)
    ensures Inv(Step(q, e))
  {
    var q' := Step(q, e);
    assert q' == q.(frontend := q'.frontend, worker := q'.worker, filter := q'.filter) by {
      assert q.log + [] == q.log;
    }
    assert Numbered(q') && Processed(q') && Logged(q');
    assert Holding(q');
    assert Staged(q');
    assert Obeyed(q');
  }

  lemma StoreMakes(q: Queue)
    requires Staged(q) && q.filter < |q.seqs| && (q.worker == Cancelling || q.worker == Running)
    ensures var q', i := Step(q, Store), q.filter;
            && |q'.seqs| == |q.seqs| && q' == q.(seqs := q'.seqs, worker := q'.worker)
            && q'.seqs[i] == q.seqs[i].(state := q'.seqs[i].state)
            && (forall j :: 0 <= j < |q.seqs| && j != i ==> q'.seqs[j] == q.seqs[j])
            && (if q.worker == Cancelling then q'.seqs[i].state == Cancelled && q'.worker == Finishing
                else q'.seqs[i].state == NextState(q.seqs[i].state)
                     && q'.worker == if q'.seqs[i].state == Ended then Finishing else Running)
  {
    assert q.log + [] == q.log;
  }

  lemma StoreKeeps(q: Queue)
    requires Inv(q) && q.filter < |q.seqs| && (q.worker == Cancelling || q.worker == Running)
    ensures Inv(Step(q, Store))
  {
    var q', i := Step(q, Store), q.filter;
    StoreMakes(q);
    assert Leads(q.seqs[i].processed, q'.seqs[i].state);
    assert Shape(q');
    StoreHolds(q, q');
    assert Obeyed(q');
  }

  lemma StoreHolds(q: Queue, q': Queue)
    requires Holding(q) && |q'.seqs| == |q.seqs| && q'.frontend == q.frontend && q'.filter == q.filter
    requires forall j :: 0 <= j < |q.seqs| ==> q'.seqs[j].id == q.seqs[j].id
    ensures Holding(q')
  {
    if q.frontend.Popping? && q.frontend.cur.Some? {
      var i :| 0 <= i <= q.filter && i < |q.seqs| && q.seqs[i].id == q.frontend.cur.value;
      assert q'.seqs[i].id == q.frontend.cur.value;
    }
  }

  lemma StepKeeps(q: Queue, e: Event)
    requires Inv(q)
    ensures Inv(Step(q, e))
  {
    match e
    case PopNext =>
      if q.frontend.Popping? && 0 < q.filter {
        PopShape(q);
        PopHolding(q);
        PopObeyed(q);
        PopLogged(q);
      } else {
        assert q.frontend.Popping? || Step(q, e) == q;
        if q.frontend.Popping? {
          MoveKeeps(q, e);
        }
      }
    case CancelSeq(id) =>
      if q.frontend.Quiet? {
        CancelKeeps(q, id);
      } else {
        assert Step(q, e) == q;
      }
    case RunCurrent =>
      if q.frontend.AtCurrent? {
        RunCurrentKeeps(q);
      } else {
        assert Step(q, e) == q;
      }
    case RunCode =>
      if q.frontend.Quiet? {
        RunCodeKeeps(q);
      } else {
        assert Step(q, e) == q;
      }
    case Store =>
      if q.filter < |q.seqs| && (q.worker == Cancelling || q.worker == Running) {
        StoreKeeps(q);
      } else {
        assert Step(q, e) == q;
      }
    case _ => MoveKeeps(q, e);
  }

  lemma {:induction false} StepsKeep(q: Queue, es: seq<Event>)
    requires Inv(q)
    ensures Inv(Steps(q, es))
    decreases |es|
  {
    if es != [] {
      StepsKeep(q, es[..|es| - 1]);
      StepKeeps(Steps(q, es[..|es| - 1]), es[|es| - 1]);
    }
  }

  lemma {:induction false} InLives(ds: seq<Done>, n: Notice) returns (d: Done)
    requires n in Lives(ds)
    ensures d in ds && n in Life(d)
  {
    if n in Lives(ds[..|ds| - 1]) {
      d := InLives(ds[..|ds| - 1], n);
    } else {
      d := ds[|ds| - 1];
    }
  }

  /** Main result: in every run, the callbacks are the complete lives of the popped sequences one
      after the other, each start, flushed, end or else cancel, and then free; followed by a first
      part of the life of the next sequence. The frontend never touches a freed sequence. A
      sequence is cancelled only if someone asked, and never starts if they asked early enough. */
  lemma CallbacksInOrder(q: Queue, es: seq<Event>)
    requires Initial(q)
    ensures var q' := Steps(q, es);
            && Logged(q') && Numbered(q') && !q'.frontend.Dangling?
            && (forall id :: Cancel(id) in q'.log ==> id in q'.flagged)
            && (forall id :: id in q'.early ==> Start(id) !in q'.log)
  {
    StepsKeep(q, es);
    forall id | Cancel(id) in Steps(q, es).log ensures id in Steps(q, es).flagged {
      CancelWasAsked(Steps(q, es), id);
    }
    forall id | id in Steps(q, es).early ensures Start(id) !in Steps(q, es).log {
      EarlyNeverStarts(Steps(q, es), id);
    }
  }

  lemma CancelWasAsked(q: Queue, id: nat)
    requires Inv(q) && Cancel(id) in q.log
    ensures id in q.flagged
  {
    if Cancel(id) in Lives(q.done) {
      var d := InLives(q.done, Cancel(id));
      assert d.cancelled && d.id == id;
    } else {
      var s := q.seqs[0];
      assert Cancel(id) in Part(s.id, s.processed);
      assert s.id == id && s.state == Cancelled;
    }
  }

  lemma EarlyNeverStarts(q: Queue, id: nat)
    requires Inv(q) && id in q.early
    ensures Start(id) !in q.log
  {
    if Start(id) in Lives(q.done) {
      var d := InLives(q.done, Start(id));
    }
  }
}
