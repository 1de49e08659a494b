/** The frontend's side of the queues (lib/ctrl_iface.cpp), as the code does it. What the backend
    does to the sequence queue in the meantime is here as well, so that the frontend's loops can be
    run against it; the state machines these methods follow are in the modules imported. */
module CtrlIface {
  import opened Pulses
  import opened Backend
  import S = Sequences
  import C = Commands
  import Ids = StateId
  import CmdCache
  import Agreement

  /** The order in which the frontend collects: a look at the queue, pops, and a look at the
      sequence that was current, with steps of the backend in between. */
  predicate OfBackend(e: S.Event) {
    e.Pick? || e.Store? || e.Forward?
  }

  predicate OfCollecting(e: S.Event) {
    OfBackend(e) || e.Peek? || e.PopNext? || e.RunCurrent?
  }

  /** The queue after these steps of collecting and of the backend. */
  ghost predicate Reached(q: S.Queue, es: seq<S.Event>, q': S.Queue) {
    q' == S.Steps(q, es) && S.Inv(q') && forall e :: e in es ==> OfCollecting(e)
  }

  lemma Extend(q: S.Queue, es: seq<S.Event>, q': S.Queue, e: S.Event) returns (es': seq<S.Event>)
    requires Reached(q, es, q') && OfCollecting(e)
    ensures es' == es + [e] && Reached(q, es', S.Step(q', e))
  {
    es' := es + [e];
    assert es'[..|es|] == es;
    S.StepKeeps(q', e);
  }

  lemma BackendFrame(q: S.Queue, e: S.Event)
    requires OfBackend(e)
    ensures |S.Step(q, e).seqs| == |q.seqs| && S.Step(q, e).frontend == q.frontend
    ensures S.Step(q, e).done == q.done && q.filter <= S.Step(q, e).filter
  {
  }

  class SeqQueue {
    var seqs: seq<S.ReqSeq>
    var filter: nat
    var seqCnt: nat
    var worker: S.Worker
    var log: seq<S.Notice>
    ghost var frontend: S.Frontend
    ghost var done: seq<S.Done>
    ghost var flagged: set<nat>
    ghost var early: set<nat>

    ghost function State(): S.Queue
      reads this
    {
      S.Queue(seqs, filter, seqCnt, worker, frontend, log, done, flagged, early)
    }

    constructor (cnt: nat)
      ensures S.Initial(State()) && S.Inv(State())
    {
      seqs, filter, seqCnt, worker, log := [], 0, cnt, S.Idle, [];
      frontend, done, flagged, early := S.Quiet, [], {}, {};
    }

    method RunCode() returns (id: nat)
      requires frontend.Quiet?
      modifies this
      ensures State() == S.Step(old(State()), S.RunCode) && id == seqCnt
    {
      seqCnt := seqCnt + 1;
      id := seqCnt;
      seqs := seqs + [S.ReqSeq(id, false, S.Init, S.Init)];
      assert old(log) + [] == old(log);
    }

    method CancelSeq(id: nat) returns (found: bool)
      requires frontend.Quiet?
      modifies this
      ensures State() == S.Step(old(State()), S.CancelSeq(id))
      ensures found <==> exists i :: 0 <= i < |seqs| && S.Matches(old(seqs)[i], id)
    {
      found := false;
      ghost var was := seqs;
      var i := 0;
      while i < |seqs|
        invariant i <= |seqs| == |was|
        invariant forall j :: 0 <= j < |was| ==> seqs[j] == if j < i then S.CancelAll(was, id)[j] else was[j]
        invariant State() == old(State()).(seqs := seqs)
        invariant found <==> exists j :: 0 <= j < i && S.Matches(was[j], id)
      {
        if id == 0 || seqs[i].id == id {
          found := true;
          seqs := seqs[i := seqs[i].(cancel := true)];
        }
        i := i + 1;
      }
      assert seqs == S.CancelAll(was, id);
      CancelNoted(id, old(State()));
    }

    /** Keep track of who was asked to be cancelled. */
    ghost method CancelNoted(id: nat, q: S.Queue)
      requires q.frontend.Quiet? && State() == q.(seqs := S.CancelAll(q.seqs, id))
      modifies this`flagged, this`early
      ensures State() == S.Step(q, S.CancelSeq(id))
    {
      flagged, early := S.Step(q, S.CancelSeq(id)).flagged, S.Step(q, S.CancelSeq(id)).early;
      assert q.log + [] == q.log;
    }

    /** One step of the backend, at the sequence that it gets from the queue. */
    method BackendStep(e: S.Event)
      requires OfBackend(e)
      modifies this
      ensures State() == S.Step(old(State()), e)
    {
      assert log + [] == log;
      match e
      case Pick =>
        if worker == S.Idle && filter < |seqs| {
          worker := if seqs[filter].cancel then S.Cancelling else S.Running;
        }
      case Store =>
        if filter < |seqs| {
          var s := seqs[filter];
          if worker == S.Cancelling {
            seqs := seqs[filter := s.(state := S.Cancelled)];
            worker := S.Finishing;
          } else if worker == S.Running {
            seqs := seqs[filter := s.(state := S.NextState(s.state))];
            worker := if S.NextState(s.state) == S.Ended then S.Finishing else S.Running;
          }
        }
      case Forward =>
        if worker == S.Finishing {
          filter := filter + 1;
          worker := S.Idle;
        }
    }

    method BackendTurn(turn: seq<S.Event>, ghost q: S.Queue, ghost es: seq<S.Event>)
      returns (ghost es': seq<S.Event>)
      requires (forall e :: e in turn ==> OfBackend(e)) && Reached(q, es, State())
      modifies this
      ensures Reached(q, es', State()) && es <= es' && |seqs| == |old(seqs)| && frontend == old(frontend)
      ensures done == old(done) && old(filter) <= filter
    {
      es' := es;
      for i := 0 to |turn|
        invariant Reached(q, es', State()) && es <= es' && |seqs| == |old(seqs)| && frontend == old(frontend)
        invariant done == old(done) && old(filter) <= filter
      {
        ghost var here := State();
        BackendStep(turn[i]);
        es' := Extend(q, es', here, turn[i]);
        BackendFrame(here, turn[i]);
      }
    }

    method RunCallbacks(s: S.ReqSeq)
      modifies this`log
      ensures log == old(log) + S.Notices(s)
    {
      var state, pstate := S.Rank(s.state), S.Rank(s.processed);
      if state >= 1 && pstate < 1 {
        log := log + [S.Start(s.id)];
      }
      if state >= 2 && pstate < 2 {
        log := log + [S.Flush(s.id)];
      }
      if state >= 3 && pstate < 3 {
        log := log + [S.End(s.id)];
      }
      if s.state == S.Cancelled && s.processed != S.Cancelled {
        log := log + [S.Cancel(s.id)];
      }
    }

    /** Take the first finished sequence, call what is due, and free it. */
    method PopFirst(curseq: Option<nat>) returns (curseq': Option<nat>)
      requires frontend == S.Popping(curseq) && 0 < filter <= |seqs|
      modifies this
      ensures State() == S.Step(old(State()), S.PopNext)
      ensures frontend == S.Popping(curseq') && |seqs| < |old(seqs)|
      ensures |done| == |old(done)| + 1 && filter == old(filter) - 1
    {
      var s := seqs[0];
      seqs, filter := seqs[1..], filter - 1;
      curseq' := if curseq == Some(s.id) then None else curseq;
      RunCallbacks(s);
      log := log + [S.Free(s.id)];
      done := done + [S.Done(s.id, s.state == S.Cancelled)];
      frontend := S.Popping(curseq');
    }

    /** The callbacks of the sequence that was current, which is then the first in the queue. */
    method RunCurrent(curseq: nat)
      requires S.Inv(State()) && frontend == S.AtCurrent(curseq)
      modifies this
      ensures State() == S.Step(old(State()), S.RunCurrent)
    {
      S.RunCurrentMakes(State());
      var s := seqs[0];
      RunCallbacks(s);
      if s.processed != s.state {
        seqs := seqs[0 := s.(processed := s.state)];
      }
      assert seqs == old(seqs)[0 := s.(processed := s.state)];
      frontend := S.Quiet;
    }

    /** Look at the current sequence first, so that everything before it will be popped. */
    method PeekCurrent() returns (curseq: Option<nat>)
      requires frontend.Quiet?
      modifies this
      ensures State() == S.Step(old(State()), S.Peek) && frontend == S.Popping(curseq)
    {
      curseq := if filter < |seqs| then Some(seqs[filter].id) else None;
      frontend := S.Popping(curseq);
      assert old(log) + [] == old(log);
    }

    /** Nothing finished is left in the queue. */
    method StopPopping(curseq: Option<nat>)
      requires frontend == S.Popping(curseq) && filter == 0
      modifies this
      ensures State() == S.Step(old(State()), S.PopNext)
      ensures frontend == if curseq.Some? then S.AtCurrent(curseq.value) else S.Quiet
    {
      frontend := if curseq.Some? then S.AtCurrent(curseq.value) else S.Quiet;
      assert old(log) + [] == old(log);
    }

    /** Pop all that is finished, with a turn of the backend before each look. */
    method PopFinished(turns: nat -> seq<S.Event>, cur: Option<nat>, ghost q: S.Queue, ghost before: seq<S.Event>)
      returns (curseq: Option<nat>, ghost es: seq<S.Event>)
      requires forall k: nat :: forall e :: e in turns(k) ==> OfBackend(e)
      requires Reached(q, before, State()) && frontend == S.Popping(cur)
      modifies this
      ensures Reached(q, es, State()) && before <= es && frontend == S.Popping(curseq) && filter == 0
      ensures |done| >= |old(done)| + old(filter)
    {
      curseq, es := cur, before;
      var k := 0;
      while true
        invariant Reached(q, es, State()) && before <= es && frontend == S.Popping(curseq)
        invariant |done| + filter >= |old(done)| + old(filter)
        decreases |seqs|
      {
        es := BackendTurn(turns(k), q, es);
        k := k + 1;
        if filter == 0 {
          break;
        }
        ghost var here := State();
        curseq := PopFirst(curseq);
        es := Extend(q, es, here, S.PopNext);
      }
    }

    /** Collecting is a run of the two threads, whatever the backend does in the meantime: a turn
        before each step. It ends with the frontend free for the next request, and it is safe. All
        sequences that had finished when it began have had their callbacks and are freed. */
    method RunFrontend(turns: nat -> seq<S.Event>, last: seq<S.Event>) returns (ghost es: seq<S.Event>)
      requires frontend.Quiet? && S.Inv(State())
      requires forall k: nat :: forall e :: e in turns(k) ==> OfBackend(e)
      requires forall e :: e in last ==> OfBackend(e)
      modifies this
      ensures Reached(old(State()), es, State()) && frontend.Quiet?
      ensures es != [] && es[0] == S.Peek && |done| >= |old(done)| + old(filter)
    {
      ghost var q, here := State(), State();
      var curseq := PeekCurrent();
      es := Extend(q, [], here, S.Peek);
      curseq, es := PopFinished(turns, curseq, q, es);
      here := State();
      StopPopping(curseq);
      es := Extend(q, es, here, S.PopNext);
      if curseq.Some? {
        es := BackendTurn(last, q, es);
        here := State();
        RunCurrent(curseq.value);
        es := Extend(q, es, here, S.RunCurrent);
        S.RunCurrentMakes(here);
      }
    }
  }

  // ---------------------------------------------------------------------------------------
  // Stand-alone commands

  /** Which callbacks have been called, and how often. */
  function Fired(calls: seq<CmdCache.Call>): multiset<nat> {
    if calls == [] then multiset{} else Fired(calls[..|calls| - 1]) + multiset{calls[|calls| - 1].cb}
  }

  lemma {:induction false} FiredMore(calls: seq<CmdCache.Call>, cbs: seq<nat>, val: Word)
    ensures Fired(calls + CmdCache.Calls(cbs, val)) == Fired(calls) + multiset(cbs)
    decreases |cbs|
  {
    if cbs == [] {
      assert calls + CmdCache.Calls(cbs, val) == calls;
    } else {
      var cbs', cb := cbs[..|cbs| - 1], cbs[|cbs| - 1];
      assert cbs == cbs' + [cb];
      FiredMore(calls, cbs', val);
      FiredOne(calls + CmdCache.Calls(cbs', val), CmdCache.Call(cb, val));
      CmdCache.CallsMore(calls, cbs', cb, val);
    }
  }

  lemma FiredOne(calls: seq<CmdCache.Call>, call: CmdCache.Call)
    ensures Fired(calls + [call]) == Fired(calls) + multiset{call.cb}
  {
    assert (calls + [call])[..|calls|] == calls;
  }

  /** One pop at each of these times. */
  function Pops(times: seq<nat>): seq<C.Event> {
    if times == [] then [] else Pops(times[..|times| - 1]) + [C.Pop(times[|times| - 1])]
  }

  /** A run of pops leads from one state to the other. */
  ghost predicate PoppedTo(pt: PulseTimes, s: C.Sys, s': C.Sys, times: seq<nat>) {
    s' == C.Steps(pt, s, Pops(times))
  }

  lemma PopsNext(pt: PulseTimes, s: C.Sys, s': C.Sys, times: seq<nat>, k: nat)
    requires k < |times| && PoppedTo(pt, s, s', times[..k])
    ensures PoppedTo(pt, s, C.Step(pt, s', C.Pop(times[k])), times[..k + 1])
  {
    assert times[..k + 1][..k] == times[..k];
    StepsMore(pt, s, Pops(times[..k]), C.Pop(times[k]));
  }

  lemma StepsMore(pt: PulseTimes, s: C.Sys, es: seq<C.Event>, e: C.Event)
    ensures C.Steps(pt, s, es + [e]) == C.Step(pt, C.Steps(pt, s, es), e)
  {
    assert (es + [e])[..|es|] == es;
  }

  lemma GetSteps(pt: PulseTimes, s: C.Sys, p: Param, chn: Channel, isOverride: bool, now: nat)
    ensures var k := C.DdsKey(p, chn, isOverride);
            var a := C.CacheGet(s.cache, k, |s.keys|, now);
            var s' := C.Answered(s, a, now).(keys := s.keys + [k]);
            C.Step(pt, s, C.GetDds(p, chn, isOverride, now)) ==
            if a.hit then s' else C.Send(s', DdsCmd(p, chn, true, isOverride, 0))
  {
  }

  lemma ResetSteps(pt: PulseTimes, s: C.Sys, chn: Channel, now: nat)
    ensures C.Step(pt, s, C.ResetDds(chn, now)) ==
            C.SetKey(C.SetKey(C.SetKey(C.Send(s, ResetCmd(chn)), C.DdsKey(Freq, chn, true), ALL_ONES, now),
                              C.DdsKey(Amp, chn, true), ALL_ONES, now),
                     C.DdsKey(Phase, chn, true), ALL_ONES, now)
  {
  }

  /** Part `k` of the message is a value for a channel that is there. */
  predicate Acceptable(msg: seq<Byte>, isOverride: bool, k: nat)
    requires 5 * k + 5 <= |msg|
  {
    var i := 5 * k;
    msg[i] / 64 < 3 && msg[i] % 64 < NUM_DDS && (isOverride || ValueAt(msg, i) != ALL_ONES)
  }

  function ValueAt(msg: seq<Byte>, i: nat): Word
    requires i + 5 <= |msg|
  {
    var b: seq<int> := [msg[i + 1], msg[i + 2], msg[i + 3], msg[i + 4]];
    b[0] + 0x100 * b[1] + 0x1_0000 * b[2] + 0x100_0000 * b[3]
  }

  function OpOf(n: nat): Param {
    if n == 0 then Freq else if n == 1 then Amp else Phase
  }

  ghost predicate AllAcceptable(msg: seq<Byte>, isOverride: bool) {
    |msg| % 5 == 0 && forall k: nat :: 5 * k + 5 <= |msg| ==> Acceptable(msg, isOverride, k)
  }

  /** The request in part `k` of a message. */
  function PartOf(msg: seq<Byte>, isOverride: bool, k: nat, now: nat): C.Event
    requires 5 * k + 5 <= |msg| && Acceptable(msg, isOverride, k)
  {
    C.SetDds(OpOf(msg[5 * k] / 64), msg[5 * k] % 64, isOverride, ValueAt(msg, 5 * k), now)
  }

  /** The requests in the first `k` parts of a message. */
  ghost function Requests(msg: seq<Byte>, isOverride: bool, k: nat, now: nat): seq<C.Event>
    requires AllAcceptable(msg, isOverride) && 5 * k <= |msg|
  {
    if k == 0 then []
    else
      assert Acceptable(msg, isOverride, k - 1);
      Requests(msg, isOverride, k - 1, now) + [PartOf(msg, isOverride, k - 1, now)]
  }

  /** Plain requests from an accepted message meet the condition on values that agreement between
      cache and backend needs, since the server refuses all ones there. */
  lemma {:induction false} AcceptedAreClean(msg: seq<Byte>, k: nat, now: nat, e: C.Event)
    requires AllAcceptable(msg, false) && 5 * k <= |msg| && now > C.FRESH_NS && e in Requests(msg, false, k, now)
    ensures Agreement.CleanEvent(e)
  {
    if e in Requests(msg, false, k - 1, now) {
      AcceptedAreClean(msg, k - 1, now, e);
    } else {
      assert Acceptable(msg, false, k - 1);
    }
  }

  // A message that sets DDS values, made up of parts

  datatype Part = Part(p: Param, chn: Channel, word: Word)

  /** Two bits for the register, six for the channel, and the value, low byte first. */
  function Bytes(part: Part): seq<Byte> {
    var op: nat := match part.p case Freq => 0 case Amp => 1 case Phase => 2;
    var first: nat := op * 64 + part.chn;
    [first, part.word % 256, part.word / 256 % 256, part.word / 65536 % 256, part.word / 16777216]
  }

  function Encode(parts: seq<Part>): seq<Byte> {
    if parts == [] then [] else Encode(parts[..|parts| - 1]) + Bytes(parts[|parts| - 1])
  }

  /** The requests that the parts stand for. */
  function EventsOf(parts: seq<Part>, isOverride: bool, now: nat): seq<C.Event> {
    seq(|parts|, i requires 0 <= i < |parts| => C.SetDds(parts[i].p, parts[i].chn, isOverride, parts[i].word, now))
  }

  lemma WordOfBytes(w: Word)
    ensures w % 256 + 256 * (w / 256 % 256) + 65536 * (w / 65536 % 256) + 16777216 * (w / 16777216) == w
    ensures w / 16777216 < 256
  {
    var a, b, c := w / 256, w / 65536, w / 16777216;
    assert w == 256 * a + w % 256 && a == 256 * b + a % 256 && b == 256 * c + b % 256;
  }

  /** A part at place `k` of a message is read as what it stands for. */
  lemma PartRead(msg: seq<Byte>, part: Part, k: nat, isOverride: bool, now: nat)
    requires 5 * k + 5 <= |msg| && msg[5 * k..5 * k + 5] == Bytes(part)
    ensures Acceptable(msg, isOverride, k) <==> isOverride || part.word != ALL_ONES
    ensures Acceptable(msg, isOverride, k) ==>
              PartOf(msg, isOverride, k, now) == C.SetDds(part.p, part.chn, isOverride, part.word, now)
  {
    var i, b := 5 * k, Bytes(part);
    var five := msg[i..i + 5];
    assert five[0] == msg[i] && five[1] == msg[i + 1] && five[2] == msg[i + 2] && five[3] == msg[i + 3] && five[4] == msg[i + 4];
    assert five[0] == b[0] && five[1] == b[1] && five[2] == b[2] && five[3] == b[3] && five[4] == b[4];
    WordOfBytes(part.word);
    assert msg[i] / 64 == (match part.p case Freq => 0 case Amp => 1 case Phase => 2) && msg[i] % 64 == part.chn;
  }

  /** A part is refused, whatever its value, exactly if it is for a channel from 22 on or the unused
      register. */
  lemma ChannelsChecked(msg: seq<Byte>, k: nat)
    requires 5 * k + 5 <= |msg|
    ensures !Acceptable(msg, true, k) <==> msg[5 * k] % 64 >= 22 || msg[5 * k] / 64 == 3
  {
  }

  /** The parts of a longer message that are there already. */
  lemma SliceOfFirst(a: seq<Byte>, b: seq<Byte>, i: nat, j: nat)
    requires i <= j <= |a|
    ensures (a + b)[i..j] == a[i..j]
  {
  }

  lemma SliceOfLast(a: seq<Byte>, b: seq<Byte>)
    ensures (a + b)[|a|..|a| + |b|] == b
  {
  }

  lemma {:induction false} EncodedLength(parts: seq<Part>)
    ensures |Encode(parts)| == 5 * |parts|
    decreases |parts|
  {
    if parts != [] {
      EncodedLength(parts[..|parts| - 1]);
    }
  }

  lemma {:induction false} EncodedAt(parts: seq<Part>, k: nat)
    requires k < |parts|
    ensures |Encode(parts)| == 5 * |parts| && Encode(parts)[5 * k..5 * k + 5] == Bytes(parts[k])
    decreases |parts|
  {
    var parts', last := parts[..|parts| - 1], Bytes(parts[|parts| - 1]);
    EncodedLength(parts);
    EncodedLength(parts');
    if k < |parts'| {
      EncodedAt(parts', k);
      SliceOfFirst(Encode(parts'), last, 5 * k, 5 * k + 5);
    } else {
      SliceOfLast(Encode(parts'), last);
    }
  }

  /** Main result on messages: one that encodes any number of parts is accepted exactly if it is for
      overrides or has no value of all ones, and stands for exactly its parts, in order. */
  lemma MessageRead(parts: seq<Part>, isOverride: bool, now: nat)
    ensures AllAcceptable(Encode(parts), isOverride) <==> isOverride || forall i :: 0 <= i < |parts| ==> parts[i].word != ALL_ONES
    ensures AllAcceptable(Encode(parts), isOverride) ==>
              Requests(Encode(parts), isOverride, |Encode(parts)| / 5, now) == EventsOf(parts, isOverride, now)
  {
    var msg := Encode(parts);
    if parts != [] {
      EncodedAt(parts, 0);
    }
    assert |msg| == 5 * |parts|;
    forall k: nat | k < |parts| ensures Acceptable(msg, isOverride, k) <==> isOverride || parts[k].word != ALL_ONES {
      EncodedAt(parts, k);
      PartRead(msg, parts[k], k, isOverride, now);
    }
    assert AllAcceptable(msg, isOverride) <==> forall k: nat :: k < |parts| ==> Acceptable(msg, isOverride, k);
    if AllAcceptable(msg, isOverride) {
      RequestsRead(parts, isOverride, |parts|, now);
      assert EventsOf(parts, isOverride, now)[..|parts|] == EventsOf(parts, isOverride, now);
    }
  }

  lemma {:induction false} RequestsRead(parts: seq<Part>, isOverride: bool, n: nat, now: nat)
    requires n <= |parts| && |Encode(parts)| == 5 * |parts| && AllAcceptable(Encode(parts), isOverride)
    ensures Requests(Encode(parts), isOverride, n, now) == EventsOf(parts, isOverride, now)[..n]
  {
    if n > 0 {
      RequestsRead(parts, isOverride, n - 1, now);
      EncodedAt(parts, n - 1);
      OneRequest(Encode(parts), parts[n - 1], isOverride, n - 1, now);
      EventsNext(parts, isOverride, n - 1, now);
    }
  }

  lemma OneRequest(msg: seq<Byte>, part: Part, isOverride: bool, k: nat, now: nat)
    requires AllAcceptable(msg, isOverride) && 5 * k + 5 <= |msg| && msg[5 * k..5 * k + 5] == Bytes(part)
    ensures Requests(msg, isOverride, k + 1, now) ==
            Requests(msg, isOverride, k, now) + [C.SetDds(part.p, part.chn, isOverride, part.word, now)]
  {
    assert Acceptable(msg, isOverride, k);
    PartRead(msg, part, k, isOverride, now);
  }

  lemma EventsNext(parts: seq<Part>, isOverride: bool, k: nat, now: nat)
    requires k < |parts|
    ensures EventsOf(parts, isOverride, now)[..k + 1] ==
            EventsOf(parts, isOverride, now)[..k] +
            [C.SetDds(parts[k].p, parts[k].chn, isOverride, parts[k].word, now)]
  {
  }

  method Acceptables(msg: seq<Byte>, isOverride: bool) returns (ok: bool)
    ensures ok <==> AllAcceptable(msg, isOverride)
  {
    if |msg| % 5 != 0 {
      return false;
    }
    var n := 0;
    while 5 * n < |msg|
      invariant 5 * n <= |msg|
      invariant forall k: nat :: k < n ==> Acceptable(msg, isOverride, k)
    {
      if !Acceptable(msg, isOverride, n) {
        return false;
      }
      n := n + 1;
    }
    return true;
  }

  /** The requests in the first `n` parts of a message lead from one state to the other. */
  ghost predicate SentTo(pt: PulseTimes, s: C.Sys, s': C.Sys, msg: seq<Byte>, isOverride: bool, n: nat, now: nat)
    requires AllAcceptable(msg, isOverride) && 5 * n <= |msg|
  {
    s' == C.Steps(pt, s, Requests(msg, isOverride, n, now))
  }

  /** The state id after this many changes: one is as good as many. */
  ghost predicate DirtiedBy(ids: Ids.Ids, ids': Ids.Ids, n: nat) {
    ids' == if n == 0 then ids else Ids.Step(ids, Ids.Mutate)
  }

  class CtrlIFace {
    const cmdCache: CmdCache.CmdCache
    const seqQueue: SeqQueue
    var cmdQueue: seq<ReqCmd>
    var cmdFilter: nat
    var dirty: bool
    var observed: bool
    var hadSeq: bool
    var stateCnt: nat
    ghost var rest: C.Sys  // what the backend has, and the record of the run

    ghost function State(): C.Sys
      reads this, cmdCache
    {
      rest.(cache := cmdCache.cache, queue := cmdQueue, filter := cmdFilter, fired := Fired(cmdCache.calls))
    }

    ghost function IdState(): Ids.Ids
      reads this
    {
      Ids.Ids(dirty, observed, hadSeq, stateCnt)
    }

    constructor (cnt: nat, ghost sys: C.Sys)
      requires C.Initial(sys)
      ensures C.Initial(State()) && S.Initial(seqQueue.State())
      ensures IdState() == Ids.Ids(false, false, false, 0) && fresh(cmdCache) && fresh(seqQueue)
    {
      cmdCache := new CmdCache.CmdCache();
      seqQueue := new SeqQueue(cnt);
      cmdQueue, cmdFilter, dirty, observed, hadSeq, stateCnt := [], 0, false, false, false, 0;
      rest := sys;
    }

    method SetDirty()
      modifies this`dirty
      ensures IdState() == Ids.Step(old(IdState()), Ids.Mutate)
    {
      if observed && !hadSeq {
        dirty := true;
      }
    }

    method SetObserved()
      modifies this`observed
      ensures IdState() == Ids.Step(old(IdState()), Ids.Observe)
    {
      observed := true;
    }

    /** A sequence counts as running if one is in the queue and the first there is not finished. */
    method GetStateId() returns (id: Ids.Id)
      modifies this`dirty, this`observed, this`hadSeq, this`stateCnt
      ensures var hasSeq := seqQueue.seqs != [] && seqQueue.filter == 0;
              IdState() == Ids.Step(old(IdState()), Ids.Query(hasSeq)) && id == Ids.Id(hasSeq, stateCnt)
    {
      var hasSeq := seqQueue.seqs != [] && seqQueue.filter == 0;
      var newId := false;
      if hasSeq != hadSeq {
        hadSeq := hasSeq;
        stateCnt := stateCnt + 1;
        newId := true;
      } else if dirty {
        stateCnt := stateCnt + 1;
        newId := true;
      }
      dirty := false;
      if newId {
        observed := false;
      }
      id := Ids.Id(hasSeq, stateCnt);
    }

    method RunCode() returns (id: nat)
      requires seqQueue.frontend.Quiet?
      modifies this`dirty, seqQueue
      ensures IdState() == Ids.Step(old(IdState()), Ids.Mutate)
      ensures seqQueue.State() == S.Step(old(seqQueue.State()), S.RunCode) && id == seqQueue.seqCnt
    {
      SetDirty();
      id := seqQueue.RunCode();
    }

    method SendCmd(cmd: ReqCmd)
      modifies this`cmdQueue
      ensures State() == C.Send(old(State()), cmd)
    {
      cmdQueue := cmdQueue + [cmd];
    }

    method Remember(k: C.Key, val: Word, now: nat)
      modifies this`rest, cmdCache
      ensures State() == C.SetKey(old(State()), k, val, now)
    {
      FiredMore(cmdCache.calls, C.CacheSet(cmdCache.cache, k, val, now).fired, val);
      cmdCache.Set(k, val, now);
      rest := rest.(clock := now);
    }

    method SetDds(p: Param, chn: Channel, isOverride: bool, val: Word, now: nat, ghost pt: PulseTimes)
      modifies this, cmdCache
      ensures State() == C.Step(pt, old(State()), C.SetDds(p, chn, isOverride, val, now))
      ensures IdState() == Ids.Step(old(IdState()), Ids.Mutate)
    {
      SetDirty();
      SendCmd(DdsCmd(p, chn, false, isOverride, val));
      Remember(C.DdsKey(p, chn, isOverride), val, now);
    }

    /** Ask the cache for a callback, numbered in the order of the requests. */
    method AskCache(k: C.Key, cb: nat, now: nat) returns (hit: bool)
      requires cb == |rest.keys|
      modifies this`rest, cmdCache
      ensures var a := C.CacheGet(old(State()).cache, k, cb, now);
              && State() == C.Answered(old(State()), a, now).(keys := old(State()).keys + [k])
              && hit == a.hit
    {
      ghost var a := C.CacheGet(cmdCache.cache, k, cb, now);
      FiredMore(cmdCache.calls, a.fired, a.cache[k].val);
      hit := cmdCache.Get(k, cb, now);
      rest := rest.(keys := rest.keys + [k], clock := now);
    }

    method GetDds(p: Param, chn: Channel, isOverride: bool, cb: nat, now: nat, ghost pt: PulseTimes)
      requires cb == |rest.keys|
      modifies this, cmdCache
      ensures State() == C.Step(pt, old(State()), C.GetDds(p, chn, isOverride, now))
      ensures IdState() == Ids.Step(old(IdState()), Ids.Observe)
    {
      SetObserved();
      GetSteps(pt, State(), p, chn, isOverride, now);
      var hit := AskCache(C.DdsKey(p, chn, isOverride), cb, now);
      if !hit {
        SendCmd(DdsCmd(p, chn, true, isOverride, 0));
      }
    }

    method SetTtl(bank: Bank, mask: Bits, high: bool, ghost pt: PulseTimes)
      modifies this
      ensures State() == if mask == {} then old(State()) else C.Step(pt, old(State()), C.SetTtl(high, bank, mask))
      ensures IdState() == if mask == {} then old(IdState()) else Ids.Step(old(IdState()), Ids.Mutate)
    {
      if mask == {} {
        return;
      }
      SetDirty();
      SendCmd(TtlCmd(high, bank, mask));
    }

    /** Mark the overrides of a channel as off. */
    method Forget(chn: Channel, now: nat)
      modifies this`rest, cmdCache
      ensures State() == C.SetKey(C.SetKey(C.SetKey(old(State()), C.DdsKey(Freq, chn, true), ALL_ONES, now),
                                           C.DdsKey(Amp, chn, true), ALL_ONES, now),
                                  C.DdsKey(Phase, chn, true), ALL_ONES, now)
    {
      Remember(C.DdsKey(Freq, chn, true), ALL_ONES, now);
      Remember(C.DdsKey(Amp, chn, true), ALL_ONES, now);
      Remember(C.DdsKey(Phase, chn, true), ALL_ONES, now);
    }

    method ResetDds(chn: Channel, now: nat, ghost pt: PulseTimes)
      modifies this, cmdCache
      ensures State() == C.Step(pt, old(State()), C.ResetDds(chn, now))
      ensures IdState() == Ids.Step(old(IdState()), Ids.Mutate)
    {
      SetDirty();
      SendCmd(ResetCmd(chn));
      ghost var sent := State();
      assert sent == C.Send(old(State()), ResetCmd(chn));
      Forget(chn, now);
      ResetSteps(pt, old(State()), chn, now);
    }

    method SetClock(div: Word, now: nat, ghost pt: PulseTimes)
      modifies this, cmdCache
      ensures State() == C.Step(pt, old(State()), C.SetClock(div, now))
      ensures IdState() == Ids.Step(old(IdState()), Ids.Mutate)
    {
      SetDirty();
      SendCmd(ClockCmd(div));
      Remember(C.Key(C.ClockOp, 0, false), div, now);
    }

    /** Take back one finished command, and pass on its result. */
    method PopCommand(now: nat)
      requires 0 < cmdFilter <= |cmdQueue|
      modifies this, cmdCache
      ensures State() == C.PopCmd(old(State()), now) && cmdFilter == old(cmdFilter) - 1
      ensures |cmdQueue| == |old(cmdQueue)| - 1 && IdState() == old(IdState())
    {
      var cmd := cmdQueue[0];
      cmdQueue, cmdFilter := cmdQueue[1..], cmdFilter - 1;
      rest := rest.(popped := rest.popped + 1, clock := now);
      if cmd.Reads() {
        Remember(C.DdsKey(cmd.p, cmd.chn, cmd.isOverride), cmd.val, now);
      }
    }

    /** Take back all finished commands, one at each of these times. */
    method PopCommands(times: seq<nat>, ghost pt: PulseTimes)
      requires cmdFilter <= |cmdQueue| && |times| == cmdFilter
      modifies this, cmdCache
      ensures PoppedTo(pt, old(State()), State(), times) && cmdFilter == 0
    {
      ghost var s := State();
      var k := 0;
      while cmdFilter > 0
        invariant cmdFilter <= |cmdQueue| && k + cmdFilter == |times|
        invariant PoppedTo(pt, s, State(), times[..k])
      {
        PopsNext(pt, s, State(), times, k);
        PopCommand(times[k]);
        k := k + 1;
      }
      assert times[..k] == times;
    }

    method SetDdsPart(msg: seq<Byte>, isOverride: bool, n: nat, now: nat,
                      ghost pt: PulseTimes, ghost s: C.Sys, ghost es: seq<C.Event>)
      returns (ghost es': seq<C.Event>)
      requires AllAcceptable(msg, isOverride) && 5 * n + 5 <= |msg| && es == Requests(msg, isOverride, n, now)
      requires State() == C.Steps(pt, s, es)
      modifies this, cmdCache
      ensures es' == Requests(msg, isOverride, n + 1, now) && State() == C.Steps(pt, s, es')
      ensures observed == old(observed) && hadSeq == old(hadSeq) && stateCnt == old(stateCnt)
      ensures dirty == (old(dirty) || (observed && !hadSeq))
    {
      assert Acceptable(msg, isOverride, n);
      var i := 5 * n;
      es' := es + [PartOf(msg, isOverride, n, now)];
      StepsMore(pt, s, es, PartOf(msg, isOverride, n, now));
      SetDds(OpOf(msg[i] / 64), msg[i] % 64, isOverride, ValueAt(msg, i), now, pt);
    }

    method SetAllDds(msg: seq<Byte>, isOverride: bool, now: nat, ghost pt: PulseTimes)
      requires AllAcceptable(msg, isOverride)
      modifies this, cmdCache
      ensures State() == C.Steps(pt, old(State()), Requests(msg, isOverride, |msg| / 5, now))
      ensures DirtiedBy(old(IdState()), IdState(), |msg| / 5)
    {
      ghost var s, es := State(), Requests(msg, isOverride, 0, now);
      for n := 0 to |msg| / 5
        invariant observed == old(observed) && hadSeq == old(hadSeq) && stateCnt == old(stateCnt)
        invariant dirty == (old(dirty) || (n > 0 && observed && !hadSeq))
        invariant es == Requests(msg, isOverride, n, now) && State() == C.Steps(pt, s, es)
      {
        es := SetDdsPart(msg, isOverride, n, now, pt, s, es);
      }
    }

    /** All of a message or none of it: it is refused if its length is wrong, a channel is not there,
        or a plain value is all ones. */
    method ProcessSetDds(msg: seq<Byte>, isOverride: bool, now: nat, ghost pt: PulseTimes) returns (ok: bool)
      modifies this, cmdCache
      ensures ok <==> AllAcceptable(msg, isOverride)
      ensures if ok then SentTo(pt, old(State()), State(), msg, isOverride, |msg| / 5, now) else State() == old(State())
      ensures IdState() == if ok && msg != [] then Ids.Step(old(IdState()), Ids.Mutate) else old(IdState())
    {
      ok := Acceptables(msg, isOverride);
      if ok {
        SetAllDds(msg, isOverride, now, pt);
      }
    }
  }
}
