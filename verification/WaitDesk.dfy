/** Clients that wait for a sequence (lib/server.cpp): the server keeps a status entry for every
    sequence that is not finalised, with the requests that wait for it, and answers them from the
    callbacks of the sequence. */
module WaitDesk {
  import opened Pulses
  import opened Sequences

  /** Requests are numbered in the order they come in. */
  datatype Waiter = Waiter(forFlush: bool, req: nat)

  datatype Status = Status(id: nat, waits: seq<Waiter>, flushed: bool)

  /** `asked` has the sequence id of each request, `queued` the requests that had to wait and `forFlush`
      those of them that wait for the flush, `replied` how often each has been answered and `value` with
      what. `seen` are the callbacks so far, and
      `astray` tells of a flush for a sequence without an entry, which the source asserts away. */
  datatype Desk = Desk(status: seq<Status>, asked: seq<nat>, queued: set<nat>, forFlush: set<nat>,
                       replied: multiset<nat>, value: map<nat, nat>, seen: seq<Notice>, astray: bool)

  function Find(status: seq<Status>, id: nat): (i: nat)
    ensures i <= |status| && (i < |status| ==> status[i].id == id)
    ensures forall j :: 0 <= j < i ==> status[j].id != id
  {
    if status == [] || status[0].id == id then 0 else 1 + Find(status[1..], id)
  }

  /** The requests that have not been answered yet. */
  function Open(waits: seq<Waiter>, flushed: bool): seq<nat> {
    if waits == [] then []
    else
      var w := waits[|waits| - 1];
      Open(waits[..|waits| - 1], flushed) + if w.forFlush && flushed then [] else [w.req]
  }

  /** The requests that are answered when the sequence is flushed. */
  function ForFlush(waits: seq<Waiter>): seq<nat> {
    if waits == [] then []
    else
      var w := waits[|waits| - 1];
      ForFlush(waits[..|waits| - 1]) + if w.forFlush then [w.req] else []
  }

  function Reply(d: Desk, reqs: seq<nat>, val: nat): Desk {
    d.(replied := d.replied + multiset(reqs), value := d.value + (map r | r in reqs :: val))
  }

  function OnFlush(d: Desk, id: nat): Desk {
    var i := Find(d.status, id);
    if i == |d.status| then d.(astray := true)
    else Reply(d, ForFlush(d.status[i].waits), 0).(status := d.status[i := d.status[i].(flushed := true)])
  }

  function Finalize(d: Desk, id: nat, cancel: bool): Desk {
    var i := Find(d.status, id);
    if i == |d.status| then d
    else
      Reply(d, Open(d.status[i].waits, d.status[i].flushed), if cancel then 1 else 0)
      .(status := d.status[..i] + d.status[i + 1..])
  }

  function Notify(d: Desk, n: Notice): Desk {
    var d := d.(seen := d.seen + [n]);
    match n
    case Start(_) => d
    case Flush(id) => OnFlush(d, id)
    case End(id) => Finalize(d, id, false)
    case Cancel(id) => Finalize(d, id, true)
    case Free(id) => Finalize(d, id, true)
  }

  function NotifyAll(d: Desk, ns: seq<Notice>): Desk
    decreases |ns|
  {
    if ns == [] then d else NotifyAll(Notify(d, ns[0]), ns[1..])
  }

  /** A request to wait for a sequence: 1 for flushed, 2 for finished. */
  function Ask(d: Desk, id: nat, what: nat): Desk {
    var r := |d.asked|;
    var d := d.(asked := d.asked + [id]);
    if id == 0 || (what != 1 && what != 2) then Reply(d, [r], 1)
    else if d.status == [] || d.status[0].id > id then Reply(d, [r], 0)
    else
      var i := Find(d.status, id);
      if i == |d.status| then Reply(d, [r], 1)
      else if what == 1 && d.status[i].flushed then Reply(d, [r], 0)
      else
        var st := d.status[i];
        d.(status := d.status[i := st.(waits := st.waits + [Waiter(what == 1, r)])], queued := d.queued + {r},
           forFlush := if what == 1 then d.forFlush + {r} else d.forFlush)
  }

  // ---------------------------------------------------------------------------------------

  function Count(reqs: seq<nat>, n: nat): nat {
    multiset(reqs)[n]
  }

  function OpenAt(status: seq<Status>, id: nat, n: nat): nat {
    var i := Find(status, id);
    if i == |status| then 0 else Count(Open(status[i].waits, status[i].flushed), n)
  }

  /** The entries are for the sequences `lo` to `hi`, and only the first can be flushed. */
  ghost predicate Tracks(d: Desk, lo: nat, hi: nat, flushed: bool) {
    && lo <= hi + 1 && |d.status| == hi + 1 - lo
    && (forall i :: 0 <= i < |d.status| ==> d.status[i].id == lo + i && d.status[i].flushed == (flushed && i == 0))
  }

  /** A request has been answered at most once, and waits, once and for its own sequence, exactly
      if it has not been answered. */
  ghost predicate Balanced(d: Desk) {
    && (forall n: nat :: d.replied[n] <= if n < |d.asked| then 1 else 0)
    && (forall id: nat, n: nat ::
          OpenAt(d.status, id, n) == if n < |d.asked| && d.asked[n] == id && d.replied[n] == 0 then 1 else 0)
  }

  /** Whoever had to wait is told 1 only if the sequence was cancelled, and 0 only if it has ended, or was
      flushed and that was what they waited for. */
  ghost predicate Truthful(d: Desk) {
    forall n: nat :: n in d.queued && n < |d.asked| && d.replied[n] == 1 ==>
      && n in d.value && (d.value[n] == 0 || d.value[n] == 1)
      && (d.value[n] == 1 ==> Cancel(d.asked[n]) in d.seen)
      && (d.value[n] == 0 ==> End(d.asked[n]) in d.seen || (Flush(d.asked[n]) in d.seen && n in d.forFlush))
  }

  /** The waiters know what they wait for. */
  ghost predicate Marked(d: Desk) {
    && (forall i, j :: 0 <= i < |d.status| && 0 <= j < |d.status[i].waits| ==>
          var w := d.status[i].waits[j];
          w.req < |d.asked| && (w.forFlush <==> w.req in d.forFlush))
    && (forall n :: n in d.forFlush ==> n < |d.asked|)
  }

  ghost predicate DeskInv(d: Desk) {
    Balanced(d) && Truthful(d) && Marked(d) && !d.astray && forall n :: n in d.queued ==> n < |d.asked|
  }

  lemma {:induction false} FlushSplits(waits: seq<Waiter>)
    ensures multiset(Open(waits, false)) == multiset(Open(waits, true)) + multiset(ForFlush(waits))
  {
    if waits != [] {
      FlushSplits(waits[..|waits| - 1]);
    }
  }

  lemma TrackedAt(d: Desk, lo: nat, hi: nat, flushed: bool, id: nat)
    requires Tracks(d, lo, hi, flushed)
    ensures Find(d.status, id) == if lo <= id <= hi then id - lo else |d.status|
  {
    if lo <= id <= hi {
      assert d.status[id - lo].id == id;
    }
  }

  /** Some of the requests that wait for sequence `id0` are answered. */
  ghost predicate Answers(d: Desk, d': Desk, id0: nat, reqs: seq<nat>, val: nat) {
    && d'.asked == d.asked && d'.queued == d.queued && d'.forFlush == d.forFlush && d'.astray == d.astray
    && d.seen <= d'.seen
    && d'.replied == d.replied + multiset(reqs)
    && d'.value == d.value + (map r | r in reqs :: val)
    && (forall id: nat, n: nat :: OpenAt(d.status, id, n) ==
                             OpenAt(d'.status, id, n) + if id == id0 then Count(reqs, n) else 0)
  }

  lemma AnswersBalance(d: Desk, d': Desk, id0: nat, reqs: seq<nat>, val: nat)
    requires Balanced(d) && Answers(d, d', id0, reqs, val)
    ensures Balanced(d')
    ensures forall n: nat :: n in reqs ==> n < |d.asked| && d.asked[n] == id0 && d.replied[n] == 0
  {
    forall n: nat
      ensures Count(reqs, n) <= OpenAt(d.status, id0, n)
      ensures d'.replied[n] <= if n < |d.asked| then 1 else 0
    {
      assert OpenAt(d.status, id0, n) == OpenAt(d'.status, id0, n) + Count(reqs, n);
      assert d'.replied[n] == d.replied[n] + Count(reqs, n);
    }
    forall n: nat | n in reqs ensures n < |d.asked| && d.asked[n] == id0 && d.replied[n] == 0 {
      assert Count(reqs, n) > 0;
    }
    forall id: nat, n: nat
      ensures OpenAt(d'.status, id, n) == if n < |d.asked| && d.asked[n] == id && d'.replied[n] == 0 then 1 else 0
    {
      assert OpenAt(d.status, id, n) == OpenAt(d'.status, id, n) + if id == id0 then Count(reqs, n) else 0;
      assert Count(reqs, n) <= OpenAt(d.status, id0, n);
    }
  }

  lemma AnswersKeep(d: Desk, d': Desk, id0: nat, reqs: seq<nat>, val: nat)
    requires DeskInv(d) && Answers(d, d', id0, reqs, val) && (val == 0 || val == 1) && Marked(d')
    requires val == 1 ==> Cancel(id0) in d'.seen
    requires val == 0 ==> End(id0) in d'.seen || (Flush(id0) in d'.seen && forall r :: r in reqs ==> r in d.forFlush)
    ensures DeskInv(d')
  {
    AnswersBalance(d, d', id0, reqs, val);
    forall n: nat | n in d'.queued && n < |d'.asked| && d'.replied[n] == 1
      ensures && n in d'.value && (d'.value[n] == 0 || d'.value[n] == 1)
              && (d'.value[n] == 1 ==> Cancel(d'.asked[n]) in d'.seen)
              && (d'.value[n] == 0 ==>
                    End(d'.asked[n]) in d'.seen || (Flush(d'.asked[n]) in d'.seen && n in d'.forFlush))
    {
      if n !in reqs {
        assert Count(reqs, n) == 0;
      }
    }
  }

  lemma {:induction false} InForFlush(d: Desk, i: nat, waits: seq<Waiter>, r: nat)
    requires Marked(d) && i < |d.status| && waits <= d.status[i].waits && r in ForFlush(waits)
    ensures r in d.forFlush
    decreases |waits|
  {
    var n := |waits| - 1;
    if r in ForFlush(waits[..n]) {
      InForFlush(d, i, waits[..n], r);
    } else {
      assert d.status[i].waits[n] == waits[n];
    }
  }

  /** Who has not been answered waits in its entry. */
  lemma {:induction false} InOpen(waits: seq<Waiter>, flushed: bool, r: nat) returns (j: nat)
    requires r in Open(waits, flushed)
    ensures j < |waits| && waits[j].req == r && !(waits[j].forFlush && flushed)
    decreases |waits|
  {
    var n := |waits| - 1;
    if r in Open(waits[..n], flushed) {
      j := InOpen(waits[..n], flushed, r);
    } else {
      j := n;
    }
  }

  lemma FlushKeeps(d: Desk, lo: nat, hi: nat)
    requires DeskInv(d) && Tracks(d, lo, hi, false) && lo <= hi
    ensures DeskInv(Notify(d, Flush(lo))) && Tracks(Notify(d, Flush(lo)), lo, hi, true)
  {
    var d', st := Notify(d, Flush(lo)), d.status[0];
    TrackedAt(d, lo, hi, false, lo);
    FlushSplits(st.waits);
    forall id: nat, n: nat
      ensures OpenAt(d.status, id, n) ==
              OpenAt(d'.status, id, n) + if id == lo then Count(ForFlush(st.waits), n) else 0
    {
      TrackedAt(d, lo, hi, false, id);
      TrackedAt(d', lo, hi, true, id);
    }
    assert Marked(d') by {
      assert forall i :: 0 <= i < |d.status| ==> d'.status[i].waits == d.status[i].waits;
    }
    forall r | r in ForFlush(st.waits) ensures r in d.forFlush {
      InForFlush(d, 0, st.waits, r);
    }
    AnswersKeep(d, d', lo, ForFlush(st.waits), 0);
  }

  lemma FirstDropped(d: Desk, d': Desk, lo: nat, hi: nat, flushed: bool, id: nat, k: nat)
    requires Tracks(d, lo, hi, flushed) && lo <= hi && d'.status == d.status[1..]
    ensures Tracks(d', lo + 1, hi, false)
    ensures OpenAt(d.status, id, k) ==
            OpenAt(d'.status, id, k) + if id == lo then Count(Open(d.status[0].waits, d.status[0].flushed), k) else 0
  {
    TrackedAt(d, lo, hi, flushed, id);
    TrackedAt(d', lo + 1, hi, false, id);
  }

  lemma FinalizeKeeps(d: Desk, lo: nat, hi: nat, flushed: bool, n: Notice)
    requires DeskInv(d) && Tracks(d, lo, hi, flushed) && lo <= hi && (n == End(lo) || n == Cancel(lo))
    ensures DeskInv(Notify(d, n)) && Tracks(Notify(d, n), lo + 1, hi, false)
  {
    var d' := Notify(d, n);
    var reqs := Open(d.status[0].waits, d.status[0].flushed);
    assert Find(d.status, lo) == 0 by { TrackedAt(d, lo, hi, flushed, lo); }
    assert d'.status == d.status[1..];
    assert Tracks(d', lo + 1, hi, false) by { FirstDropped(d, d', lo, hi, flushed, 0, 0); }
    assert Marked(d') by {
      assert forall i :: 0 <= i < |d'.status| ==> d'.status[i] == d.status[i + 1];
    }
    assert Answers(d, d', lo, reqs, if n.Cancel? then 1 else 0) by {
      forall id: nat, k: nat
        ensures OpenAt(d.status, id, k) == OpenAt(d'.status, id, k) + if id == lo then Count(reqs, k) else 0
      {
        FirstDropped(d, d', lo, hi, flushed, id, k);
      }
    }
    AnswersKeep(d, d', lo, reqs, if n.Cancel? then 1 else 0);
  }

  lemma SeenKeeps(d: Desk, d': Desk)
    requires DeskInv(d) && d' == d.(seen := d'.seen) && d.seen <= d'.seen
    ensures DeskInv(d')
  {
  }

  /** Once a sequence is finalised its status entry is gone, and freeing it answers nobody. */
  lemma FreeKeeps(d: Desk, lo: nat, hi: nat, flushed: bool, id: nat)
    requires DeskInv(d) && Tracks(d, lo, hi, flushed) && id < lo
    ensures DeskInv(Notify(d, Free(id))) && Tracks(Notify(d, Free(id)), lo, hi, flushed)
  {
    TrackedAt(d, lo, hi, flushed, id);
    SeenKeeps(d, Notify(d, Free(id)));
  }

  /** The first sequence that is not finalised, when the one with this id has been processed so far. */
  function Lowest(id: nat, s: SeqState): nat {
    if Final(s) then id + 1 else id
  }

  function NoticeOf(id: nat, s: SeqState): Notice {
    match s case Cancelled => Cancel(id) case Flushed => Flush(id) case Ended => End(id) case _ => Start(id)
  }

  /** One callback of the first sequence. */
  lemma OneKeeps(d: Desk, id: nat, hi: nat, from: SeqState, to: SeqState)
    requires DeskInv(d) && id <= hi && Tracks(d, Lowest(id, from), hi, from == Flushed) && !Final(from)
    requires to == NextState(from) || to == Cancelled
    ensures var d' := Notify(d, NoticeOf(id, to));
            DeskInv(d') && Tracks(d', Lowest(id, to), hi, to == Flushed)
  {
    if Final(to) {
      FinalizeKeeps(d, id, hi, from == Flushed, NoticeOf(id, to));
    } else if to == Flushed {
      FlushKeeps(d, id, hi);
    } else {
      SeenKeeps(d, Notify(d, Start(id)));
    }
  }

  /** All callbacks that are due to the first sequence. */
  lemma {:induction false} DueKeeps(d: Desk, s: ReqSeq, hi: nat)
    requires DeskInv(d) && s.id <= hi && Tracks(d, Lowest(s.id, s.processed), hi, s.processed == Flushed)
    requires Leads(s.processed, s.state)
    ensures var d' := NotifyAll(d, Notices(s));
            DeskInv(d') && Tracks(d', Lowest(s.id, s.state), hi, s.state == Flushed)
    decreases Rank(Ended) - Rank(s.processed)
  {
    if s.processed != s.state {
      var to := if s.state == Cancelled then Cancelled else NextState(s.processed);
      OneKeeps(d, s.id, hi, s.processed, to);
      FirstNotice(s, to);
      if to != Cancelled {
        DueKeeps(Notify(d, NoticeOf(s.id, to)), s.(processed := to), hi);
      }
    }
  }

  lemma FirstNotice(s: ReqSeq, to: SeqState)
    requires Leads(s.processed, s.state) && s.processed != s.state
    requires to == if s.state == Cancelled then Cancelled else NextState(s.processed)
    ensures var ns := Notices(s);
            ns != [] && ns[0] == NoticeOf(s.id, to) && ns[1..] == Notices(s.(processed := to))
    ensures to == Cancelled ==> Notices(s)[1..] == []
  {
    assert Notices(s) == [NoticeOf(s.id, to)] + Notices(s.(processed := to));
  }

  lemma {:induction false} NotifyTwo(d: Desk, a: seq<Notice>, b: seq<Notice>)
    ensures NotifyAll(d, a + b) == NotifyAll(NotifyAll(d, a), b)
    decreases |a|
  {
    if a == [] {
      assert a + b == b;
    } else {
      assert (a + b)[1..] == a[1..] + b;
      NotifyTwo(Notify(d, a[0]), a[1..], b);
    }
  }

  lemma {:induction false} SeesAll(d: Desk, ns: seq<Notice>)
    ensures NotifyAll(d, ns).seen == d.seen + ns
    decreases |ns|
  {
    if ns != [] {
      SeesAll(Notify(d, ns[0]), ns[1..]);
      SeesOne(d, ns[0]);
      assert ns == [ns[0]] + ns[1..];
      assert d.seen + ([ns[0]] + ns[1..]) == (d.seen + [ns[0]]) + ns[1..];
    }
  }

  lemma SeesOne(d: Desk, n: Notice)
    ensures Notify(d, n).seen == d.seen + [n]
  {
  }

  // ---------------------------------------------------------------------------------------
  // A new request, and a new sequence

  /** What a client is told at once, if anything. */
  function Told(d: Desk, id: nat, what: nat): Option<nat> {
    if id == 0 || (what != 1 && what != 2) then Some(1)
    else if d.status == [] || d.status[0].id > id then Some(0)
    else if Find(d.status, id) == |d.status| then Some(1)
    else if what == 1 && d.status[Find(d.status, id)].flushed then Some(0)
    else None
  }

  lemma NewRequest(d: Desk, d': Desk, id: nat, waits: bool)
    requires Balanced(d) && d'.asked == d.asked + [id]
    requires d'.replied == d.replied + multiset(if waits then [] else [|d.asked|])
    requires forall k: nat, n: nat ::
               OpenAt(d'.status, k, n) == OpenAt(d.status, k, n) + if waits && k == id && n == |d.asked| then 1 else 0
    ensures Balanced(d')
  {
    var r := |d.asked|;
    forall n: nat ensures d'.replied[n] == d.replied[n] + if !waits && n == r then 1 else 0 {}
    forall k: nat, n: nat
      ensures OpenAt(d'.status, k, n) == if n < |d'.asked| && d'.asked[n] == k && d'.replied[n] == 0 then 1 else 0
    {
      assert OpenAt(d.status, k, n) == if n < |d.asked| && d.asked[n] == k && d.replied[n] == 0 then 1 else 0;
      assert OpenAt(d'.status, k, n) == OpenAt(d.status, k, n) + if waits && k == id && n == r then 1 else 0;
    }
  }

  /** Adding a waiter to the entry of its sequence. */
  lemma WaiterOpens(d: Desk, d': Desk, lo: nat, hi: nat, flushed: bool, id: nat, what: nat, k: nat, n: nat)
    requires Tracks(d, lo, hi, flushed) && d' == Ask(d, id, what) && Told(d, id, what).None?
    ensures Tracks(d', lo, hi, flushed)
    ensures OpenAt(d'.status, k, n) == OpenAt(d.status, k, n) + if k == id && n == |d.asked| then 1 else 0
  {
    TrackedAt(d, lo, hi, flushed, id);
    assert Tracks(d', lo, hi, flushed);
    TrackedAt(d, lo, hi, flushed, k);
    TrackedAt(d', lo, hi, flushed, k);
    if k == id {
      var ws, w := d.status[id - lo].waits, Waiter(what == 1, |d.asked|);
      assert (ws + [w])[..|ws|] == ws;
    }
  }

  lemma AskTracks(d: Desk, lo: nat, hi: nat, flushed: bool, id: nat, what: nat)
    requires DeskInv(d) && Tracks(d, lo, hi, flushed)
    ensures Balanced(Ask(d, id, what)) && Tracks(Ask(d, id, what), lo, hi, flushed)
  {
    var d', waits := Ask(d, id, what), Told(d, id, what).None?;
    if waits {
      WaiterOpens(d, d', lo, hi, flushed, id, what, 0, 0);
      assert d.replied + multiset([]) == d.replied;
    } else {
      assert d'.status == d.status;
    }
    forall k: nat, n: nat
      ensures OpenAt(d'.status, k, n) ==
              OpenAt(d.status, k, n) + if waits && k == id && n == |d.asked| then 1 else 0
    {
      if waits {
        WaiterOpens(d, d', lo, hi, flushed, id, what, k, n);
      }
    }
    NewRequest(d, d', id, waits);
  }

  /** A request to wait for the flush, if it has to wait, is marked as one; all others are not. */
  lemma AskMarks(d: Desk, id: nat, what: nat)
    requires Marked(d)
    ensures Marked(Ask(d, id, what))
    ensures Ask(d, id, what).forFlush ==
            if Told(d, id, what).None? && what == 1 then d.forFlush + {|d.asked|} else d.forFlush
  {
    var d', i := Ask(d, id, what), Find(d.status, id);
    forall k, j | 0 <= k < |d'.status| && 0 <= j < |d'.status[k].waits|
      ensures var w := d'.status[k].waits[j];
              w.req < |d'.asked| && (w.forFlush <==> w.req in d'.forFlush)
    {
      if j < |d.status[k].waits| {
        assert d'.status[k].waits[j] == d.status[k].waits[j];
      }
    }
  }

  lemma AskKeeps(d: Desk, lo: nat, hi: nat, flushed: bool, id: nat, what: nat)
    requires DeskInv(d) && Tracks(d, lo, hi, flushed)
    ensures DeskInv(Ask(d, id, what)) && Tracks(Ask(d, id, what), lo, hi, flushed)
  {
    AskTracks(d, lo, hi, flushed, id, what);
    AskMarks(d, id, what);
    var d', r := Ask(d, id, what), |d.asked|;
    assert r !in d.queued;
    forall n: nat | n in d'.queued && n < |d'.asked| && d'.replied[n] == 1
      ensures n != r && n in d.queued && d.replied[n] == 1 && d'.asked[n] == d.asked[n]
      ensures n in d'.forFlush <==> n in d.forFlush
      ensures n in d'.value <==> n in d.value
      ensures n in d.value ==> d'.value[n] == d.value[n]
    {
    }
    assert Truthful(d');
  }

  function Push(d: Desk, id: nat): Desk {
    d.(status := d.status + [Status(id, [], false)])
  }

  lemma PushKeeps(d: Desk, lo: nat, hi: nat, flushed: bool)
    requires DeskInv(d) && Tracks(d, lo, hi, flushed) && (flushed ==> d.status != [])
    ensures DeskInv(Push(d, hi + 1)) && Tracks(Push(d, hi + 1), lo, hi + 1, flushed)
  {
    var d' := Push(d, hi + 1);
    assert Tracks(d', lo, hi + 1, flushed);
    forall id: nat, n: nat ensures OpenAt(d'.status, id, n) == OpenAt(d.status, id, n) {
      TrackedAt(d, lo, hi, flushed, id);
      TrackedAt(d', lo, hi + 1, flushed, id);
    }
  }

  // ---------------------------------------------------------------------------------------
  // The server together with the two threads

  datatype World = World(q: Queue, d: Desk)

  datatype Move = Seq(event: Event) | WaitSeq(id: nat, what: nat)

  /** The server is the frontend thread: it takes no request while it collects sequences. */
  function Next(w: World, m: Move): World {
    match m
    case Seq(e) =>
      var q' := Step(w.q, e);
      var d' := NotifyAll(w.d, Made(w.q, e));
      World(q', if e.RunCode? && w.q.frontend.Quiet? then Push(d', q'.seqCnt) else d')
    case WaitSeq(id, what) =>
      if w.q.frontend.Quiet? then w.(d := Ask(w.d, id, what)) else w
  }

  function Run(w: World, ms: seq<Move>): World {
    if ms == [] then w else Next(Run(w, ms[..|ms| - 1]), ms[|ms| - 1])
  }

  ghost predicate Opening(w: World) {
    Initial(w.q) && w.d == Desk([], [], {}, {}, multiset{}, map[], [], false)
  }

  /** The first sequence that is not finalised. */
  function Head(q: Queue): nat {
    if q.seqs == [] then q.seqCnt + 1 else Lowest(q.seqs[0].id, q.seqs[0].processed)
  }

  predicate HeadFlushed(q: Queue) {
    q.seqs != [] && q.seqs[0].processed == Flushed
  }

  ghost predicate WorldInv(w: World) {
    Inv(w.q) && DeskInv(w.d) && w.d.seen == w.q.log && Tracks(w.d, Head(w.q), w.q.seqCnt, HeadFlushed(w.q))
  }

  lemma PopMovesHead(q: Queue)
    requires Inv(q) && q.frontend.Popping? && 0 < q.filter
    ensures Head(Step(q, PopNext)) == q.seqs[0].id + 1 && !HeadFlushed(Step(q, PopNext))
  {
    var q' := Step(q, PopNext);
    if q'.seqs != [] {
      assert q'.seqs[0] == q.seqs[1];
    }
  }

  lemma PopNotifies(w: World)
    requires WorldInv(w) && w.q.frontend.Popping? && 0 < w.q.filter
    ensures WorldInv(Next(w, Seq(PopNext)))
  {
    var q, s := w.q, w.q.seqs[0];
    var w' := Next(w, Seq(PopNext));
    StepKeeps(q, PopNext);
    DueKeeps(w.d, s, q.seqCnt);
    SeesAll(w.d, Made(q, PopNext));
    NotifyTwo(w.d, Notices(s), [Free(s.id)]);
    var d1 := NotifyAll(w.d, Notices(s));
    assert w'.d == Notify(d1, Free(s.id));
    FreeKeeps(d1, s.id + 1, q.seqCnt, false, s.id);
    PopMovesHead(q);
  }

  lemma CurrentNotifies(w: World)
    requires WorldInv(w) && w.q.frontend.AtCurrent?
    ensures WorldInv(Next(w, Seq(RunCurrent)))
  {
    RunCurrentMakes(w.q);
    assert Current(w.q) == Some(0);
    StepKeeps(w.q, RunCurrent);
    DueKeeps(w.d, w.q.seqs[0], w.q.seqCnt);
    SeesAll(w.d, Made(w.q, RunCurrent));
  }

  /** The other steps of the two threads do not touch what the callbacks have been told. */
  lemma OthersSilent(q: Queue, e: Event)
    requires Inv(q) && Made(q, e) == [] && !e.RunCode? && !e.RunCurrent?
    requires e.PopNext? ==> !(q.frontend.Popping? && 0 < q.filter)
    ensures var q' := Step(q, e);
            q'.log == q.log && Head(q') == Head(q) && HeadFlushed(q') == HeadFlushed(q) && q'.seqCnt == q.seqCnt
  {
    var q' := Step(q, e);
    assert |q'.seqs| == |q.seqs|;
    if q.seqs != [] {
      assert q'.seqs[0].id == q.seqs[0].id && q'.seqs[0].processed == q.seqs[0].processed;
    }
  }

  lemma RunCodeQueues(q: Queue)
    requires Inv(q) && q.frontend.Quiet?
    ensures var q' := Step(q, RunCode);
            q'.log == q.log && q'.seqCnt == q.seqCnt + 1 && Head(q') == Head(q) && HeadFlushed(q') == HeadFlushed(q)
  {
  }

  lemma PushedNext(w: World)
    requires WorldInv(w) && w.q.frontend.Quiet?
    ensures WorldInv(Next(w, Seq(RunCode)))
  {
    RunCodeQueues(w.q);
    StepKeeps(w.q, RunCode);
    PushKeeps(w.d, Head(w.q), w.q.seqCnt, HeadFlushed(w.q));
    assert Next(w, Seq(RunCode)).d == Push(w.d, w.q.seqCnt + 1);
  }

  lemma SilentNext(w: World, e: Event)
    requires WorldInv(w) && Made(w.q, e) == [] && !e.RunCode? && !e.RunCurrent?
    requires e.PopNext? ==> !(w.q.frontend.Popping? && 0 < w.q.filter)
    ensures WorldInv(Next(w, Seq(e)))
  {
    StepKeeps(w.q, e);
    OthersSilent(w.q, e);
    assert Next(w, Seq(e)).d == w.d;
  }

  lemma NextKeeps(w: World, m: Move)
    requires WorldInv(w)
    ensures WorldInv(Next(w, m))
  {
    match m
    case WaitSeq(id, what) =>
      AskKeeps(w.d, Head(w.q), w.q.seqCnt, HeadFlushed(w.q), id, what);
    case Seq(e) =>
      if e.PopNext? && w.q.frontend.Popping? && 0 < w.q.filter {
        PopNotifies(w);
      } else if e.RunCurrent? && w.q.frontend.AtCurrent? {
        CurrentNotifies(w);
      } else if e.RunCode? && w.q.frontend.Quiet? {
        PushedNext(w);
      } else if !e.RunCode? && !e.RunCurrent? {
        SilentNext(w, e);
      } else {
        assert Next(w, m) == w;
      }
  }

  lemma {:induction false} RunKeeps(w: World, ms: seq<Move>)
    requires Opening(w)
    ensures WorldInv(Run(w, ms))
    decreases |ms|
  {
    if ms == [] {
      assert WorldInv(w);
    } else {
      RunKeeps(w, ms[..|ms| - 1]);
      NextKeeps(Run(w, ms[..|ms| - 1]), ms[|ms| - 1]);
    }
  }

  lemma DoneBelow(q: Queue, e: Done)
    requires Inv(q) && e in q.done
    ensures e.id < Head(q)
  {
    var j :| 0 <= j < |q.done| && q.done[j] == e;
    assert q.seqs != [] ==> q.seqs[0].id == q.seqCnt - |q.seqs| + 1;
  }

  /** A sequence whose last callback has been made is no longer tracked. */
  lemma FinalisedBelow(q: Queue, id: nat, n: Notice)
    requires Inv(q) && n in q.log && (n == End(id) || n == Cancel(id))
    ensures id < Head(q)
  {
    if n in Lives(q.done) {
      var e := InLives(q.done, n);
      assert e.id == id;
      DoneBelow(q, e);
    } else {
      assert n in Part(q.seqs[0].id, q.seqs[0].processed);
    }
  }

  /** A sequence that was flushed is finalised, or the first and marked. */
  lemma FlushedMarked(q: Queue, id: nat)
    requires Inv(q) && Flush(id) in q.log
    ensures id < Head(q) || (id == Head(q) && HeadFlushed(q))
  {
    if Flush(id) in Lives(q.done) {
      var e := InLives(q.done, Flush(id));
      assert e.id == id;
      DoneBelow(q, e);
    } else {
      assert Flush(id) in Part(q.seqs[0].id, q.seqs[0].processed);
    }
  }

  /** Who waits for the flush is answered by it. */
  lemma FlushAnswered(w: World, n: nat)
    requires WorldInv(w) && n < |w.d.asked| && n in w.d.forFlush && Flush(w.d.asked[n]) in w.q.log
    ensures w.d.replied[n] == 1
  {
    var d, id := w.d, w.d.asked[n];
    FlushedMarked(w.q, id);
    TrackedAt(d, Head(w.q), w.q.seqCnt, HeadFlushed(w.q), id);
    if d.replied[n] == 0 {
      assert OpenAt(d.status, id, n) == 1;
      var i := Find(d.status, id);
      assert Count(Open(d.status[i].waits, d.status[i].flushed), n) == 1;
      var j := InOpen(d.status[i].waits, d.status[i].flushed, n);
      assert false;
    }
  }

  /** Main result: in every run of the server and the two threads, each request to wait is answered
      at most once, and has been answered exactly once as soon as its sequence is finalised, or flushed
      if that is what it waits for. One that had to wait is told 1 only if the sequence was cancelled,
      because someone asked for that, and 0 only if it has ended, or was flushed and that is what it
      waits for. The entries are those of the unfinalised sequences,
      in order and without a gap, and no flush goes astray. */
  lemma EveryWaitAnswered(w: World, ms: seq<Move>)
    requires Opening(w)
    ensures var World(q, d) := Run(w, ms);
            && (forall n :: 0 <= n < |d.asked| ==> d.replied[n] <= 1)
            && (forall n :: 0 <= n < |d.asked| && (End(d.asked[n]) in q.log || Cancel(d.asked[n]) in q.log) ==>
                  d.replied[n] == 1)
            && (forall n :: 0 <= n < |d.asked| && n in d.forFlush && Flush(d.asked[n]) in q.log ==> d.replied[n] == 1)
            && (forall n :: 0 <= n < |d.asked| && n in d.queued && d.replied[n] == 1 ==>
                  && n in d.value
                  && (d.value[n] == 1 ==> Cancel(d.asked[n]) in q.log && d.asked[n] in q.flagged)
                  && (d.value[n] != 1 ==>
                        d.value[n] == 0 &&
                        (End(d.asked[n]) in q.log || (Flush(d.asked[n]) in q.log && n in d.forFlush))))
            && (forall i :: 0 <= i < |d.status| ==> d.status[i].id == q.seqCnt - |d.status| + 1 + i)
            && !d.astray
  {
    RunKeeps(w, ms);
    var w' := Run(w, ms);
    forall n: nat | n < |w'.d.asked| && (End(w'.d.asked[n]) in w'.q.log || Cancel(w'.d.asked[n]) in w'.q.log)
      ensures w'.d.replied[n] == 1
    {
      var id := w'.d.asked[n];
      FinalisedBelow(w'.q, id, if End(id) in w'.q.log then End(id) else Cancel(id));
      TrackedAt(w'.d, Head(w'.q), w'.q.seqCnt, HeadFlushed(w'.q), w'.d.asked[n]);
      assert OpenAt(w'.d.status, w'.d.asked[n], n) == 0;
    }
    forall n: nat | n < |w'.d.asked| && n in w'.d.forFlush && Flush(w'.d.asked[n]) in w'.q.log
      ensures w'.d.replied[n] == 1
    {
      FlushAnswered(w', n);
    }
    forall n: nat | n < |w'.d.asked| && Cancel(w'.d.asked[n]) in w'.q.log ensures w'.d.asked[n] in w'.q.flagged {
      CancelWasAsked(w'.q, w'.d.asked[n]);
    }
  }

  lemma AskTells(d: Desk, id: nat, what: nat)
    requires DeskInv(d)
    ensures var r, d' := Told(d, id, what), Ask(d, id, what);
            && d'.value == (if r.Some? then d.value[|d.asked| := r.value] else d.value)
            && (|d.asked| in d'.queued <==> r == None)
  {
    assert |d.asked| !in d.queued;
    if Told(d, id, what).Some? {
      assert Ask(d, id, what).value == d.value + (map k | k in [|d.asked|] :: Told(d, id, what).value);
    }
  }

  /** A request that is answered 0 at once: well formed, and nothing is unfinalised, or the sequence
      comes before all that are, or it is the first of them, is flushed, and only that is waited for. */
  predicate ToldDone(w: World, id: nat, what: nat) {
    && id != 0 && 1 <= what <= 2
    && (w.d.status == [] || id < Head(w.q) || (what == 1 && id == Head(w.q) && HeadFlushed(w.q)))
  }

  lemma ToldBy(w: World, id: nat, what: nat)
    requires WorldInv(w)
    ensures var r := Told(w.d, id, what);
            && (r == Some(1) <==> id == 0 || !(1 <= what <= 2) || (w.d.status != [] && w.q.seqCnt < id))
            && (r == None ==> id <= w.q.seqCnt && End(id) !in w.q.log && Cancel(id) !in w.q.log)
            && (r == Some(0) <==> ToldDone(w, id, what))
  {
    TrackedAt(w.d, Head(w.q), w.q.seqCnt, HeadFlushed(w.q), id);
    if End(id) in w.q.log || Cancel(id) in w.q.log {
      FinalisedBelow(w.q, id, if End(id) in w.q.log then End(id) else Cancel(id));
    }
  }

  /** What a request is told, in every reachable state: it is refused exactly if it is malformed or
      if, with some sequence unfinalised, its id is above all ids issued. With nothing unfinalised
      even an id that was never issued counts as finished. It is told 0 at once exactly if it counts as
      finished, or waits for the flush of a sequence that is flushed. Only an unfinished sequence makes
      it wait. */
  lemma ToldAtOnce(w: World, ms: seq<Move>, id: nat, what: nat)
    requires Opening(w)
    ensures var World(q, d) := Run(w, ms);
            var r := Told(d, id, what);
            && (r == Some(1) <==> id == 0 || !(1 <= what <= 2) || (d.status != [] && q.seqCnt < id))
            && (r == None ==> id <= q.seqCnt && End(id) !in q.log && Cancel(id) !in q.log)
            && (r == Some(0) <==> ToldDone(Run(w, ms), id, what))
            && Ask(d, id, what).value == (if r.Some? then d.value[|d.asked| := r.value] else d.value)
            && (|d.asked| in Ask(d, id, what).queued <==> r == None)
  {
    RunKeeps(w, ms);
    ToldBy(Run(w, ms), id, what);
    AskTells(Run(w, ms).d, id, what);
  }
}
