/** Stand-alone requests from the frontend to the backend and back (lib/ctrl_iface.cpp,
    lib/controller.cpp): the command queue, the cache with its waiting callbacks, and the copy of
    the DDS override state that the frontend keeps. The two threads meet in the queue only, so a
    run is any interleaving of the steps below. */
module Commands {
  import opened Pulses
  import opened Backend

  /** A cached value is used for 0.1s. */
  const FRESH_NS: nat := 100_000_000

  datatype CacheOp = DdsOp(p: Param) | ClockOp

  datatype Key = Key(op: CacheOp, operand: nat, isOverride: bool)

  /** Callbacks are numbered in the order in which reads are requested. */
  datatype Entry = Entry(t: nat, val: Word, cbs: seq<nat>)

  type Cache = map<Key, Entry>

  function EntryAt(c: Cache, k: Key): Entry {
    if k in c then c[k] else Entry(0, 0, [])
  }

  function DdsKey(p: Param, chn: Channel, isOverride: bool): Key {
    Key(DdsOp(p), chn, isOverride)
  }

  /** The cache says that the override is on. */
  predicate CacheOn(c: Cache, p: Param, chn: Channel) {
    var k := DdsKey(p, chn, true);
    k in c && c[k].val != ALL_ONES
  }

  datatype Answer = Answer(cache: Cache, fired: seq<nat>, hit: bool)

  /** A new value arrives for `k`: answer everyone waiting for it. A plain DDS value also replaces
      the override value if the override is on. */
  function CacheSet(c: Cache, k: Key, val: Word, now: nat): Answer {
    var c1 := c[k := Entry(now, val, [])];
    var ko := k.(isOverride := true);
    if !k.isOverride && k.op.DdsOp? && ko in c && c[ko].val != ALL_ONES then
      Answer(c1[ko := Entry(now, val, [])], EntryAt(c, k).cbs + c[ko].cbs, true)
    else
      Answer(c1, EntryAt(c, k).cbs, true)
  }

  /** Ask for the value of `k`: a fresh value, and any override, is answered at once. Otherwise
      wait; without a hit the value has to be asked for. */
  function CacheGet(c: Cache, k: Key, cb: nat, now: nat): Answer {
    var e := EntryAt(c, k);
    if now - e.t <= FRESH_NS then Answer(c[k := e], [cb], true)
    else if k.isOverride then
      Answer(c[k := if e.t == 0 then e.(val := ALL_ONES) else e], [cb], true)
    else Answer(c[k := e.(cbs := e.cbs + [cb])], [], e.cbs != [])
  }

  /** What a value in the cache is good for: a set is seen by every read of the same key within 0.1s,
      and by no read of another key, except that a plain DDS set is also the value of an override that
      is on. Who waited for the old value has been called and waits no more. */
  lemma ReadsSeeSets(c: Cache, k: Key, val: Word, now: nat, k': Key, cb: nat, later: nat)
    requires now <= later <= now + 100_000_000
    ensures var a := CacheSet(c, k, val, now);
            var on := !k.isOverride && k.op.DdsOp? && k.(isOverride := true) in c && c[k.(isOverride := true)].val != ALL_ONES;
            if k' == k || (on && k' == k.(isOverride := true)) then
              var g := CacheGet(a.cache, k', cb, later);
              && g.hit && g.fired == [cb] && g.cache[k'] == Entry(now, val, [])
              && forall n :: n in EntryAt(c, k').cbs ==> n in a.fired
            else EntryAt(a.cache, k') == EntryAt(c, k')
  {
  }

  // ---------------------------------------------------------------------------------------
  // The two threads

  datatype Event =
    | SetDds(p: Param, chn: Channel, isOverride: bool, val: Word, now: nat)
    | GetDds(p: Param, chn: Channel, isOverride: bool, now: nat)
    | SetTtl(high: bool, bank: Bank, mask: Bits)
    | SetClock(div: Word, now: nat)
    | GetClock(cur: Word, now: nat)
    | ResetDds(chn: Channel, now: nat)
    | Pop(now: nat)                               // the frontend takes back a finished command
    | Start                                       // the backend runs the next command
    | Complete(ready: bool)                       // the backend looks for the result of a read
    | SeqWrite(p: Param, chn: Channel, val: Word) // a sequence writes a DDS value
    | Check(chn: Channel)                         // the backend checks a DDS

  /** Commands are numbered from 0; the one at queue[i] is number `popped + i`. `issued` has, for
      each read, the register value when its pulse was sent. */
  datatype Sys = Sys(cache: Cache, queue: seq<ReqCmd>, filter: nat, popped: nat,
                     ctl: Ctl, dev: Device, waiting: bool, results: seq<Word>,
                     ran: seq<nat>, issued: map<nat, Word>, fired: multiset<nat>, keys: seq<Key>, clock: nat)

  function Send(s: Sys, cmd: ReqCmd): Sys {
    s.(queue := s.queue + [cmd])
  }

  function Answered(s: Sys, a: Answer, now: nat): Sys {
    s.(cache := a.cache, fired := s.fired + multiset(a.fired), clock := now)
  }

  function SetKey(s: Sys, k: Key, val: Word, now: nat): Sys {
    Answered(s, CacheSet(s.cache, k, val, now), now)
  }

  function Run(s: Sys, e: Effect): Sys {
    s.(ctl := e.ctl, dev := Pulses.Run(s.dev, e.pulses))
  }

  function StartCmd(pt: PulseTimes, s: Sys): Sys
    requires s.filter < |s.queue|
  {
    var cmd, n := s.queue[s.filter], s.popped + s.filter;
    var s' := Run(s, RunCmd(pt, s.ctl, cmd)).(ran := s.ran + [n]);
    if cmd.Reads() then
      var v := s.dev.dds[cmd.chn].Get(cmd.p);
      s'.(waiting := true, results := s.results + [v], issued := s.issued[n := v])
    else s'.(filter := s.filter + 1)
  }

  function CompleteCmd(s: Sys): Sys
    requires s.filter < |s.queue| && s.queue[s.filter].Reads() && s.results != []
  {
    s.(queue := s.queue[s.filter := s.queue[s.filter].(val := s.results[0])], filter := s.filter + 1,
       waiting := false, results := s.results[1..])
  }

  function PopCmd(s: Sys, now: nat): Sys
    requires 0 < s.filter <= |s.queue|
  {
    var cmd := s.queue[0];
    var s' := s.(queue := s.queue[1..], filter := s.filter - 1, popped := s.popped + 1, clock := now);
    if cmd.Reads() then SetKey(s', DdsKey(cmd.p, cmd.chn, cmd.isOverride), cmd.val, now) else s'
  }

  function Step(pt: PulseTimes, s: Sys, e: Event): Sys {
    match e
    case SetDds(p, chn, isOverride, val, now) =>
      SetKey(Send(s, DdsCmd(p, chn, false, isOverride, val)), DdsKey(p, chn, isOverride), val, now)
    case GetDds(p, chn, isOverride, now) =>
      var k := DdsKey(p, chn, isOverride);
      var a := CacheGet(s.cache, k, |s.keys|, now);
      var s' := Answered(s, a, now).(keys := s.keys + [k]);
      if a.hit then s' else Send(s', DdsCmd(p, chn, true, isOverride, 0))
    case SetTtl(high, bank, mask) => Send(s, TtlCmd(high, bank, mask))
    case SetClock(div, now) => SetKey(Send(s, ClockCmd(div)), Key(ClockOp, 0, false), div, now)
    case GetClock(cur, now) =>
      var s' := SetKey(s, Key(ClockOp, 0, false), cur, now);
      s'.(fired := s'.fired + multiset{|s.keys|}, keys := s.keys + [Key(ClockOp, 0, false)])
    case ResetDds(chn, now) =>
      SetKey(SetKey(SetKey(Send(s, ResetCmd(chn)), DdsKey(Freq, chn, true), ALL_ONES, now),
                    DdsKey(Amp, chn, true), ALL_ONES, now),
             DdsKey(Phase, chn, true), ALL_ONES, now)
    case Pop(now) => if 0 < s.filter <= |s.queue| then PopCmd(s, now) else s
    case Start => if !s.waiting && s.filter < |s.queue| then StartCmd(pt, s) else s
    case Complete(ready) =>
      if s.waiting && ready && s.filter < |s.queue| && s.queue[s.filter].Reads() && s.results != []
      then CompleteCmd(s) else s
    case SeqWrite(p, chn, val) =>
      if s.ctl.ovr[chn].Get(p).Some? then s else Run(s, WriteDds(s.ctl, p, chn, val))
    case Check(chn) => if s.waiting then s else Run(s, CheckDds(s.ctl, chn))
  }

  function Steps(pt: PulseTimes, s: Sys, es: seq<Event>): Sys {
    if es == [] then s else Step(pt, Steps(pt, s, es[..|es| - 1]), es[|es| - 1])
  }

  ghost predicate Initial(s: Sys) {
    && s.cache == map[] && s.queue == [] && s.filter == s.popped == 0 && !s.waiting && s.results == []
    && s.ran == [] && s.issued == map[] && s.fired == multiset{} && s.keys == []
    && (forall chn: Channel :: s.ctl.ovr[chn] == NO_OVERRIDES)
  }

  // ---------------------------------------------------------------------------------------
  // Each command runs once, in order, and a read completes with its own result

  /** Commands run so far: all that are popped or finished, and the one that is waiting. */
  ghost predicate QueueInv(s: Sys) {
    && s.filter <= |s.queue|
    && |s.ran| == s.popped + s.filter + (if s.waiting then 1 else 0)
    && (forall i :: 0 <= i < |s.ran| ==> s.ran[i] == i)
    && (forall i :: 0 <= i < |s.queue| ==> s.queue[i].Legal())
    && (forall i :: 0 <= i < s.filter && s.queue[i].Reads() ==>
          s.popped + i in s.issued && s.queue[i].val == s.issued[s.popped + i])
    && (if s.waiting then
          && s.filter < |s.queue| && s.queue[s.filter].Reads()
          && s.popped + s.filter in s.issued && s.results == [s.issued[s.popped + s.filter]]
        else s.results == [])
  }

  lemma SendQueue(s: Sys, s': Sys)
    requires QueueInv(s)
    requires s.queue <= s'.queue && forall i :: |s.queue| <= i < |s'.queue| ==> s'.queue[i].Legal()
    requires s' == s.(queue := s'.queue, cache := s'.cache, ctl := s'.ctl, dev := s'.dev,
                      fired := s'.fired, keys := s'.keys, clock := s'.clock)
    ensures QueueInv(s')
  {
  }

  lemma OtherQueue(pt: PulseTimes, s: Sys, e: Event)
    requires !e.Start? && !e.Complete? && !e.Pop?
    ensures var s' := Step(pt, s, e);
            && s.queue <= s'.queue && (forall i :: |s.queue| <= i < |s'.queue| ==> s'.queue[i].Legal())
            && s' == s.(queue := s'.queue, cache := s'.cache, ctl := s'.ctl, dev := s'.dev,
                        fired := s'.fired, keys := s'.keys, clock := s'.clock)
  {
  }

  lemma StartQueue(pt: PulseTimes, s: Sys)
    requires QueueInv(s) && !s.waiting && s.filter < |s.queue|
    ensures QueueInv(StartCmd(pt, s))
  {
  }

  lemma CompleteQueue(s: Sys)
    requires QueueInv(s) && s.waiting
    ensures QueueInv(CompleteCmd(s))
  {
  }

  lemma PopQueue(s: Sys, now: nat)
    requires QueueInv(s) && 0 < s.filter
    ensures QueueInv(PopCmd(s, now))
  {
    var s' := PopCmd(s, now);
    forall i | 0 <= i < s'.filter && s'.queue[i].Reads()
      ensures s'.popped + i in s'.issued && s'.queue[i].val == s'.issued[s'.popped + i]
    {
      assert s'.queue[i] == s.queue[i + 1] && s'.popped + i == s.popped + (i + 1);
    }
  }

  lemma QueueStep(pt: PulseTimes, s: Sys, e: Event)
    requires QueueInv(s)
    ensures QueueInv(Step(pt, s, e))
  {
    if e.Start? {
      if !s.waiting && s.filter < |s.queue| {
        StartQueue(pt, s);
      }
    } else if e.Complete? {
      if s.waiting && e.ready {
        CompleteQueue(s);
      }
    } else if e.Pop? {
      if 0 < s.filter {
        PopQueue(s, e.now);
      }
    } else {
      OtherQueue(pt, s, e);
      SendQueue(s, Step(pt, s, e));
    }
  }

  /** Main result: in every run each command is run exactly once, in the order of the requests;
      at most one read is under way, exactly when the backend waits for it; and a read comes back
      with what the register held when its own pulse was sent. */
  lemma {:induction false} QueueHolds(pt: PulseTimes, s: Sys, es: seq<Event>)
    requires Initial(s)
    ensures QueueInv(Steps(pt, s, es))
    decreases |es|
  {
    if es != [] {
      QueueHolds(pt, s, es[..|es| - 1]);
      QueueStep(pt, Steps(pt, s, es[..|es| - 1]), es[|es| - 1]);
    }
  }

  // ---------------------------------------------------------------------------------------
  // Every callback is called exactly once

  predicate IsRead(cmd: ReqCmd, k: Key) {
    cmd.Reads() && k == DdsKey(cmd.p, cmd.chn, false)
  }

  ghost predicate HasRead(queue: seq<ReqCmd>, k: Key) {
    exists i :: 0 <= i < |queue| && IsRead(queue[i], k)
  }

  /** How often callback `n` waits for a value of `k`. */
  function WaitsAt(c: Cache, k: Key, n: nat): nat {
    multiset(EntryAt(c, k).cbs)[n]
  }

  /** A callback has been called at most once, and waits, once and for its own key, exactly if it
      has not been called. */
  ghost predicate Balanced(s: Sys) {
    && (forall n: nat :: s.fired[n] <= if n < |s.keys| then 1 else 0)
    && (forall k, n: nat ::
          WaitsAt(s.cache, k, n) == if n < |s.keys| && s.keys[n] == k && s.fired[n] == 0 then 1 else 0)
  }

  /** Whoever waits, a read of that key is still in the queue. */
  ghost predicate ReadUnderWay(s: Sys) {
    forall k, n: nat :: WaitsAt(s.cache, k, n) > 0 ==> HasRead(s.queue, k)
  }

  ghost predicate CallbackInv(s: Sys) {
    Balanced(s) && ReadUnderWay(s)
  }

  lemma WaitsIfAny(c: Cache, k: Key)
    requires EntryAt(c, k).cbs != []
    ensures WaitsAt(c, k, EntryAt(c, k).cbs[0]) > 0
  {
  }

  lemma OverridesDoNotWait(s: Sys, k: Key)
    requires ReadUnderWay(s) && k.isOverride
    ensures EntryAt(s.cache, k).cbs == []
  {
    assert !HasRead(s.queue, k);
    if EntryAt(s.cache, k).cbs != [] {
      WaitsIfAny(s.cache, k);
      assert false;
    }
  }

  /** Setting a key calls the callbacks that wait there; those at other keys keep waiting. */
  lemma SetWaiting(s: Sys, k: Key, val: Word, now: nat)
    requires ReadUnderWay(s)
    ensures var s' := SetKey(s, k, val, now);
            && (forall n: nat :: s'.fired[n] == s.fired[n] + WaitsAt(s.cache, k, n))
            && forall k', n: nat :: WaitsAt(s'.cache, k', n) == if k' == k then 0 else WaitsAt(s.cache, k', n)
  {
    OverridesDoNotWait(s, k.(isOverride := true));
    assert EntryAt(s.cache, k).cbs + [] == EntryAt(s.cache, k).cbs;
  }

  lemma SetCallbacks(s: Sys, k: Key, val: Word, now: nat)
    requires CallbackInv(s)
    ensures CallbackInv(SetKey(s, k, val, now)) && EntryAt(SetKey(s, k, val, now).cache, k).cbs == []
  {
    SetWaiting(s, k, val, now);
  }

  /** What happens in the queue does not matter to those who do not wait. */
  lemma QueueCallbacks(s: Sys, s': Sys)
    requires CallbackInv(s)
    requires s'.cache == s.cache && s'.fired == s.fired && s'.keys == s.keys
    requires forall k, n: nat :: HasRead(s.queue, k) && WaitsAt(s.cache, k, n) > 0 ==> HasRead(s'.queue, k)
    ensures CallbackInv(s')
  {
  }

  lemma SendReads(q: seq<ReqCmd>, q': seq<ReqCmd>, k: Key)
    requires q <= q' && HasRead(q, k)
    ensures HasRead(q', k)
  {
    var i :| 0 <= i < |q| && IsRead(q[i], k);
    assert q'[i] == q[i];
  }

  lemma SendCallbacks(s: Sys, cmd: ReqCmd)
    requires CallbackInv(s)
    ensures CallbackInv(Send(s, cmd))
  {
    forall k | HasRead(s.queue, k) ensures HasRead(Send(s, cmd).queue, k) {
      SendReads(s.queue, Send(s, cmd).queue, k);
    }
    QueueCallbacks(s, Send(s, cmd));
  }

  /** A new request is answered at once, or waits at its key with a read in the queue. */
  ghost predicate Asks(s: Sys, s': Sys, k: Key, hit: bool) {
    && s'.keys == s.keys + [k]
    && (forall n: nat :: s'.fired[n] == s.fired[n] + if hit && n == |s.keys| then 1 else 0)
    && (forall k', n: nat ::
          WaitsAt(s'.cache, k', n) == WaitsAt(s.cache, k', n) + if !hit && k' == k && n == |s.keys| then 1 else 0)
    && s.queue <= s'.queue && (hit || HasRead(s'.queue, k))
  }

  lemma AskCallbacks(s: Sys, s': Sys, k: Key, hit: bool)
    requires CallbackInv(s) && Asks(s, s', k, hit)
    ensures CallbackInv(s')
  {
    forall k', n: nat | WaitsAt(s'.cache, k', n) > 0 ensures HasRead(s'.queue, k') {
      if WaitsAt(s.cache, k', n) > 0 {
        SendReads(s.queue, s'.queue, k');
      }
    }
  }

  lemma GetWaiting(c: Cache, k: Key, cb: nat, now: nat)
    ensures var a := CacheGet(c, k, cb, now);
            var hit := a.fired != [];
            && (forall n: nat :: multiset(a.fired)[n] == if hit && n == cb then 1 else 0)
            && (forall k', n: nat ::
                  WaitsAt(a.cache, k', n) == WaitsAt(c, k', n) + if !hit && k' == k && n == cb then 1 else 0)
            && (hit ==> a.hit) && (!hit ==> !k.isOverride && a.hit == (EntryAt(c, k).cbs != []))
  {
  }

  lemma GetAsks(pt: PulseTimes, s: Sys, e: Event) returns (hit: bool)
    requires CallbackInv(s) && e.GetDds?
    ensures Asks(s, Step(pt, s, e), DdsKey(e.p, e.chn, e.isOverride), hit)
  {
    var k := DdsKey(e.p, e.chn, e.isOverride);
    var s', a := Step(pt, s, e), CacheGet(s.cache, k, |s.keys|, e.now);
    GetWaiting(s.cache, k, |s.keys|, e.now);
    hit := a.fired != [];
    if !hit {
      if EntryAt(s.cache, k).cbs == [] {
        assert IsRead(s'.queue[|s.queue|], k);
      } else {
        WaitsIfAny(s.cache, k);
      }
    }
    assert s'.cache == a.cache && s'.fired == s.fired + multiset(a.fired) && s'.keys == s.keys + [k];
  }

  lemma PopCallbacks(s: Sys, now: nat)
    requires CallbackInv(s) && 0 < s.filter <= |s.queue| && s.queue[0].Legal()
    ensures CallbackInv(PopCmd(s, now))
  {
    var cmd := s.queue[0];
    if cmd.Reads() {
      // the value answers everyone who waits for it, so that nobody else needs this command
      var k := DdsKey(cmd.p, cmd.chn, false);
      SetCallbacks(s, k, cmd.val, now);
      LeaveQueue(SetKey(s, k, cmd.val, now), PopCmd(s, now), k);
    } else {
      LeaveQueue(s, PopCmd(s, now), Key(ClockOp, 0, false));
    }
  }

  lemma LeaveQueue(s: Sys, s': Sys, k: Key)
    requires CallbackInv(s) && s.queue != [] && s'.queue == s.queue[1..]
    requires s'.cache == s.cache && s'.fired == s.fired && s'.keys == s.keys
    requires s.queue[0].Reads() ==> IsRead(s.queue[0], k) && EntryAt(s.cache, k).cbs == []
    ensures CallbackInv(s')
  {
    forall k', n: nat | HasRead(s.queue, k') && WaitsAt(s.cache, k', n) > 0 ensures HasRead(s'.queue, k') {
      var i :| 0 <= i < |s.queue| && IsRead(s.queue[i], k');
      assert s'.queue[i - 1] == s.queue[i];
    }
    QueueCallbacks(s, s');
  }

  /** The steps of the backend leave the frontend's bookkeeping alone. */
  lemma BackendCallbacks(pt: PulseTimes, s: Sys, e: Event)
    requires CallbackInv(s) && (e.Start? || e.Complete? || e.SeqWrite? || e.Check?)
    ensures CallbackInv(Step(pt, s, e))
  {
    var s' := Step(pt, s, e);
    forall k | HasRead(s.queue, k) ensures HasRead(s'.queue, k) {
      var i :| 0 <= i < |s.queue| && IsRead(s.queue[i], k);
      assert IsRead(s'.queue[i], k);
    }
    QueueCallbacks(s, s');
  }

  lemma ResetCallbacks(pt: PulseTimes, s: Sys, e: Event)
    requires CallbackInv(s) && e.ResetDds?
    ensures CallbackInv(Step(pt, s, e))
  {
    SendCallbacks(s, ResetCmd(e.chn));
    var s1 := Send(s, ResetCmd(e.chn));
    SetCallbacks(s1, DdsKey(Freq, e.chn, true), ALL_ONES, e.now);
    var s2 := SetKey(s1, DdsKey(Freq, e.chn, true), ALL_ONES, e.now);
    SetCallbacks(s2, DdsKey(Amp, e.chn, true), ALL_ONES, e.now);
    var s3 := SetKey(s2, DdsKey(Amp, e.chn, true), ALL_ONES, e.now);
    SetCallbacks(s3, DdsKey(Phase, e.chn, true), ALL_ONES, e.now);
  }

  lemma ClockCallbacks(pt: PulseTimes, s: Sys, e: Event)
    requires CallbackInv(s) && (e.SetClock? || e.GetClock?)
    ensures CallbackInv(Step(pt, s, e))
  {
    var k := Key(ClockOp, 0, false);
    if e.SetClock? {
      SendCallbacks(s, ClockCmd(e.div));
      SetCallbacks(Send(s, ClockCmd(e.div)), k, e.div, e.now);
    } else {
      SetCallbacks(s, k, e.cur, e.now);
      AskCallbacks(SetKey(s, k, e.cur, e.now), Step(pt, s, e), k, true);
    }
  }

  lemma CallbackStep(pt: PulseTimes, s: Sys, e: Event)
    requires CallbackInv(s) && QueueInv(s)
    ensures CallbackInv(Step(pt, s, e))
  {
    match e
    case SetDds(p, chn, isOverride, val, now) =>
      SendCallbacks(s, DdsCmd(p, chn, false, isOverride, val));
      SetCallbacks(Send(s, DdsCmd(p, chn, false, isOverride, val)), DdsKey(p, chn, isOverride), val, now);
    case GetDds(p, chn, isOverride, _) =>
      var hit := GetAsks(pt, s, e);
      AskCallbacks(s, Step(pt, s, e), DdsKey(p, chn, isOverride), hit);
    case SetTtl(high, bank, mask) => SendCallbacks(s, TtlCmd(high, bank, mask));
    case SetClock(_, _) => ClockCallbacks(pt, s, e);
    case GetClock(_, _) => ClockCallbacks(pt, s, e);
    case ResetDds(_, _) => ResetCallbacks(pt, s, e);
    case Pop(now) =>
      if 0 < s.filter {
        PopCallbacks(s, now);
      }
    case _ => BackendCallbacks(pt, s, e);
  }

  lemma {:induction false} CallbacksHold(pt: PulseTimes, s: Sys, es: seq<Event>)
    requires Initial(s)
    ensures CallbackInv(Steps(pt, s, es))
    decreases |es|
  {
    if es == [] {
      assert forall k, n: nat :: WaitsAt(s.cache, k, n) == 0;
    } else {
      CallbacksHold(pt, s, es[..|es| - 1]);
      QueueHolds(pt, s, es[..|es| - 1]);
      CallbackStep(pt, Steps(pt, s, es[..|es| - 1]), es[|es| - 1]);
    }
  }

  /** Main result: no callback is ever called twice, and once the queue is empty every callback
      has been called. */
  lemma EveryCallbackOnce(pt: PulseTimes, s: Sys, es: seq<Event>, n: nat)
    requires Initial(s) && n < |Steps(pt, s, es).keys|
    ensures Steps(pt, s, es).fired[n] <= 1
    ensures Steps(pt, s, es).queue == [] ==> Steps(pt, s, es).fired[n] == 1
  {
    CallbacksHold(pt, s, es);
    var s' := Steps(pt, s, es);
    assert s'.queue == [] ==> !HasRead(s'.queue, s'.keys[n]);
    assert s'.queue == [] ==> WaitsAt(s'.cache, s'.keys[n], n) == 0;
  }
}
