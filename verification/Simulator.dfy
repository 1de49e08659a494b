/** The poll-driven simulator of the hardware FIFO (lib/dummy_pulser.cpp) as a state machine,
    and what holds of all its runs.

    Commands wait in a queue with the time they were submitted. Any call that looks at the
    simulator first runs the commands that are due. Two results say that this laziness is
    harmless: the state is always what a sequential interpreter makes of a prefix of the
    submitted commands, and leaving out any number of polls changes nothing.
 */
module Simulator {
  import opened Pulses

  const MAX_CMDS: nat := 4096
  const MAX_RESULTS: nat := 4097

  /** A queued command: `t` is the time it was submitted, in ns. */
  datatype Cmd = Cmd(pulse: Pulse, timing: bool, t: int)

  datatype Sim = Sim(dev: Device, cmds: seq<Cmd>, cmdsEmpty: bool, results: seq<nat>,
                     timingOk: bool, timingCheck: bool, hold: bool, forceRelease: bool, release: int) {
    predicate Blocked() {
      hold && !forceRelease
    }
  }

  function Max(a: int, b: int): int {
    if a < b then b else a
  }

  function AddResult(results: seq<nat>, v: nat): seq<nat> {
    results + [if |results| >= MAX_RESULTS then 0 else v]
  }

  function Finish(pt: PulseTimes, release: int, c: Cmd): int {
    Max(c.t, release) + 10 * Duration(pt, c.pulse)
  }

  /** Run the command at the front of the queue. */
  function RunHead(pt: PulseTimes, s: Sim): Sim
    requires s.cmds != []
  {
    var c := s.cmds[0];
    var res := ResultOf(s.dev, c.pulse);
    s.(dev := Exec(s.dev, c.pulse),
       cmds := s.cmds[1..],
       cmdsEmpty := |s.cmds| == 1,
       results := if res.Some? then AddResult(s.results, res.value) else s.results,
       timingOk := c.pulse.ClearErr? || (s.timingOk && !(s.timingCheck && c.t > s.release)),
       timingCheck := c.timing,
       release := Finish(pt, s.release, c))
  }

  /** Whether the front command may run when the clock reads `now`. */
  predicate Due(s: Sim, now: int) {
    s.cmds != [] && (s.cmds[0].t > s.release || s.release <= now)
  }

  /** Run every command that is due at `now`. */
  function RunPast(pt: PulseTimes, s: Sim, now: int): Sim
    decreases |s.cmds|
  {
    if s.Blocked() || !Due(s, now) then s else RunPast(pt, RunHead(pt, s), now)
  }

  function Push(s: Sim, c: Cmd): Sim {
    s.(cmds := s.cmds + [c], cmdsEmpty := false)
  }

  /** A full queue releases itself before it is drained for the new command. */
  function ForceRelease(s: Sim, now: int): Sim {
    if s.forceRelease then s else s.(forceRelease := true, release := now)
  }

  /** Draining a full queue always makes room: one pass is enough. */
  lemma DrainMakesRoom(pt: PulseTimes, s: Sim, now: int)
    requires s.cmds != [] && !s.Blocked() && s.release <= now
    ensures |RunPast(pt, s, now).cmds| < |s.cmds|
  {
    OnlyRemoves(pt, RunHead(pt, s), now);
  }

  lemma {:induction false} OnlyRemoves(pt: PulseTimes, s: Sim, now: int)
    ensures |RunPast(pt, s, now).cmds| <= |s.cmds|
    ensures RunPast(pt, s, now).forceRelease == s.forceRelease && RunPast(pt, s, now).hold == s.hold
    ensures forall c :: c in RunPast(pt, s, now).cmds ==> c in s.cmds
    decreases |s.cmds|
  {
    if !s.Blocked() && Due(s, now) {
      OnlyRemoves(pt, RunHead(pt, s), now);
    }
  }

  // ---------------------------------------------------------------------------------------
  // Runs

  /** A call on the simulator, with the clock readings it makes. */
  datatype Event =
    | Submit(cmd: Cmd, now: int, wake: int)  // `now`: release time of a full queue; `wake`: its drain
    | Poll(now: int)
    | Take(now: int)
    | SetHold(now: int)
    | ReleaseHold(now: int)
    | ToggleInit(now: int)

  /** What has happened so far, in order. */
  datatype Entry =
    | Ran(cmd: Cmd)
    | Took(val: nat)
    | Rebased(t: int)  // the release time was set by hand
    | Reset            // timing state initialised

  datatype World = World(sim: Sim, submitted: seq<Cmd>, log: seq<Entry>) {
    function Note(e: Entry): World {
      this.(log := log + [e])
    }
  }

  function Head(pt: PulseTimes, w: World): World
    requires w.sim.cmds != []
  {
    World(RunHead(pt, w.sim), w.submitted, w.log + [Ran(w.sim.cmds[0])])
  }

  function Advance(pt: PulseTimes, w: World, now: int): (r: World)
    ensures r.sim == RunPast(pt, w.sim, now) && r.submitted == w.submitted
    decreases |w.sim.cmds|
  {
    if w.sim.Blocked() || !Due(w.sim, now) then w else Advance(pt, Head(pt, w), now)
  }

  function Enqueue(w: World, c: Cmd): World {
    w.(sim := Push(w.sim, c), submitted := w.submitted + [c])
  }

  function Step(pt: PulseTimes, w: World, e: Event): World {
    match e
    case Submit(c, now, wake) =>
      if |w.sim.cmds| < MAX_CMDS then Enqueue(w, c)
      else
        var w1 := w.(sim := ForceRelease(w.sim, now));
        Enqueue(Advance(pt, if w.sim.forceRelease then w1 else w1.Note(Rebased(now)), wake), c)
    case Poll(now) => Advance(pt, w, now)
    case Take(now) =>
      var w1 := Advance(pt, w, now);
      if w1.sim.results == [] then w1
      else w1.(sim := w1.sim.(results := w1.sim.results[1..])).Note(Took(w1.sim.results[0]))
    case SetHold(now) =>
      if w.sim.hold then w
      else
        var w1 := if w.sim.forceRelease then w else Advance(pt, w, now);
        w1.(sim := w1.sim.(hold := true))
    case ReleaseHold(now) =>
      if !w.sim.hold then w
      else if w.sim.forceRelease then w.(sim := w.sim.(hold := false))
      else w.(sim := w.sim.(hold := false, release := now)).Note(Rebased(now))
    case ToggleInit(_) =>
      if !w.sim.cmdsEmpty then w  // the call fails
      else w.(sim := w.sim.(forceRelease := false, timingOk := true, timingCheck := false)).Note(Reset)
  }

  /** What a call does to the simulator; the history plays no part in it. */
  function After(pt: PulseTimes, s: Sim, e: Event): Sim {
    Step(pt, World(s, [], []), e).sim
  }

  function Steps(pt: PulseTimes, w: World, es: seq<Event>): World
    decreases |es|
  {
    if es == [] then w else Steps(pt, Step(pt, w, es[0]), es[1..])
  }

  /** A freshly made simulator. */
  ghost predicate Initial(w: World, d: Device, r: int) {
    w == World(Sim(d, [], true, [], true, false, false, false, r), [], [])
  }

  // ---------------------------------------------------------------------------------------
  // The sequential interpreter

  /** The commands run so far. */
  function Rans(log: seq<Entry>): seq<Cmd> {
    if log == [] then []
    else
      var before := Rans(log[..|log| - 1]);
      var e := log[|log| - 1];
      if e.Ran? then before + [e.cmd] else before
  }

  function PulsesOf(cs: seq<Cmd>): seq<Pulse> {
    seq(|cs|, i requires 0 <= i < |cs| => cs[i].pulse)
  }

  /** The device, as the interpreter has it: the pulses run so far, one after the other. */
  function DeviceAfter(d: Device, log: seq<Entry>): Device {
    Run(d, PulsesOf(Rans(log)))
  }

  /** The results handed out so far. */
  function Taken(log: seq<Entry>): seq<nat> {
    if log == [] then []
    else
      var before := Taken(log[..|log| - 1]);
      var e := log[|log| - 1];
      if e.Took? then before + [e.val] else before
  }

  /** All results ever produced. A result produced while 4097 others are unread is lost as 0. */
  function Produced(d: Device, log: seq<Entry>): seq<nat> {
    if log == [] then []
    else
      var was := log[..|log| - 1];
      var before := Produced(d, was);
      var e := log[|log| - 1];
      if e.Ran? && ResultOf(DeviceAfter(d, was), e.cmd.pulse).Some? then
        before + [if |before| - |Taken(was)| >= MAX_RESULTS then 0
                  else ResultOf(DeviceAfter(d, was), e.cmd.pulse).value]
      else before
  }

  /** End of the last command: it starts at the later of its stamp and the previous end. */
  function EndAfter(pt: PulseTimes, r: int, log: seq<Entry>): int {
    if log == [] then r
    else
      var before := EndAfter(pt, r, log[..|log| - 1]);
      match log[|log| - 1]
      case Ran(c) => Finish(pt, before, c)
      case Rebased(t) => t
      case _ => before
  }

  /** Whether the last command asked for the next one to be on time. */
  function CheckAfter(log: seq<Entry>): bool {
    log != [] &&
    match log[|log| - 1]
    case Ran(c) => c.timing
    case Reset => false
    case _ => CheckAfter(log[..|log| - 1])
  }

  /** Entry `i` is a command that came too late for the timing-checked command before it. */
  ghost predicate Late(pt: PulseTimes, r: int, log: seq<Entry>, i: nat)
    requires i < |log|
  {
    log[i].Ran? && CheckAfter(log[..i]) && log[i].cmd.t > EndAfter(pt, r, log[..i])
  }

  predicate Clears(e: Entry) {
    e == Reset || (e.Ran? && e.cmd.pulse.ClearErr?)
  }

  /** There is a late command that no clear or initialisation has come after. */
  ghost predicate Faulty(pt: PulseTimes, r: int, log: seq<Entry>) {
    exists i: nat :: i < |log| && Late(pt, r, log, i) && forall j :: i <= j < |log| ==> !Clears(log[j])
  }

  lemma FaultyAppend(pt: PulseTimes, r: int, log: seq<Entry>, e: Entry)
    ensures Faulty(pt, r, log + [e]) <==>
            !Clears(e) && (Faulty(pt, r, log) || Late(pt, r, log + [e], |log|))
  {
    var more := log + [e];
    forall i: nat | i < |log| ensures more[..i] == log[..i] && more[i] == log[i] {}
    assert more[|log|] == e;
    if !Clears(e) && Faulty(pt, r, log) {
      var i: nat :| i < |log| && Late(pt, r, log, i) && forall j :: i <= j < |log| ==> !Clears(log[j]);
      assert Late(pt, r, more, i);
    }
    if Faulty(pt, r, more) {
      var i: nat :| i < |more| && Late(pt, r, more, i) && forall j :: i <= j < |more| ==> !Clears(more[j]);
      if i < |log| {
        assert Late(pt, r, log, i);
        assert forall j :: i <= j < |log| ==> more[j] == log[j];
      }
    }
  }

  /** The simulator is where the interpreter is after a prefix of the submitted commands. */
  ghost predicate Refines(pt: PulseTimes, d: Device, r: int, w: World) {
    && w.submitted == Rans(w.log) + w.sim.cmds
    && w.sim.dev == DeviceAfter(d, w.log)
    && Taken(w.log) + w.sim.results == Produced(d, w.log)
    && w.sim.release == EndAfter(pt, r, w.log)
    && w.sim.timingCheck == CheckAfter(w.log)
    && (w.sim.timingOk <==> !Faulty(pt, r, w.log))
    && |w.sim.cmds| <= MAX_CMDS
    && (w.sim.cmdsEmpty <==> w.sim.cmds == [])
  }

  lemma HeadRefines(pt: PulseTimes, d: Device, r: int, w: World)
    requires Refines(pt, d, r, w) && w.sim.cmds != []
    ensures Refines(pt, d, r, Head(pt, w))
  {
    var c := w.sim.cmds[0];
    var w' := Head(pt, w);
    assert w'.log[..|w.log|] == w.log;
    assert w.sim.cmds == [c] + w.sim.cmds[1..];
    assert PulsesOf(Rans(w'.log))[..|Rans(w.log)|] == PulsesOf(Rans(w.log));
    FaultyAppend(pt, r, w.log, Ran(c));
    if ResultOf(w.sim.dev, c.pulse).Some? {
      assert |Produced(d, w.log)| - |Taken(w.log)| == |w.sim.results|;
      assert w'.sim.results == w.sim.results + [w'.sim.results[|w.sim.results|]];
    }
  }

  lemma {:induction false} AdvanceRefines(pt: PulseTimes, d: Device, r: int, w: World, now: int)
    requires Refines(pt, d, r, w)
    ensures Refines(pt, d, r, Advance(pt, w, now))
    decreases |w.sim.cmds|
  {
    if !w.sim.Blocked() && Due(w.sim, now) {
      HeadRefines(pt, d, r, w);
      AdvanceRefines(pt, d, r, Head(pt, w), now);
    }
  }

  lemma EnqueueRefines(pt: PulseTimes, d: Device, r: int, w: World, c: Cmd)
    requires Refines(pt, d, r, w) && |w.sim.cmds| < MAX_CMDS
    ensures Refines(pt, d, r, Enqueue(w, c))
  {
  }

  /** Noting anything but a command leaves the interpreter's device and results alone. */
  lemma NoteKeeps(pt: PulseTimes, d: Device, r: int, log: seq<Entry>, e: Entry)
    requires !e.Ran?
    ensures Rans(log + [e]) == Rans(log) && Produced(d, log + [e]) == Produced(d, log)
    ensures Taken(log + [e]) == if e.Took? then Taken(log) + [e.val] else Taken(log)
    ensures CheckAfter(log + [e]) == (e != Reset && CheckAfter(log))
    ensures EndAfter(pt, r, log + [e]) == if e.Rebased? then e.t else EndAfter(pt, r, log)
    ensures Faulty(pt, r, log + [e]) <==> e != Reset && Faulty(pt, r, log)
  {
    assert (log + [e])[..|log|] == log;
    FaultyAppend(pt, r, log, e);
  }

  /** The clock never runs backwards, and a drain waits for the release time. */
  ghost predicate Timely(w: World, e: Event) {
    e.Submit? ==> |w.sim.cmds| >= MAX_CMDS ==> ForceRelease(w.sim, e.now).release <= e.wake
  }

  lemma SubmitRefines(pt: PulseTimes, d: Device, r: int, w: World, e: Event)
    requires Refines(pt, d, r, w) && Timely(w, e) && e.Submit?
    ensures Refines(pt, d, r, Step(pt, w, e))
  {
    if |w.sim.cmds| < MAX_CMDS {
      EnqueueRefines(pt, d, r, w, e.cmd);
    } else {
      var w1 := w.(sim := ForceRelease(w.sim, e.now));
      var w2 := if w.sim.forceRelease then w1 else w1.Note(Rebased(e.now));
      NoteKeeps(pt, d, r, w.log, Rebased(e.now));
      AdvanceRefines(pt, d, r, w2, e.wake);
      DrainMakesRoom(pt, w2.sim, e.wake);
      EnqueueRefines(pt, d, r, Advance(pt, w2, e.wake), e.cmd);
    }
  }

  lemma TakeRefines(pt: PulseTimes, d: Device, r: int, w: World)
    requires Refines(pt, d, r, w) && w.sim.results != []
    ensures Refines(pt, d, r, w.(sim := w.sim.(results := w.sim.results[1..])).Note(Took(w.sim.results[0])))
  {
    var v, rest := w.sim.results[0], w.sim.results[1..];
    NoteKeeps(pt, d, r, w.log, Took(v));
    TakenNext(w.log, v, rest);
    assert [v] + rest == w.sim.results;
  }

  lemma TakenNext(log: seq<Entry>, v: nat, rest: seq<nat>)
    ensures Taken(log + [Took(v)]) + rest == Taken(log) + ([v] + rest)
  {
    assert (log + [Took(v)])[..|log|] == log;
    assert (Taken(log) + [v]) + rest == Taken(log) + ([v] + rest);
  }

  lemma ControlRefines(pt: PulseTimes, d: Device, r: int, w: World, e: Event)
    requires Refines(pt, d, r, w) && (e.SetHold? || e.ReleaseHold? || e.ToggleInit?)
    ensures Refines(pt, d, r, Step(pt, w, e))
  {
    if e.SetHold? {
      AdvanceRefines(pt, d, r, w, e.now);
    } else {
      NoteKeeps(pt, d, r, w.log, if e.ReleaseHold? then Rebased(e.now) else Reset);
    }
  }

  lemma StepRefines(pt: PulseTimes, d: Device, r: int, w: World, e: Event)
    requires Refines(pt, d, r, w) && Timely(w, e)
    ensures Refines(pt, d, r, Step(pt, w, e))
  {
    match e
    case Submit(_, _, _) => SubmitRefines(pt, d, r, w, e);
    case Poll(now) => AdvanceRefines(pt, d, r, w, now);
    case Take(now) =>
      AdvanceRefines(pt, d, r, w, now);
      if Advance(pt, w, now).sim.results != [] {
        TakeRefines(pt, d, r, Advance(pt, w, now));
      }
    case _ => ControlRefines(pt, d, r, w, e);
  }

  ghost predicate AllTimely(pt: PulseTimes, w: World, es: seq<Event>)
    decreases |es|
  {
    es == [] || (Timely(w, es[0]) && AllTimely(pt, Step(pt, w, es[0]), es[1..]))
  }

  lemma {:induction false} StepsRefine(pt: PulseTimes, d: Device, r: int, w: World, es: seq<Event>)
    requires Refines(pt, d, r, w) && AllTimely(pt, w, es)
    ensures Refines(pt, d, r, Steps(pt, w, es))
    decreases |es|
  {
    if es != [] {
      StepRefines(pt, d, r, w, es[0]);
      StepsRefine(pt, d, r, Step(pt, w, es[0]), es[1..]);
    }
  }

  /** Main result: after any run from a fresh simulator, it refines the sequential interpreter.
      In particular its timing verdict is bad exactly when some command came later than the end
      of the timing-checked command before it, with no clear or initialisation since. */
  lemma SimulatorRefinesInterpreter(pt: PulseTimes, d: Device, r: int, w: World, es: seq<Event>)
    requires Initial(w, d, r) && AllTimely(pt, w, es)
    ensures Refines(pt, d, r, Steps(pt, w, es))
    ensures Rans(Steps(pt, w, es).log) <= Steps(pt, w, es).submitted && |Steps(pt, w, es).sim.cmds| <= 4096
  {
    StepsRefine(pt, d, r, w, es);
  }

  lemma RansNote(log: seq<Entry>, e: Entry)
    requires !e.Ran?
    ensures Rans(log + [e]) == Rans(log)
  {
    assert (log + [e])[..|log|] == log;
  }

  /** Nothing runs while held, unless a full queue forces the release. */
  lemma HeldIsFrozen(pt: PulseTimes, w: World, e: Event)
    requires w.sim.Blocked() && !(e.Submit? && |w.sim.cmds| >= MAX_CMDS)
    ensures Rans(Step(pt, w, e).log) == Rans(w.log) && Step(pt, w, e).sim.dev == w.sim.dev
  {
    match e
    case Take(_) =>
      if w.sim.results != [] {
        RansNote(w.log, Took(w.sim.results[0]));
      }
    case ReleaseHold(now) => RansNote(w.log, Rebased(now));
    case ToggleInit(_) => RansNote(w.log, Reset);
    case _ =>
  }

  // ---------------------------------------------------------------------------------------
  // Polling is unobservable

  /** Run the first `k` commands whatever the clock says. */
  function Ahead(pt: PulseTimes, w: World, k: nat): World
    requires k <= |w.sim.cmds|
    decreases k
  {
    if k == 0 then w else Ahead(pt, Head(pt, w), k - 1)
  }

  /** How many commands an advance to `now` runs. */
  function DueCount(pt: PulseTimes, w: World, now: int): (k: nat)
    ensures k <= |w.sim.cmds|
    decreases |w.sim.cmds|
  {
    if w.sim.Blocked() || !Due(w.sim, now) then 0 else 1 + DueCount(pt, Head(pt, w), now)
  }

  lemma {:induction false} DueMonotone(pt: PulseTimes, w: World, t1: int, t2: int)
    requires t1 <= t2
    ensures DueCount(pt, w, t1) <= DueCount(pt, w, t2)
    decreases |w.sim.cmds|
  {
    if !w.sim.Blocked() && Due(w.sim, t1) {
      DueMonotone(pt, Head(pt, w), t1, t2);
    }
  }

  /** Having run some of the commands that are due does not change where an advance ends. */
  lemma {:induction false} AdvanceFromAhead(pt: PulseTimes, w: World, k: nat, now: int)
    requires k <= DueCount(pt, w, now)
    ensures Advance(pt, Ahead(pt, w, k), now) == Advance(pt, w, now)
    decreases k
  {
    if k > 0 {
      AdvanceFromAhead(pt, Head(pt, w), k - 1, now);
    }
  }

  lemma {:induction false} AdvanceIsAhead(pt: PulseTimes, w: World, now: int)
    ensures Advance(pt, w, now) == Ahead(pt, w, DueCount(pt, w, now))
    decreases |w.sim.cmds|
  {
    if !w.sim.Blocked() && Due(w.sim, now) {
      AdvanceIsAhead(pt, Head(pt, w), now);
    }
  }

  /** A new command at the tail does not disturb the ones before it. */
  lemma {:induction false} AheadEnqueue(pt: PulseTimes, w: World, k: nat, c: Cmd, now: int)
    requires k <= |w.sim.cmds|
    ensures Ahead(pt, Enqueue(w, c), k) == Enqueue(Ahead(pt, w, k), c)
    ensures DueCount(pt, w, now) <= DueCount(pt, Enqueue(w, c), now)
    decreases |w.sim.cmds|
  {
    if w.sim.cmds != [] {
      assert Head(pt, Enqueue(w, c)) == Enqueue(Head(pt, w), c);
      AheadEnqueue(pt, Head(pt, w), if k == 0 then 0 else k - 1, c, now);
    }
  }

  /** With the release forced, the hold flag plays no part. */
  lemma {:induction false} AheadHold(pt: PulseTimes, w: World, k: nat, h: bool, now: int)
    requires k <= |w.sim.cmds| && w.sim.forceRelease
    ensures var held := w.(sim := w.sim.(hold := h));
            && Ahead(pt, held, k) == Ahead(pt, w, k).(sim := Ahead(pt, w, k).sim.(hold := h))
            && DueCount(pt, held, now) == DueCount(pt, w, now)
    decreases |w.sim.cmds|
  {
    if w.sim.cmds != [] {
      AheadHold(pt, Head(pt, w), if k == 0 then 0 else k - 1, h, now);
    }
  }

  lemma {:induction false} AheadShape(pt: PulseTimes, w: World, k: nat)
    requires k <= |w.sim.cmds|
    ensures var a := Ahead(pt, w, k);
            && |a.sim.cmds| == |w.sim.cmds| - k
            && a.sim.hold == w.sim.hold && a.sim.forceRelease == w.sim.forceRelease
    decreases k
  {
    if k > 0 {
      AheadShape(pt, Head(pt, w), k - 1);
    }
  }

  function ErasePolls(es: seq<Event>): seq<Event> {
    if es == [] then []
    else if es[0].Poll? then ErasePolls(es[1..])
    else [es[0]] + ErasePolls(es[1..])
  }

  /** A command that finds the queue full, neither held nor released yet, forces the release. */
  predicate Forces(w: World, e: Event) {
    e.Submit? && |w.sim.cmds| >= MAX_CMDS && !w.sim.forceRelease && !w.sim.hold
  }

  /** An initialisation that fails for the commands in the queue, all of which could have run. */
  predicate Blocks(pt: PulseTimes, w: World, e: Event) {
    e.ToggleInit? && w.sim.cmds != [] && Advance(pt, w, e.now).sim.cmds == []
  }

  /** No command forces the release of a free-running queue, and no initialisation comes too early. */
  ghost predicate Unforced(pt: PulseTimes, w: World, es: seq<Event>)
    decreases |es|
  {
    es == [] || (!Blocks(pt, w, es[0]) && !Forces(w, es[0]) && Unforced(pt, Step(pt, w, es[0]), es[1..]))
  }

  /** The flag that is read without the lock is right. */
  predicate Flagged(w: World) {
    w.sim.cmdsEmpty <==> w.sim.cmds == []
  }

  lemma {:induction false} AdvanceFlagged(pt: PulseTimes, w: World, now: int)
    requires Flagged(w)
    ensures Flagged(Advance(pt, w, now))
    decreases |w.sim.cmds|
  {
    if !w.sim.Blocked() && Due(w.sim, now) {
      AdvanceFlagged(pt, Head(pt, w), now);
    }
  }

  lemma StepFlagged(pt: PulseTimes, w: World, e: Event)
    requires Flagged(w)
    ensures Flagged(Step(pt, w, e))
  {
    if e.Poll? || e.Take? || e.SetHold? {
      AdvanceFlagged(pt, w, e.now);
    }
  }

  lemma {:induction false} AheadFlagged(pt: PulseTimes, w: World, k: nat)
    requires Flagged(w) && k <= |w.sim.cmds|
    ensures Flagged(Ahead(pt, w, k))
    decreases k
  {
    if k > 0 {
      AheadFlagged(pt, Head(pt, w), k - 1);
    }
  }

  /** The last clock reading that a call acts on. */
  function Until(e: Event): int {
    if e.Submit? then e.wake else e.now
  }

  /** Clock readings from `t` on that never decrease and end by `last`. */
  predicate Ordered(t: int, es: seq<Event>, last: int)
    decreases |es|
  {
    if es == [] then t <= last
    else t <= es[0].now <= Until(es[0]) && Ordered(Until(es[0]), es[1..], last)
  }

  /** Two runs that are `k` and `i` commands ahead of `w` submit the same command. */
  lemma SubmitKeepsPace(pt: PulseTimes, w: World, i: nat, k: nat, e: Event) returns (w': World, i': nat, k': nat)
    requires e.Submit? && e.now <= e.wake
    requires i <= DueCount(pt, w, e.now) && k <= DueCount(pt, w, e.now)
    requires !w.sim.forceRelease ==> i <= k
    requires !Forces(Ahead(pt, w, i), e)
    requires Flagged(w)
    ensures i' <= DueCount(pt, w', e.wake) && k' <= DueCount(pt, w', e.wake)
    ensures !w'.sim.forceRelease ==> i' <= k'
    ensures Flagged(w') && (k' < i' ==> i' < |w'.sim.cmds|)
    ensures Step(pt, Ahead(pt, w, i), e) == Ahead(pt, w', i')
    ensures Step(pt, Ahead(pt, w, k), e) == Ahead(pt, w', k')
  {
    AheadShape(pt, w, i);
    AheadShape(pt, w, k);
    var (lazy, eager) := (Ahead(pt, w, i), Ahead(pt, w, k));
    StepFlagged(pt, w, e);
    if w.sim.Blocked() {
      w', i', k' := Step(pt, w, e), 0, 0;
    } else {
      var n := DueCount(pt, w, e.wake);
      DueMonotone(pt, w, e.now, e.wake);
      AdvanceFromAhead(pt, w, i, e.wake);
      AdvanceFromAhead(pt, w, k, e.wake);
      AdvanceIsAhead(pt, w, e.wake);
      AheadEnqueue(pt, w, i, e.cmd, e.wake);
      AheadEnqueue(pt, w, k, e.cmd, e.wake);
      AheadEnqueue(pt, w, n, e.cmd, e.wake);
      w' := Enqueue(w, e.cmd);
      i' := if |lazy.sim.cmds| < MAX_CMDS then i else n;
      k' := if |eager.sim.cmds| < MAX_CMDS then k else n;
    }
  }

  /** Two runs that differ in how far they have got, one of them polled, meet in the end. */
  lemma {:induction false} RunsMeet(pt: PulseTimes, w: World, i: nat, k: nat, t: int, es: seq<Event>, last: int)
    requires i <= DueCount(pt, w, t) && k <= DueCount(pt, w, t)
    requires (!w.sim.forceRelease ==> i <= k) && Flagged(w) && (k < i ==> i < |w.sim.cmds|)
    requires Ordered(t, es, last) && Unforced(pt, Ahead(pt, w, i), ErasePolls(es))
    ensures Advance(pt, Steps(pt, Ahead(pt, w, k), es), last)
         == Advance(pt, Steps(pt, Ahead(pt, w, i), ErasePolls(es)), last)
    decreases |es|, 0
  {
    AheadShape(pt, w, i);
    AheadShape(pt, w, k);
    if es == [] {
      DueMonotone(pt, w, t, last);
      AdvanceFromAhead(pt, w, i, last);
      AdvanceFromAhead(pt, w, k, last);
      return;
    }
    var (e, rest) := (es[0], es[1..]);
    DueMonotone(pt, w, t, e.now);
    AdvanceFromAhead(pt, w, i, e.now);
    AdvanceFromAhead(pt, w, k, e.now);
    if !e.Poll? {
      assert ErasePolls(es)[0] == e && ErasePolls(es)[1..] == ErasePolls(rest);
    }
    var lazy := Step(pt, Ahead(pt, w, i), e);
    AheadFlagged(pt, w, i);
    StepFlagged(pt, Ahead(pt, w, i), e);
    match e
    case Poll(now) =>
      AdvanceIsAhead(pt, w, now);
      RunsMeet(pt, w, i, DueCount(pt, w, now), now, rest, last);
    case Submit(_, _, _) =>
      var w', i', k' := SubmitKeepsPace(pt, w, i, k, e);
      RunsMeet(pt, w', i', k', e.wake, rest, last);
    case Take(now) =>
      RunsMeet(pt, lazy, 0, 0, now, rest, last);
    case SetHold(now) =>
      HoldMeets(pt, w, i, k, e, lazy, rest, last);
    case ReleaseHold(now) =>
      HoldMeets(pt, w, i, k, e, lazy, rest, last);
    case ToggleInit(now) =>
      InitKeepsPace(pt, w, i, k, now);
      if i == |w.sim.cmds| {
        RunsMeet(pt, lazy, 0, 0, now, rest, last);
      } else {
        RunsMeet(pt, w, i, k, now, rest, last);
      }
  }

  /** Both runs succeed with an initialisation, from the same state, or neither does. */
  lemma InitKeepsPace(pt: PulseTimes, w: World, i: nat, k: nat, now: int)
    requires i <= DueCount(pt, w, now) && k <= DueCount(pt, w, now)
    requires Flagged(w) && (k < i ==> i < |w.sim.cmds|) && !Blocks(pt, Ahead(pt, w, i), ToggleInit(now))
    ensures if i == |w.sim.cmds| then k == i
            else Step(pt, Ahead(pt, w, i), ToggleInit(now)) == Ahead(pt, w, i)
                 && Step(pt, Ahead(pt, w, k), ToggleInit(now)) == Ahead(pt, w, k)
  {
    AheadShape(pt, w, i);
    AheadShape(pt, w, k);
    AheadFlagged(pt, w, i);
    AheadFlagged(pt, w, k);
    AdvanceFromAhead(pt, w, i, now);
    AdvanceIsAhead(pt, w, now);
    AheadShape(pt, w, DueCount(pt, w, now));
  }

  /** Hold changes; the rest of the run is shorter. */
  lemma {:induction false} HoldMeets(pt: PulseTimes, w: World, i: nat, k: nat, e: Event, lazy: World,
                                     rest: seq<Event>, last: int)
    requires e.SetHold? || e.ReleaseHold?
    requires i <= DueCount(pt, w, e.now) && k <= DueCount(pt, w, e.now)
    requires (!w.sim.forceRelease ==> i <= k) && Flagged(w) && (k < i ==> i < |w.sim.cmds|)
    requires lazy == Step(pt, Ahead(pt, w, i), e) && Flagged(lazy)
    requires Ordered(e.now, rest, last) && Unforced(pt, lazy, ErasePolls(rest))
    ensures Advance(pt, Steps(pt, Step(pt, Ahead(pt, w, k), e), rest), last)
         == Advance(pt, Steps(pt, lazy, ErasePolls(rest)), last)
    decreases |rest|, 1
  {
    AheadShape(pt, w, i);
    AheadShape(pt, w, k);
    var h := e.SetHold?;
    if w.sim.hold == h {
      RunsMeet(pt, w, i, k, e.now, rest, last);
    } else if w.sim.forceRelease {
      AheadHold(pt, w, i, h, e.now);
      AheadHold(pt, w, k, h, e.now);
      RunsMeet(pt, w.(sim := w.sim.(hold := h)), i, k, e.now, rest, last);
    } else {
      AdvanceFromAhead(pt, w, i, e.now);
      AdvanceFromAhead(pt, w, k, e.now);
      RunsMeet(pt, lazy, 0, 0, e.now, rest, last);
    }
  }

  /** Main result: however often the simulator is polled, after any run of submissions, reads, hold
      changes and initialisations it ends up in the same state, with the same results handed out. */
  lemma PollingIsUnobservable(pt: PulseTimes, w: World, t: int, es: seq<Event>, last: int)
    requires Ordered(t, es, last) && Flagged(w) && Unforced(pt, w, ErasePolls(es))
    ensures Advance(pt, Steps(pt, w, es), last) == Advance(pt, Steps(pt, w, ErasePolls(es)), last)
  {
    RunsMeet(pt, w, 0, 0, t, es, last);
  }

  lemma StepsTwo(pt: PulseTimes, w: World, a: Event, b: Event)
    ensures Steps(pt, w, [a, b]) == Step(pt, Step(pt, w, a), b)
  {
    var w' := Step(pt, w, a);
    assert [a, b][1..] == [b] && [b][1..] == [];
    assert Steps(pt, w', [b]) == Steps(pt, Step(pt, w', b), []);
  }

  /** The condition on commands is needed for every such command: because the full queue forces a
      release that a poll just before avoids, a later hold blocks only if there was that poll. */
  lemma ForcedReleaseShowsPolls(pt: PulseTimes, w: World, e: Event, now: int, later: int)
    requires Forces(w, e) && |w.sim.cmds| <= MAX_CMDS && w.sim.release <= now
    ensures Steps(pt, w, [Poll(now), e, SetHold(later)]).sim.Blocked()
    ensures !Steps(pt, w, [e, SetHold(later)]).sim.Blocked() && Steps(pt, w, [e, SetHold(later)]).sim.hold
  {
    var polled, held := Advance(pt, w, now), SetHold(later);
    DrainMakesRoom(pt, w.sim, now);
    OnlyRemoves(pt, w.sim, now);
    OnlyRemoves(pt, ForceRelease(w.sim, e.now), e.wake);
    OnlyRemoves(pt, Step(pt, polled, e).sim, later);
    assert [Poll(now), e, held][1..] == [e, held];
    StepsTwo(pt, polled, e, held);
    StepsTwo(pt, w, e, held);
  }

  /** The condition on initialisations is needed as well: one that fails for commands in the queue
      succeeds after a poll that runs them, and clears the timing verdict. */
  lemma EarlyInitShowsPolls(pt: PulseTimes, w: World, now: int)
    requires Flagged(w) && Blocks(pt, w, ToggleInit(now))
    ensures Steps(pt, w, [ToggleInit(now)]) == w
    ensures var polled := Advance(pt, w, now);
            Steps(pt, w, [Poll(now), ToggleInit(now)]) ==
            polled.(sim := polled.sim.(forceRelease := false, timingOk := true, timingCheck := false)).Note(Reset)
  {
    AdvanceFlagged(pt, w, now);
    assert [ToggleInit(now)][1..] == [];
    StepsTwo(pt, w, Poll(now), ToggleInit(now));
  }
}
