/** The backend worker as a state machine (lib/controller.cpp): single commands, DDS checks, whole
    sequence runs and the loop around them, and what holds of every run of it. */
module WorkLoop {
  import opened Pulses
  import opened Backend
  import opened Timeline
  import opened Service
  import opened SeqEffects
  import C = Commands

  /** The controller's state, the device once it has run everything sent, what was sent, and the
      command queue. */
  datatype Base = Base(ctl: Ctl, dev: Device, out: seq<Pulse>, inbox: Inbox)

  function Sent(b: Base, e: Effect): Base {
    Base(e.ctl, Run(b.dev, e.pulses), b.out + e.pulses, b.inbox)
  }

  /** Complete the waiting read or start the next command. */
  function Pumped(pt: PulseTimes, b: Base, answer: Option<Word>): Base {
    var cmd := b.inbox.Next();
    var b' := if cmd.Some? then Sent(b, RunCmd(pt, b.ctl, cmd.value)) else b;
    b'.(inbox := b.inbox.Pump(answer))
  }

  function Checked(b: Base, chn: Channel): Base {
    Sent(b, CheckDds(b.ctl, chn))
  }

  /** Check the channels below `n` that exist; forget resets of the others if `forget`. */
  function CheckUpTo(b: Base, existing: set<Channel>, n: nat, forget: bool): Base
    requires n <= NUM_DDS
  {
    if n == 0 then b
    else
      var b' := CheckUpTo(b, existing, n - 1, forget);
      if n - 1 in existing then Checked(b', n - 1)
      else if forget then b'.(ctl := b'.ctl.(pendingReset := b'.ctl.pendingReset[n - 1 := false]))
      else b'
  }

  predicate AnyReset(c: Ctl) {
    exists chn: Channel :: c.pendingReset[chn]
  }

  function Detected(b: Base, existing: set<Channel>, due: bool): Base {
    if due || AnyReset(b.ctl) then CheckUpTo(b, existing, NUM_DDS, true) else b
  }

  /** Take over the outputs of a pulser that has finished. */
  function Synced(b: Base): Base {
    b.(ctl := b.ctl.(ttl := b.dev.ttl))
  }

  predicate Differs(b: Base) {
    b.ctl.ttl != b.dev.ttl
  }

  /** The part of a round that handles commands. */
  function CommandRound(pt: PulseTimes, b: Base, existing: set<Channel>, due: bool, finished: bool,
                        answer: Option<Word>): Base {
    var b1 := if finished then Synced(b) else b;
    var b2 := if b1.inbox.waiting then b1 else Detected(b1, existing, due);
    var b3 := Pumped(pt, b2, answer);
    if b3.inbox.waiting then b3 else Detected(b3, existing, due)
  }

  // ---------------------------------------------------------------------------------------
  // A sequence run

  function FirstAnswer(answers: seq<Option<Word>>): Option<Word> {
    if answers == [] then None else if answers[0].Some? then answers[0] else FirstAnswer(answers[1..])
  }

  lemma {:induction false} FirstAnswerAt(answers: seq<Option<Word>>, n: nat)
    requires n <= |answers| && forall j :: 0 <= j < n ==> answers[j].None?
    ensures n == |answers| ==> FirstAnswer(answers) == None
    ensures n < |answers| && answers[n].Some? ==> FirstAnswer(answers) == answers[n]
    decreases n
  {
    if n > 0 {
      FirstAnswerAt(answers[1..], n - 1);
    }
  }

  /** Before a sequence the waiting read is completed with the first answer. */
  function Settled(i: Inbox, answers: seq<Option<Word>>): Inbox {
    if i.waiting then i.Pump(FirstAnswer(answers)) else i
  }

  /** The pulser is asked once more after that, and finds nothing waiting. */
  ghost predicate Ready(i: Inbox, answers: seq<Option<Word>>) {
    if i.waiting then exists j :: 0 <= j < |answers| - 1 && answers[j].Some? else answers != []
  }

  /** The requests that arrive are ones that the frontend sends. */
  predicate Plausible(turns: seq<Turn>) {
    forall i, j :: 0 <= i < |turns| && 0 <= j < |turns[i].arrived| ==> turns[i].arrived[j].Legal()
  }

  /** A sequence request. */
  datatype SeqReq = SeqReq(mask: seq<Bits>, plays: seq<Play>, lenNs: nat, isCmd: bool) {
    predicate Valid() {
      |mask| == NUM_TTL_BANKS && forall i :: 0 <= i < |plays| ==> Plausible(plays[i].turns)
    }
  }

  /** What the outside world does around a sequence: results that are still to come, the clock, and
      requests during the waits at its end. */
  datatype SeqWorld = SeqWorld(answers: seq<Option<Word>>, now: nat, coarseRes: nat, flushing: seq<Turn>,
                               ending: seq<Turn>, resting: seq<Turn>, existing: set<Channel>) {
    predicate Valid() {
      Plausible(flushing) && Plausible(ending) && Plausible(resting)
    }
  }

  /** How far to stay ahead of the clock. */
  function LeadOf(coarseRes: nat): nat {
    if coarseRes * 20 < 500_000_000 then 500_000_000 else coarseRes * 20
  }

  /** The runner as it is made for a sequence. */
  function Opened(b: Base, mask: seq<Bits>, lenNs: nat, now: nat): Flow
    requires |mask| == NUM_TTL_BANKS
  {
    Flow(Track(Begin(b.ctl, b.dev, mask), b.out, 0, []), now, false, lenNs > 1_000_000_000, b.inbox)
  }

  function BaseOf(f: Flow): Base {
    Base(f.track.live.ctl, f.track.live.dev, f.track.out, f.inbox)
  }

  /** After the last pulse, requests are served without counting their time. */
  function TailTurn(pt: PulseTimes, f: Flow, turn: Turn): Flow {
    var i := f.inbox.Arrive(turn.arrived);
    var cmd := i.Next();
    var s := f.track;
    f.(inbox := i.Pump(turn.answer),
       track := if cmd.None? then s
                else s.(live := Do(pt, s.live, Command(cmd.value)), out := s.out + RunCmd(pt, s.live.ctl, cmd.value).pulses,
                        beats := s.beats + [Serve(cmd.value)]))
  }

  function TailAll(pt: PulseTimes, f: Flow, turns: seq<Turn>): Flow {
    if turns == [] then f else TailTurn(pt, TailAll(pt, f, turns[..|turns| - 1]), turns[|turns| - 1])
  }

  /** What is played at the end of a sequence: a short wait, and for an experiment a clock setting. */
  function FlushPlays(pt: PulseTimes, isCmd: bool, w: SeqWorld): seq<Play> {
    [Play(OpWait(pt.min), w.flushing, 0)] + if isCmd then [] else [Play(OpClock(9), [], 0)]
  }

  /** For an experiment, another wait and clock setting. */
  function RestPlays(w: SeqWorld): seq<Play> {
    [Play(OpWait(1_000_000), w.resting, 0), Play(OpClock(255), [], 0)]
  }

  /** Errors are cleared and the channels checked, unless a read is waiting. */
  function Wound(b: Base, existing: set<Channel>): Base {
    var b' := Sent(b, Effect(b.ctl, [ClearErr]));
    if b'.inbox.waiting then b' else CheckUpTo(b', existing, NUM_DDS, false)
  }

  datatype Ending = Ending(base: Base, done: bool)

  function Rested(k: Plan, f: Flow, isCmd: bool, w: SeqWorld): Ending {
    if isCmd then Ending(BaseOf(f), true)
    else
      var o := Played(k, f.(processCmd := true), RestPlays(w));
      Ending(BaseOf(o.flow), o.done)
  }

  function Finished(k: Plan, f: Flow, isCmd: bool, w: SeqWorld): Ending {
    var o := Played(k, f, FlushPlays(k.pt, isCmd, w));
    if !o.done then Ending(BaseOf(o.flow), false)
    else
      var e := Rested(k, TailAll(k.pt, o.flow, w.ending), isCmd, w);
      if e.done then Ending(Wound(e.base, w.existing), true) else e
  }

  /** A sequence that was played: from where, and what came of it. */
  datatype Show = Show(plan: Plan, start: Flow, plays: seq<Play>, outcome: Outcome)

  datatype SeqRun = SeqRun(base: Base, mismatch: bool, done: bool, show: Option<Show>)

  ghost function RunOf(pt: PulseTimes, b: Base, r: SeqReq, w: SeqWorld): SeqRun
    requires r.Valid()
  {
    var b0 := b.(inbox := Settled(b.inbox, w.answers));
    if !Ready(b.inbox, w.answers) then SeqRun(b0, false, false, None)
    else
      var k, f := Plan(pt, LeadOf(w.coarseRes)), Opened(Synced(b0), r.mask, r.lenNs, w.now);
      var o := Played(k, f, r.plays);
      var e := if o.done then Finished(k, o.flow, r.isCmd, w) else Ending(BaseOf(o.flow), false);
      SeqRun(e.base, Differs(b0), e.done, Some(Show(k, f, r.plays, o)))
  }

  // ---------------------------------------------------------------------------------------
  // The worker

  datatype Job = Job(cancelled: bool, req: SeqReq, world: SeqWorld)

  /** One round of the worker's loop. */
  datatype Round = Round(job: Option<Job>, arrived: seq<ReqCmd>, existing: set<Channel>, due: bool,
                         finished: bool, answer: Option<Word>) {
    predicate Valid() {
      && (job.Some? ==> job.value.req.Valid() && job.value.world.Valid())
      && forall i :: 0 <= i < |arrived| ==> arrived[i].Legal()
    }
  }

  /** What a worker has come to; it stops at a sequence that runs out of turns. */
  datatype Work = Work(base: Base, mismatch: bool, done: bool, shows: seq<Show>)

  ghost function JobDone(pt: PulseTimes, b: Base, job: Option<Job>): SeqRun
    requires job.Some? ==> job.value.req.Valid()
  {
    if job.Some? && !job.value.cancelled then RunOf(pt, b, job.value.req, job.value.world)
    else SeqRun(b, false, true, None)
  }

  ghost function RoundDone(pt: PulseTimes, w: Work, r: Round): Work
    requires r.Valid()
  {
    var b := w.base.(inbox := w.base.inbox.Arrive(r.arrived));
    var s := JobDone(pt, b, r.job);
    var shows := w.shows + if s.show.Some? then [s.show.value] else [];
    if !s.done then Work(s.base, w.mismatch || s.mismatch, false, shows)
    else
      Work(CommandRound(pt, s.base, r.existing, r.due, r.finished, r.answer),
           w.mismatch || s.mismatch || (r.finished && Differs(s.base)), true, shows)
  }

  ghost function WorkOf(pt: PulseTimes, b: Base, rounds: seq<Round>): Work
    requires forall i :: 0 <= i < |rounds| ==> rounds[i].Valid()
  {
    if rounds == [] then Work(b, false, true, [])
    else
      var w := WorkOf(pt, b, rounds[..|rounds| - 1]);
      if w.done then RoundDone(pt, w, rounds[|rounds| - 1]) else w
  }

  lemma {:induction false} WorkStops(pt: PulseTimes, b: Base, rounds: seq<Round>, i: nat)
    requires i <= |rounds| && forall j :: 0 <= j < |rounds| ==> rounds[j].Valid()
    requires i == |rounds| || !WorkOf(pt, b, rounds[..i]).done
    ensures WorkOf(pt, b, rounds) == WorkOf(pt, b, rounds[..i])
    decreases |rounds|
  {
    if i == |rounds| {
      assert rounds[..i] == rounds;
    } else {
      var rounds' := rounds[..|rounds| - 1];
      assert rounds'[..i] == rounds[..i];
      WorkStops(pt, b, rounds', i);
    }
  }

  // ---------------------------------------------------------------------------------------
  // Shadows and overrides stay in step with the device

  ghost predicate InStep(b: Base) {
    InSync(b.ctl, b.dev)
  }

  lemma PumpInStep(pt: PulseTimes, b: Base, answer: Option<Word>)
    requires InStep(b)
    ensures InStep(Pumped(pt, b, answer))
  {
    if b.inbox.Next().Some? {
      RunCmdSyncs(pt, b.ctl, b.dev, b.inbox.Next().value);
    }
  }

  lemma {:induction false} ChecksInStep(b: Base, existing: set<Channel>, n: nat, forget: bool)
    requires n <= NUM_DDS && InStep(b)
    ensures InStep(CheckUpTo(b, existing, n, forget))
  {
    if n > 0 {
      var b', b'' := CheckUpTo(b, existing, n - 1, forget), CheckUpTo(b, existing, n, forget);
      ChecksInStep(b, existing, n - 1, forget);
      if n - 1 in existing {
        CheckDdsSyncs(b'.ctl, b'.dev, n - 1);
      } else {
        forall k: Channel ensures InSyncAt(b''.ctl, b''.dev, k) {
          assert InSyncAt(b'.ctl, b'.dev, k);
        }
      }
    }
  }

  lemma RoundInStep(pt: PulseTimes, b: Base, existing: set<Channel>, due: bool, finished: bool, answer: Option<Word>)
    requires InStep(b)
    ensures InStep(CommandRound(pt, b, existing, due, finished, answer)) && !Differs(b) && Synced(b) == b
  {
    ChecksInStep(b, existing, NUM_DDS, true);
    var b2 := if b.inbox.waiting then b else Detected(b, existing, due);
    PumpInStep(pt, b2, answer);
    ChecksInStep(Pumped(pt, b2, answer), existing, NUM_DDS, true);
  }

  lemma {:induction false} TailInStep(pt: PulseTimes, f: Flow, turns: seq<Turn>)
    requires InStep(BaseOf(f))
    ensures InStep(BaseOf(TailAll(pt, f, turns)))
    decreases |turns|
  {
    if turns != [] {
      TailInStep(pt, f, turns[..|turns| - 1]);
      var f', turn := TailAll(pt, f, turns[..|turns| - 1]), turns[|turns| - 1];
      var cmd := f'.inbox.Arrive(turn.arrived).Next();
      if cmd.Some? {
        RunCmdSyncs(pt, f'.track.live.ctl, f'.track.live.dev, cmd.value);
      }
    }
  }

  lemma PlayedInStep(k: Plan, f: Flow, ps: seq<Play>)
    requires InStep(BaseOf(f))
    ensures InStep(BaseOf(Played(k, f, ps).flow))
  {
    var bs := SequenceEffects(k, f, ps);
  }

  lemma FinishedInStep(k: Plan, f: Flow, isCmd: bool, w: SeqWorld)
    requires InStep(BaseOf(f))
    ensures InStep(Finished(k, f, isCmd, w).base)
  {
    var o := Played(k, f, FlushPlays(k.pt, isCmd, w));
    PlayedInStep(k, f, FlushPlays(k.pt, isCmd, w));
    var f' := TailAll(k.pt, o.flow, w.ending);
    TailInStep(k.pt, o.flow, w.ending);
    PlayedInStep(k, f'.(processCmd := true), RestPlays(w));
    WoundInStep(Rested(k, f', isCmd, w).base, w.existing);
  }

  lemma WoundInStep(b: Base, existing: set<Channel>)
    ensures InStep(b) ==> InStep(Wound(b, existing))
  {
    if InStep(b) {
      RunOne(b.dev, ClearErr);
      ChecksInStep(Sent(b, Effect(b.ctl, [ClearErr])), existing, NUM_DDS, false);
    }
  }

  lemma RunInStep(pt: PulseTimes, b: Base, r: SeqReq, w: SeqWorld)
    requires r.Valid() && InStep(b)
    ensures InStep(RunOf(pt, b, r, w).base) && !RunOf(pt, b, r, w).mismatch
  {
    var b0 := b.(inbox := Settled(b.inbox, w.answers));
    var k, f := Plan(pt, LeadOf(w.coarseRes)), Opened(Synced(b0), r.mask, r.lenNs, w.now);
    assert Synced(b0) == b0;
    PlayedInStep(k, f, r.plays);
    FinishedInStep(k, Played(k, f, r.plays).flow, r.isCmd, w);
  }

  /** Main result: over every run of the worker, with sequences run or cancelled and commands in
      between, shadows and overrides stay in step with the device, and no comparison of the TTL
      outputs with those of a finished pulser ever finds a mismatch. */
  lemma {:induction false} WorkInStep(pt: PulseTimes, b: Base, rounds: seq<Round>)
    requires InStep(b) && forall i :: 0 <= i < |rounds| ==> rounds[i].Valid()
    ensures InStep(WorkOf(pt, b, rounds).base) && !WorkOf(pt, b, rounds).mismatch
    decreases |rounds|
  {
    if rounds != [] {
      var w, r := WorkOf(pt, b, rounds[..|rounds| - 1]), rounds[|rounds| - 1];
      WorkInStep(pt, b, rounds[..|rounds| - 1]);
      if w.done {
        WorkRoundInStep(pt, w, r);
      }
    }
  }

  lemma WorkRoundInStep(pt: PulseTimes, w: Work, r: Round)
    requires InStep(w.base) && !w.mismatch && r.Valid()
    ensures InStep(RoundDone(pt, w, r).base) && !RoundDone(pt, w, r).mismatch
  {
    var b := w.base.(inbox := w.base.inbox.Arrive(r.arrived));
    if r.job.Some? && !r.job.value.cancelled {
      RunInStep(pt, b, r.job.value.req, r.job.value.world);
    }
    RoundInStep(pt, JobDone(pt, b, r.job).base, r.existing, r.due, r.finished, r.answer);
  }

  // ---------------------------------------------------------------------------------------
  // Commands are run once each and in order

  /** The commands started, and then those pending, are all that came in, and only a read waits. */
  ghost predicate InOrder(i: Inbox) {
    Sound(i) && (i.waiting ==> i.queue[i.filter].Reads()) && i.started + i.Pending() == i.came
  }

  lemma ArriveInOrder(i: Inbox, cmds: seq<ReqCmd>)
    requires InOrder(i)
    ensures InOrder(i.Arrive(cmds))
  {
    ArriveAdds(i, cmds);
    SeqAssoc(i.started, i.Pending(), cmds);
  }

  lemma PumpInOrder(i: Inbox, answer: Option<Word>)
    requires InOrder(i)
    ensures InOrder(i.Pump(answer))
  {
    PumpTakes(i, answer);
    var cmd := i.Next();
    if cmd.Some? {
      SeqAssoc(i.started, [cmd.value], i.Pump(answer).Pending());
    } else {
      assert [] + i.Pump(answer).Pending() == i.Pump(answer).Pending();
    }
  }

  lemma TurnInOrder(k: Plan, f: Flow, left: Time, turn: Turn)
    requires InOrder(f.inbox)
    ensures InOrder(TurnOf(k, f, left, turn).flow.inbox)
  {
    ArriveInOrder(f.inbox, turn.arrived);
    PumpInOrder(f.inbox.Arrive(turn.arrived), turn.answer);
  }

  lemma {:induction false} TurnsInOrder(k: Plan, f: Flow, wait: Time, turns: seq<Turn>)
    requires InOrder(f.inbox)
    ensures InOrder(WaitTurns(k, f, wait, turns).flow.inbox)
    decreases |turns|
  {
    if turns != [] {
      TurnsInOrder(k, f, wait, turns[..|turns| - 1]);
      var o := WaitTurns(k, f, wait, turns[..|turns| - 1]);
      TurnInOrder(k, o.flow, o.left, turns[|turns| - 1]);
    }
  }

  lemma {:induction false} PlayedInOrder(k: Plan, f: Flow, ps: seq<Play>)
    requires InOrder(f.inbox)
    ensures InOrder(Played(k, f, ps).flow.inbox)
    decreases |ps|
  {
    if ps != [] {
      PlayedInOrder(k, f, ps[..|ps| - 1]);
      var o, p := Played(k, f, ps[..|ps| - 1]), ps[|ps| - 1];
      var rest := Remains(k.pt, o.flow.track.live.ctl, p.op);
      if rest.Some? {
        TurnsInOrder(k, Started(k, o.flow, p), rest.value, p.turns);
      }
    }
  }

  lemma {:induction false} TailInOrder(pt: PulseTimes, f: Flow, turns: seq<Turn>)
    requires InOrder(f.inbox)
    ensures InOrder(TailAll(pt, f, turns).inbox)
    decreases |turns|
  {
    if turns != [] {
      TailInOrder(pt, f, turns[..|turns| - 1]);
      var i, turn := TailAll(pt, f, turns[..|turns| - 1]).inbox, turns[|turns| - 1];
      ArriveInOrder(i, turn.arrived);
      PumpInOrder(i.Arrive(turn.arrived), turn.answer);
    }
  }

  lemma {:induction false} ChecksKeepInbox(b: Base, existing: set<Channel>, n: nat, forget: bool)
    requires n <= NUM_DDS
    ensures CheckUpTo(b, existing, n, forget).inbox == b.inbox
  {
    if n > 0 {
      ChecksKeepInbox(b, existing, n - 1, forget);
    }
  }

  lemma FinishedInOrder(k: Plan, f: Flow, isCmd: bool, w: SeqWorld)
    requires InOrder(f.inbox)
    ensures InOrder(Finished(k, f, isCmd, w).base.inbox)
  {
    var o := Played(k, f, FlushPlays(k.pt, isCmd, w));
    PlayedInOrder(k, f, FlushPlays(k.pt, isCmd, w));
    var f' := TailAll(k.pt, o.flow, w.ending);
    TailInOrder(k.pt, o.flow, w.ending);
    PlayedInOrder(k, f'.(processCmd := true), RestPlays(w));
    var b := Rested(k, f', isCmd, w).base;
    ChecksKeepInbox(Sent(b, Effect(b.ctl, [ClearErr])), w.existing, NUM_DDS, false);
  }

  lemma RunInOrder(pt: PulseTimes, b: Base, r: SeqReq, w: SeqWorld)
    requires r.Valid() && InOrder(b.inbox)
    ensures InOrder(RunOf(pt, b, r, w).base.inbox)
  {
    PumpInOrder(b.inbox, FirstAnswer(w.answers));
    var b0 := b.(inbox := Settled(b.inbox, w.answers));
    var k, f := Plan(pt, LeadOf(w.coarseRes)), Opened(Synced(b0), r.mask, r.lenNs, w.now);
    PlayedInOrder(k, f, r.plays);
    FinishedInOrder(k, Played(k, f, r.plays).flow, r.isCmd, w);
  }

  lemma CommandRoundInOrder(pt: PulseTimes, b: Base, existing: set<Channel>, due: bool, finished: bool,
                            answer: Option<Word>)
    requires InOrder(b.inbox)
    ensures InOrder(CommandRound(pt, b, existing, due, finished, answer).inbox)
  {
    var b1 := if finished then Synced(b) else b;
    ChecksKeepInbox(b1, existing, NUM_DDS, true);
    var b2 := if b1.inbox.waiting then b1 else Detected(b1, existing, due);
    PumpInOrder(b2.inbox, answer);
    ChecksKeepInbox(Pumped(pt, b2, answer), existing, NUM_DDS, true);
  }

  lemma WorkRoundInOrder(pt: PulseTimes, w: Work, r: Round)
    requires InOrder(w.base.inbox) && r.Valid()
    ensures InOrder(RoundDone(pt, w, r).base.inbox)
  {
    var b := w.base.(inbox := w.base.inbox.Arrive(r.arrived));
    ArriveInOrder(w.base.inbox, r.arrived);
    if r.job.Some? && !r.job.value.cancelled {
      RunInOrder(pt, b, r.job.value.req, r.job.value.world);
    }
    CommandRoundInOrder(pt, JobDone(pt, b, r.job).base, r.existing, r.due, r.finished, r.answer);
  }

  /** Main result: over every run of the worker, the commands started are a first part of all that
      came in, in order and once each, and the rest is pending. */
  lemma {:induction false} WorkInOrder(pt: PulseTimes, b: Base, rounds: seq<Round>)
    requires InOrder(b.inbox) && forall i :: 0 <= i < |rounds| ==> rounds[i].Valid()
    ensures InOrder(WorkOf(pt, b, rounds).base.inbox)
    decreases |rounds|
  {
    if rounds != [] {
      var w, r := WorkOf(pt, b, rounds[..|rounds| - 1]), rounds[|rounds| - 1];
      WorkInOrder(pt, b, rounds[..|rounds| - 1]);
      if w.done {
        WorkRoundInOrder(pt, w, r);
      }
    }
  }

  // ---------------------------------------------------------------------------------------
  // Every sequence is played from its start

  ghost predicate Proper(s: Show) {
    s.outcome == Played(s.plan, s.start, s.plays) && s.start.track.t == 0 && s.start.track.beats == []
  }

  /** The sequences that a run of the worker has to play. */
  function Requested(rounds: seq<Round>): seq<seq<Play>> {
    if rounds == [] then [] else Requested(rounds[..|rounds| - 1]) + JobPlays(rounds[|rounds| - 1].job)
  }

  /** The sequences played. */
  function Plays(shows: seq<Show>): seq<seq<Play>> {
    seq(|shows|, i requires 0 <= i < |shows| => shows[i].plays)
  }

  /** Main result: the sequences that a run of the worker plays are those requested and not cancelled,
      in order, up to where it stops; each is played from time 0, so that Timeline.TimelineHolds
      applies to it. */
  lemma {:induction false} WorkPlays(pt: PulseTimes, b: Base, rounds: seq<Round>)
    requires forall i :: 0 <= i < |rounds| ==> rounds[i].Valid()
    ensures var w := WorkOf(pt, b, rounds);
            && (forall j :: 0 <= j < |w.shows| ==> Proper(w.shows[j]))
            && (if w.done then Plays(w.shows) == Requested(rounds) else Plays(w.shows) <= Requested(rounds))
    decreases |rounds|
  {
    if rounds != [] {
      var w, r := WorkOf(pt, b, rounds[..|rounds| - 1]), rounds[|rounds| - 1];
      WorkPlays(pt, b, rounds[..|rounds| - 1]);
      if w.done {
        RoundPlays(pt, w, r);
      }
    }
  }

  /** The sequence of a job, if it is to be played. */
  function JobPlays(job: Option<Job>): seq<seq<Play>> {
    if job.Some? && !job.value.cancelled then [job.value.req.plays] else []
  }

  lemma JobShows(pt: PulseTimes, b: Base, job: Option<Job>)
    requires job.Some? ==> job.value.req.Valid()
    ensures var s := JobDone(pt, b, job);
            && (s.show.Some? ==> Proper(s.show.value) && JobPlays(job) == [s.show.value.plays])
            && (s.show.None? && s.done ==> JobPlays(job) == [])
  {
  }

  lemma RoundPlays(pt: PulseTimes, w: Work, r: Round)
    requires r.Valid() && forall j :: 0 <= j < |w.shows| ==> Proper(w.shows[j])
    ensures var w' := RoundDone(pt, w, r);
            && (forall j :: 0 <= j < |w'.shows| ==> Proper(w'.shows[j]))
            && (if w'.done then Plays(w'.shows) == Plays(w.shows) + JobPlays(r.job)
                else Plays(w'.shows) <= Plays(w.shows) + JobPlays(r.job))
  {
    var b := w.base.(inbox := w.base.inbox.Arrive(r.arrived));
    var s := JobDone(pt, b, r.job);
    JobShows(pt, b, r.job);
    if s.show.Some? {
      assert Plays(w.shows + [s.show.value]) == Plays(w.shows) + [s.show.value.plays];
    } else {
      assert w.shows + [] == w.shows && Plays(w.shows) + [] == Plays(w.shows);
    }
  }

  // ---------------------------------------------------------------------------------------
  // Checks carry out resets

  /** A channel after the checks: reset if that was pending, and otherwise as before. */
  ghost predicate CheckedAt(b: Base, b': Base, existing: set<Channel>, chn: Channel, forget: bool) {
    if chn in existing && b.ctl.pendingReset[chn] then
      && b'.ctl.ovr[chn] == NO_OVERRIDES && b'.ctl.phase[chn] == 0 && !b'.ctl.pendingReset[chn]
      && b'.dev.dds[chn] == ZERO_REGS
    else
      && b'.ctl.ovr[chn] == b.ctl.ovr[chn] && b'.ctl.phase[chn] == b.ctl.phase[chn]
      && b'.dev.dds[chn] == b.dev.dds[chn]
      && b'.ctl.pendingReset[chn] == (b.ctl.pendingReset[chn] && !forget)
  }

  ghost predicate SameAt(b: Base, b': Base, chn: Channel) {
    && b'.ctl.ovr[chn] == b.ctl.ovr[chn] && b'.ctl.phase[chn] == b.ctl.phase[chn]
    && b'.dev.dds[chn] == b.dev.dds[chn] && b'.ctl.pendingReset[chn] == b.ctl.pendingReset[chn]
  }

  lemma CheckedOne(b: Base, chn: Channel, k: Channel)
    ensures var b' := Checked(b, chn);
            && b'.ctl.ttl == b.ctl.ttl && b'.dev.ttl == b.dev.ttl && b'.dev.clock == b.dev.clock
            && (if k == chn then CheckedAt(b, b', {chn}, k, true) else SameAt(b, b', k))
  {
    RunOne(b.dev, DDSReset(chn));
  }

  /** Checking all channels carries out exactly the pending resets of those that exist: overrides,
      phase and registers together. Of the others it forgets the reset, or leaves it pending, and
      nothing else changes. */
  lemma {:induction false} ChecksReset(b: Base, existing: set<Channel>, n: nat, forget: bool, chn: Channel)
    requires n <= NUM_DDS
    ensures var b' := CheckUpTo(b, existing, n, forget);
            && b'.ctl.ttl == b.ctl.ttl && b'.dev.ttl == b.dev.ttl && b'.dev.clock == b.dev.clock
            && (if chn < n then CheckedAt(b, b', existing, chn, forget) else SameAt(b, b', chn))
  {
    if n > 0 {
      ChecksReset(b, existing, n - 1, forget, chn);
      if n - 1 in existing {
        CheckedOne(CheckUpTo(b, existing, n - 1, forget), n - 1, chn);
      }
    }
  }

  // ---------------------------------------------------------------------------------------
  // The same queue, seen from the frontend

  /** The backend's part of the state in which the two threads are modelled. */
  ghost predicate Matches(b: Base, s: C.Sys) {
    && b.ctl == s.ctl && b.dev == s.dev
    && b.inbox.queue == s.queue && b.inbox.filter == s.filter && b.inbox.waiting == s.waiting
  }

  /** Pumping the queue is a step of that model: it completes the waiting read, with the result of its
      own pulse, or starts the next command. */
  lemma PumpIsStep(pt: PulseTimes, b: Base, s: C.Sys, answer: Option<Word>)
    requires C.QueueInv(s) && Matches(b, s) && (s.waiting && answer.Some? ==> answer == Some(s.results[0]))
    ensures Matches(Pumped(pt, b, answer), C.Step(pt, s, if s.waiting then C.Complete(answer.Some?) else C.Start))
  {
  }
}
