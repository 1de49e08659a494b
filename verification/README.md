# Molecube2 controller: a verified model

Molecube2 drives an FPGA pulse sequencer with two threads. The frontend (the ZMQ server's thread)
queues timed sequences and stand-alone commands; the backend (the controller's worker) streams the
pulses of a sequence in real time and slips commands into its long waits. This project models that
machinery in Dafny and proves what it promises over all runs: who is called back and when, when every
instruction of a sequence starts, how the copies of the device state stay related, and that the
hardware simulator means what a plain interpreter means.

Each part has a state machine (a datatype, a step function, and lemmas about all runs of steps) and,
where the code updates things in place, a class whose methods are proved against that machine.

| file | part |
|---|---|
| `Pulses.dfy` | instructions, their durations and their effect on the device |
| `Simulator.dfy`, `DummyPulser.dfy` | the lazy hardware simulator: state machine and theorems; the class |
| `Laws.dfy` | what registers hold and reads return, and when commands run, over runs of the simulator |
| `Backend.dfy` | what commands and sequence instructions do to shadows, overrides and device |
| `Timeline.dfy` | the sequence runner as a state machine: wait splitting, what is sent, and when |
| `Service.dfy`, `SeqEffects.dfy`, `Room.dfy` | commands served in waits; what a sequence leaves behind; when a wait wraps around |
| `Instructions.dfy` | what single instructions and waits send, pulse by pulse |
| `WorkLoop.dfy` | the worker's loop as a state machine: commands, checks and sequence runs |
| `WorkLaws.dfy`, `EndLaws.dfy` | what its rounds, sequences and their ends do to pulses, registers and outputs |
| `RunnerSteps.dfy`, `Controller.dfy` | the controller, the runner and the worker's loop as classes |
| `Commands.dfy`, `Requests.dfy` | the command queue and the frontend cache; what single requests do, end to end |
| `Agreement.dfy`, `CachedValues.dfy` | the cache's agreement with the backend: overrides on or off, and their values |
| `Sequences.dfy` | the life of a sequence request under every interleaving of the threads |
| `WaitDesk.dfy`, `Server.dfy` | the server's bookkeeping of `wait_seq` clients: theorems; the class |
| `CmdCache.dfy`, `CtrlIface.dfy` | the frontend's cache and queues as classes |
| `StateId.dfy`, `TtlOverride.dfy`, `Names.dfy` | the state id, TTL override masks, the channel-name messages |

Things outside the program are parameters: clock readings, which requests have arrived, the pulser's
answers, which DDS channels exist, and the steps of the other thread. The instruction times of the
hardware are a parameter `pt`, so every result holds for all of them. The filter queue is a sequence
with an index: push at the end, take at the index, advance the index, pop only before the index. A
word of TTL outputs is the set of its 1 bits. A TTL bank or a DDS channel is in range wherever the code
asserts that it is.

## Where the code departs from its intent

The model follows the code; each of these has a lemma.

- `ttl1` cuts the channel to 5 bits before dividing, so it only ever writes bank 0
  (lib/controller.cpp:127-128): `Backend.SingleChannelBank`.
- The lead of a late sequence is a negative difference in 64-bit unsigned arithmetic
  (lib/controller.cpp:230), so it is huge: a long wait that finds the sequence late is played to its end
  at once, without serving another command, unless wait or delay is about 300 years
  (`Room.BehindEndsWait`).
- A command that takes longer than what is left of a wait makes the remainder wrap around
  (lib/controller.cpp:263-266). `Room.TurnWraps` says exactly when a turn does that, and `Room.WrapsIff` when a
  wait ahead of the clock does; `Room.WaitCanWrap` gives, for a wait of any length, a run from the start of a
  sequence in which it does; `Room.RoomyNeverWraps` and `Room.RoomySequenceOnTime` give a condition on what is
  queued and arrives that rules it out. Each wrap adds exactly 2^64 steps.
- A phase override of 0xffff cannot be cleared (lib/controller.cpp:606-612): `Backend.ClearTurnsOff`
  and `Agreement.PhaseClearIsLost` say that this is the only case.
- The result of a read replaces the value of an override that was set after the read was sent
  (lib/ctrl_iface.cpp:42-47): `CachedValues.LateReadReplacesOverride`. It never switches the override on, and
  off only if the register reads all ones, which the conditions of `Agreement.CacheKnowsOverrides` exclude.
  Without such a race the cached value is right (`CachedValues.CacheKnowsValues`).
- A reset takes effect at the next DDS check (lib/controller.cpp:410-423, 630-636). Until then the cache has the
  channel's overrides off and the backend may have them on (`Agreement.CacheKnowsOverrides`), and an override set
  in that time is on in the cache only (`Agreement.ResetDropsLaterOverride`).
- A full simulator queue moves the release time even when it is not held (lib/dummy_pulser.cpp:95-99), so
  that a poll just before can be seen: `Simulator.ForcedReleaseShowsPolls`.
- An initialisation fails if the queue is not empty, without running what is due first
  (lib/dummy_pulser.cpp:128-135), so that a poll just before can be seen: `Simulator.EarlyInitShowsPolls`.
- With no unfinished sequence, waiting for an id that was never issued succeeds
  (lib/server.cpp:629-632): `WaitDesk.ToldAtOnce`.
- A name in a channel above 255, or with a NUL inside, does not survive printing and parsing
  (lib/server.cpp:497-501): `Names.RoundTrip`.

## Model

| member | source | states |
|---|---|---|
| `WaitDesk.EveryWaitAnswered` | lib/server.cpp:346-393 | Over every interleaving of client requests and thread steps: each `wait_seq` request is answered at most once, and exactly once when its sequence is finalised, or flushed if that is what it waits for; one that had to wait gets 1 only if its sequence was cancelled on request, 0 only if it ended, or was flushed and that is what it waits for; the status entries are the unfinalised ids without a gap; a flush always finds its entry. |
| `WaitDesk.AskMarks` | lib/server.cpp:624-641 | A request waits for the flush exactly if it had to wait and asked for that. |
| `WaitDesk.ToldAtOnce` | lib/server.cpp:618-645 | In every reachable state: a request is refused exactly if malformed or, with some sequence unfinalised, above all ids issued; it is told 0 at once exactly if nothing is unfinalised, or its sequence comes before all that are, or it waits for the flush of one that is flushed; it waits only for an issued, unfinalised sequence. |
| `WaitDesk.RunKeeps` | lib/server.cpp:411-413 | Every run keeps the link between the status entries and the queue: ids from the first unfinalised one to the last one issued, with the flushed mark only on the first. |
| `WaitDesk.DueKeeps` | lib/server.cpp:346-393 | Running all callbacks that are due to a sequence answers exactly the waiters that each callback concerns and leaves the balance of requests and answers intact. |
| `WaitDesk.FreeKeeps` | lib/server.cpp:377-386 | The destructor's `finalize(true)` of a sequence already finalised answers nobody. |
| `Server.Server.FindSeqStatus` | lib/server.cpp:447-455 | The loop finds the first entry with the id, or none. |
| `Server.Server.Flushed` | lib/server.cpp:346-358 | Marks the entry and answers 0 to exactly those who wait for the flush. |
| `Server.Server.Finalize` | lib/server.cpp:381-393 | Answers everyone not answered yet, and drops the entry. |
| `Server.Server.WaitSeq` | lib/server.cpp:618-645 | Every branch of the request, including the refusals. |
| `Server.Server.Receive` | lib/server.cpp:335-397 | Each callback changes the bookkeeping as the state machine says. |
| `Server.Server.ProcessRunSeq` | lib/server.cpp:411-413 | A new sequence is queued and gets its entry: one move of the model in which every wait is answered. |
| `Server.Server.Collect` | lib/server.cpp:243-244 | Collecting finished sequences, with arbitrary backend steps in between, and receiving their callbacks is a run of that model; all that had finished are freed. |
| `Sequences.CallbacksInOrder` | lib/ctrl_iface.cpp:306-338 | In every run the callbacks are, sequence after sequence, start, flushed, end or else one cancel, then free; no callback on a freed sequence; cancelled only if asked; asked before the worker picks it, it never starts. |
| `Sequences.CancelReaches` | lib/ctrl_iface.cpp:148-158 | A request to cancel flags exactly the queued sequence with that id, or all. |
| `Sequences.StoresInOrder` | lib/controller.cpp:714-755 | A sequence that is picked is stored as started, flushed and ended in turn, or as cancelled exactly if it was flagged, and then passed back. |
| `Sequences.StepsKeep` | lib/controller.cpp:714-791 | The invariant behind it: ids are consecutive, states follow the place in the queue, only the first sequence has had callbacks, and the frontend holds on to a live sequence. |
| `Sequences.NoticesComplete` | lib/ctrl_iface.cpp:309-323 | The callbacks due complete those already made to those of the current state. |
| `CtrlIface.SeqQueue.RunCode` | lib/ctrl_iface.cpp:129-146 | A new sequence gets the next id and the end of the queue. |
| `CtrlIface.SeqQueue.CancelSeq` | lib/ctrl_iface.cpp:148-158 | Flags exactly the queued sequences that match, and says whether there was one. |
| `CtrlIface.SeqQueue.BackendStep` | lib/controller.cpp:714-755 | The worker's steps on a sequence: pick, store the next state, pass back. |
| `CtrlIface.SeqQueue.RunCallbacks` | lib/ctrl_iface.cpp:309-323 | Calls exactly what is due, in order. |
| `CtrlIface.SeqQueue.RunFrontend` | lib/ctrl_iface.cpp:306-338 | With arbitrary backend steps between its own, collecting is a run of the step system, starting with the look at the current sequence; it never touches a freed sequence, all that had finished when it began have had their callbacks and are freed, and it ends with the frontend free. |
| `Timeline.TimelineHolds` | lib/controller.cpp:125-268 | For any instructions, overrides, clock readings and injected commands: the instructions are played once each, in order, and all of them if it gets to the end; what is sent is each instruction's own pulse followed by waits and command pulses only; if no wait wraps around, each instruction starts exactly as long after the last trigger as those before it take by themselves, and the final time is that of the whole sequence; the runner's time and the device are what the pulses sent make them. |
| `Timeline.WaitBalances` | lib/controller.cpp:192-268 | A wait takes exactly as long as asked, plus 2^64 for each wrap, and sends commands and waits only. |
| `Timeline.OwnTime` | lib/controller.cpp:131-191 | What an instruction sends itself and what it then waits add up to its time, overridden or not. |
| `Instructions.PulsesSent` | lib/controller.cpp:181-191 | DAC, clock and trigger instructions send exactly their own pulse with their own arguments; a trigger restarts time and start time. |
| `Instructions.TtlSent` | lib/controller.cpp:125-144 | A TTL write starts with one pulse, of its time up to 1000 steps and else of 100, with the outputs asked for and those kept; a single-channel write asks for its channel's level and the others as they are. |
| `Instructions.DdsSent` | lib/controller.cpp:145-180 | A DDS write is its own pulse if the register is not overridden, and else only a wait of its time. |
| `Instructions.PlainWait` | lib/controller.cpp:210-221 | A wait of a short sequence, and one below 2000 steps, sends only waits and serves nobody. |
| `Instructions.ShortSequence` | lib/controller.cpp:210-214 | A short sequence is played to its end and serves no command. |
| `Instructions.AheadEnds` | lib/controller.cpp:229-237 | A turn that is behind ends the wait exactly if no more than 3000 steps would be left. |
| `Instructions.LeadWraps` | lib/controller.cpp:230 | The lead is 2^64 less the delay, in steps. |
| `Timeline.ClockIsTrue` | lib/controller.cpp:125-268 | `m_t` is the time of the pulses sent since the last trigger, and the device is where they leave it. |
| `Controller.Runner.PlayAll` | lib/controller.cpp:125-268 | The loop over the instructions does exactly what the state machine of those results does, and says whether it got to the end. |
| `Controller.Runner.PlayOne` | lib/controller.cpp:125-268 | Each kind of instruction is played as specified: its own pulse, then its wait. |
| `Controller.Runner.Wait` | lib/controller.cpp:192-268 | Plain, short and long waits, each exactly as specified, to the end or until there are no more turns. |
| `Controller.Runner.TakeTurn` | lib/controller.cpp:215-267 | One turn of the loop: play ahead, or release the hold once and serve a request, with wrapping subtraction. |
| `Service.TurnActs` | lib/controller.cpp:215-267 | Behind the clock a turn serves nobody; otherwise the hold is released, the next command is served if no read is waiting, and a waiting read completes exactly if there is an answer. |
| `Service.TurnsFifo` | lib/controller.cpp:215-267 | Over a whole wait, the commands served and those still pending are the ones pending before followed by those that came in, in order. |
| `Room.ReleaseFits` | lib/controller.cpp:239-253 | While the hold is not released at least 2000 steps are left, so the assertion holds and the release cannot wrap around. |
| `Room.TurnWraps` | lib/controller.cpp:253-266 | A turn of a long wait wraps around exactly if the sequence is ahead of the clock and the next command takes longer than what is left after the release. |
| `Room.RoomyNeverWraps` | lib/controller.cpp:215-267 | A wait does not wrap around if all commands pending or arriving, with the release, fit it, provided that wait and delay are below 300 years or that they fit 3001 steps as well. |
| `Room.RoomySequenceOnTime` | lib/controller.cpp:125-268 | A whole sequence is on time if each of its long waits has that room, whatever the overrides and the clock. |
| `Room.WrapsIff` | lib/controller.cpp:253-266 | Ahead of the clock, whatever is served and arrives, a wait does not wrap around exactly if the times that the commands it served took, and the release, fit it. |
| `Room.WaitCanWrap` | lib/controller.cpp:263-266 | For every wait of at least 2000 steps there is a run from the start of a sequence, as the runner's constructor leaves it and with a clock that stands still, in which the wait wraps around: a first wait is played ahead, and then more TTL commands are queued than the wait has steps. |
| `Room.BehindEndsWait` | lib/controller.cpp:226-236 | A turn that finds the sequence behind plays the whole rest of the wait, unless wait or delay is about 300 years. |
| `Controller.Runner.OutputWait` | lib/controller.cpp:195-209 | The loop sends exactly the pieces of the wait. |
| `Timeline.PiecesFit` | lib/controller.cpp:195-209 | For every wait the pieces sum to it, each is at most 2^24-1, and there is one piece or none is below 101. |
| `Controller.Runner.Ttl` | lib/controller.cpp:131-144 | A TTL write, short or with its wait, keeping the outputs not in the sequence's mask. |
| `Controller.Runner.Dds` | lib/controller.cpp:145-180 | A DDS write is sent, or waited for when overridden. |
| `Controller.Runner.SendPulse` | lib/controller.cpp:181-191 | DAC, clock and trigger pulses; a trigger restarts the time and the clock reading. |
| `Controller.Runner.constructor` | lib/controller.cpp:115-124 | The runner starts at time 0 and keeps exactly the outputs that are high and outside its mask. |
| `SeqEffects.SequenceEffects` | lib/controller.cpp:125-268 | After any sequence and the commands that ran with it, shadows and overrides match the device, and if it writes inside its mask the other outputs are as the served set commands alone leave them. |
| `Controller.Controller.RunCommand` | lib/controller.cpp:500-644 | Each command, with the three encodings of an override, does what the specification says, and reports exactly the time of the pulses sent. |
| `Controller.Controller.OverrideFreq` | lib/controller.cpp:521-543 | Override of a frequency, encoded by all ones for off. |
| `Controller.Controller.OverrideAmp` | lib/controller.cpp:552-581 | Override of an amplitude, kept in 12 bits. |
| `Controller.Controller.OverridePhase` | lib/controller.cpp:590-620 | Override of a phase, with its shadow. |
| `Controller.Controller.TryGetResult` | lib/controller.cpp:646-662 | Only a waiting read takes a result, and completes with it. |
| `Controller.Controller.ProcessReqCmd` | lib/controller.cpp:664-692 | Completes the waiting read or starts the next command, in queue order. |
| `Controller.Controller.CheckDds` | lib/controller.cpp:409-423 | A pending reset drops overrides, phase shadow and device state together. |
| `Controller.Controller.DetectDds` | lib/controller.cpp:443-475 | When due or a reset is pending, exactly the checks of the existing channels, in order; otherwise nothing. |
| `WorkLoop.ChecksReset` | lib/controller.cpp:409-475 | The checks carry out exactly the pending resets of channels that exist, overrides, phase and registers together; of the others they forget the reset, or after a sequence leave it, and nothing else changes. |
| `WorkLaws.RoundResets` | lib/controller.cpp:443-475 | If no read waits, a round sends the pending reset of an existing channel and has it reset before it serves a command. |
| `WorkLaws.RoundLeavesNoReset` | lib/controller.cpp:792-802 | After a round that ends with no read waiting, no reset is pending. |
| `WorkLaws.QuietRound` | lib/controller.cpp:792-802 | With nothing pending a round sends its command's pulses, followed by the reset if the command is one. |
| `WorkLaws.RoundSyncs` | lib/controller.cpp:81-94 | A round of a finished pulser starts from its outputs, and a mismatch is reported exactly if one differs. |
| `WorkLaws.WorkLeavesNoReset` | lib/controller.cpp:780-803 | In every run of the worker, once a round has ended with no read waiting, no reset is pending. |
| `Controller.Controller.SyncTtl` | lib/controller.cpp:81-94 | Takes over the device's outputs and reports a mismatch exactly if there is one. |
| `Controller.Controller.WorkerTurn` | lib/controller.cpp:792-802 | The part of the loop that handles commands, exactly: comparison of the outputs, checks unless a read is waiting, one request, checks again. |
| `Controller.Controller.RunSeq` | lib/controller.cpp:694-778 | A whole sequence run, exactly: it starts exactly when no result is outstanding, plays the sequence from time 0, finishes it if it got to its end, and says how it was played. |
| `Controller.Controller.FinishSeq` | lib/controller.cpp:738-777 | The end of a sequence, exactly: short wait, clock setting, requests until the pulser has finished, wait and clock setting, clear, checks. |
| `Controller.Controller.Worker` | lib/controller.cpp:780-803 | The loop, exactly as specified, with the sequences played; it stays in step with the device, finds no mismatch, and starts commands in order. |
| `WorkLoop.WorkInStep` | lib/controller.cpp:780-803 | Over every run of the worker, with sequences run or cancelled and commands in between, shadows and overrides stay in step with the device and no TTL comparison ever finds a mismatch. |
| `WorkLoop.WorkInOrder` | lib/controller.cpp:646-692 | Over every run of the worker, the commands started are a first part of all that came in, in order and once each, and the rest is pending. |
| `WorkLoop.WorkPlays` | lib/controller.cpp:780-791 | The sequences played are those requested and not cancelled, in order, each from time 0. |
| `WorkLaws.RunStarts` | lib/controller.cpp:697-718 | How a sequence starts: no read waiting, time 0, the clock reading, commands served only if it is longer than 1s, the lead over the clock, the pulser's outputs, and those kept. |
| `WorkLaws.WorkLeavesOthers` | lib/controller.cpp:121-144 | In every run of the worker, a sequence that writes inside its mask leaves every other output, bit by bit, as the last set command naming it while it played, or as it was. |
| `WorkLaws.SettledCompletes` | lib/controller.cpp:697-705 | The read that waits when a sequence is to start is completed with the first answer. |
| `EndLaws.EndClocks` | lib/controller.cpp:744-761 | At the end of an experiment the clock is set to 9 and then 255, of a command list not at all, if no clock command was started. |
| `EndLaws.RestTakes` | lib/controller.cpp:757-761 | An experiment rests for 10ms before its last clock setting. |
| `EndLaws.RestServes` | lib/controller.cpp:756-761 | While it rests, commands are served, even after a short sequence. |
| `EndLaws.EndChecks` | lib/controller.cpp:763-777 | At the very end errors are cleared, and then, unless a read waits, pending resets of existing channels are sent and carried out. |
| `EndLaws.TailIsPump` | lib/controller.cpp:748-752 | Serving after the last pulse is serving as in a round, without counting time. |
| `EndLaws.LinkedPlays` | lib/controller.cpp:646-692 | The commands that a sequence serves are the ones started. |
| `WorkLoop.PumpIsStep` | lib/controller.cpp:664-692 | Serving a request is a step of the model with the frontend's cache: completing the waiting read with its own result, or starting the next command. |
| `Controller.Controller.BeforeSeq` | lib/controller.cpp:697-711 | A waiting read is completed with the first answer; the sequence may start exactly when the pulser is asked once more after that; then the outputs are compared. |
| `Controller.Controller.AfterSeq` | lib/controller.cpp:763-777 | Errors are cleared, and unless a read is waiting the existing channels are checked, exactly. |
| `Controller.Runner.ServeAll` | lib/controller.cpp:748-752 | Requests are served, one for each turn and in order, without counting their time. |
| `Backend.ShadowsAndOverridesHold` | lib/controller.cpp:521-629 | Over any mix of sequence pulses, plain and override sets, and resets: shadows equal the last value queued, and an active override is what the channel holds (amplitude in its low 12 bits). |
| `Backend.SetReaches` | lib/controller.cpp:521-629 | A set, plain or override, puts its value (an amplitude: its low 12 bits) into its own register and no other, turns the override on if it is one and leaves it as it was if not, and an override that is on is kept as that value. |
| `Backend.SeqReaches` | lib/controller.cpp:145-172 | A sequence writes a DDS register exactly if it is not overridden, and touches nothing else. |
| `Backend.TtlReaches` | lib/controller.cpp:505-520 | A TTL set moves exactly the outputs it names; a sequence write decides the outputs in its mask. |
| `Backend.SingleChannelWrite` | lib/controller.cpp:125-144 | A single-channel write inside the mask moves its own output and no other, in shadow and device. |
| `Backend.SetSends` | lib/controller.cpp:521-629 | A DDS set sends nothing if it clears an override or asks for the value that the override has, and otherwise its value. |
| `Backend.OthersReach` | lib/controller.cpp:586-640 | Clock commands set the low 8 bits, resets wait for the next check, and reads send a read of their own register. |
| `Backend.SyncFindsNothing` | lib/controller.cpp:81-94 | The TTL shadow equals the drained device after every run. |
| `Backend.ShiftsAddUp` | lib/controller.cpp:163-180 | Relative phase shifts add up modulo 2^16 across any interleaving. |
| `Backend.OnlySetCommandsOutside` | lib/controller.cpp:121-144 | For a sequence that writes inside its mask, the outputs outside it are those of the set commands alone, and a value set mid-sequence survives. |
| `Backend.WritePreserves` | lib/controller.cpp:131-144 | One write leaves the other outputs alone exactly if it adds none to those kept. |
| `Backend.SingleChannelBank` | lib/controller.cpp:125-130 | Single-channel writes act on the channel modulo 32 and never leave bank 0. |
| `Backend.ClearTurnsOff` | lib/controller.cpp:590-620 | Clearing an override works exactly unless it is a phase of 0xffff. |
| `Commands.QueueHolds` | lib/controller.cpp:646-692 | In every run each command runs once and in order, a result is outstanding exactly while a read waits, and a read returns what its own pulse read. |
| `Requests.TtlRequest` | lib/ctrl_iface.cpp:222-227 | From request to output: a TTL request moves exactly the outputs it names. |
| `Requests.DdsRequest` | lib/ctrl_iface.cpp:175-182 | A DDS request puts its value into its register and no other, turns on an override if it is for one, and is in the cache. |
| `Requests.ClockRequest` | lib/ctrl_iface.cpp:285-288 | A clock request sets the clock and is in the cache. |
| `Requests.ResetRequest` | lib/ctrl_iface.cpp:275-283 | A reset request, once the channel is checked, turns its overrides off on both sides and clears its registers. |
| `Requests.ReadRequest` | lib/ctrl_iface.cpp:184-197 | A read with no fresh value at hand is sent, and its callback is called once the result is back, with what the register held. |
| `Requests.ReadsThePulser` | lib/controller.cpp:521-629 | What is recorded for a read is what the pulser returns for the pulse sent. |
| `Requests.StaleAsks` | lib/ctrl_iface.cpp:51-72 | A value older than 0.1s is not used; the callback waits, and the first one asks. |
| `Commands.EveryCallbackOnce` | lib/ctrl_iface.cpp:28-72 | No callback is called twice, and when the queue is empty each has been called once. |
| `Commands.CallbacksHold` | lib/ctrl_iface.cpp:184-197 | A callback waits for its key exactly if it was not called, and whoever waits, a read of that key is still queued, so coalescing loses none; override reads never get to the backend. |
| `Commands.ReadsSeeSets` | lib/ctrl_iface.cpp:28-72 | A set is what every read of the same key gets for 0.1s, and of the override if that is on; all who waited have been called; other keys are untouched. |
| `CmdCache.CmdCache.Set` | lib/ctrl_iface.cpp:28-49 | The new value reaches everyone waiting for the key, and replaces the value of an override that is on. |
| `CmdCache.CmdCache.Get` | lib/ctrl_iface.cpp:51-72 | Fresh values and overrides are answered at once; otherwise the callback waits, and the first to wait asks the backend. |
| `CmdCache.CmdCache.HasDdsOvr` | lib/ctrl_iface.cpp:74-86 | True exactly if the cache has some override on. |
| `CmdCache.KeysDiffer` | lib/ctrl_iface.h:180-185 | Operation, override flag and operand are told apart by the key. |
| `Agreement.CacheKnowsOverrides` | lib/ctrl_iface.cpp:74-86 | For any run of sets, overrides, reads, resets and checks, with all ones only to clear an override, no clear of a phase override of 0xffff and no override turned on while a reset of its channel is pending: the cache has an override on exactly if it was asked for, and once the queue has drained and no reset is pending the backend has exactly the override asked for; while a reset is pending the cache has it off. |
| `Agreement.RunsAgree` | lib/ctrl_iface.cpp:175-182 | The same with commands still under way: the backend will be where the cache is. |
| `Agreement.PhaseClearIsLost` | lib/controller.cpp:606-612 | After any clean run, clearing a phase override leaves the backend on, and the cache off, exactly if the override asked for is 0xffff. |
| `CachedValues.CacheKnowsValues` | lib/ctrl_iface.cpp:28-49 | After any clean run in which no register is set while a read of it is in the queue, the cached value of an override is the one asked for, and the backend's once the queue has drained and no reset is pending. |
| `CachedValues.LateReadReplacesOverride` | lib/ctrl_iface.cpp:339-344 | From any state at rest, a set that races with a read leaves the cache with what was read: it agrees with the backend that the override is on exactly if that is not all ones, and on its value exactly if it is, as stored, what was set. |
| `Agreement.ResetDropsLaterOverride` | lib/controller.cpp:630-636 | After any clean run, an override that is set, run and followed by a check is still on exactly if no reset was waiting for that check; the cache has it on in any case. |
| `CtrlIface.CtrlIFace.SetDds` | lib/ctrl_iface.cpp:175-182 | A set is queued, remembered, and makes the state dirty. |
| `CtrlIface.CtrlIFace.GetDds` | lib/ctrl_iface.cpp:184-197 | A read is answered from the cache or queued, and marks the state observed. |
| `CtrlIface.CtrlIFace.ResetDds` | lib/ctrl_iface.cpp:275-283 | A reset is queued and marks the three overrides off in the cache. |
| `CtrlIface.CtrlIFace.PopCommands` | lib/ctrl_iface.cpp:339-344 | The loop takes back all finished commands, one pop of the state machine each, and leaves none. |
| `CtrlIface.CtrlIFace.ProcessSetDds` | lib/server.cpp:251-286 | A message is carried out completely and in order exactly if its length, all its channels and, for plain sets, all its values are right; otherwise nothing changes. The state becomes dirty exactly as by one change. |
| `CtrlIface.MessageRead` | lib/server.cpp:251-286 | Round trip: a message that encodes any number of parts is accepted exactly if it is for overrides or has no value of all ones, and stands for exactly its parts, in order. |
| `CtrlIface.ChannelsChecked` | lib/server.cpp:257-262 | A part for a channel from 22 on or for the unused register is refused. |
| `CtrlIface.AcceptedAreClean` | lib/server.cpp:251-286 | The server refuses the plain values that would break agreement between cache and backend. |
| `CtrlIface.CtrlIFace.GetStateId` | lib/ctrl_iface.cpp:362-384 | A query is a step of the state-id machine; the running bit says whether the first queued sequence is unfinished. |
| `CtrlIface.CtrlIFace.SetDirty` | lib/ctrl_iface.cpp:347-355 | A change is a step of that machine. |
| `StateId.SameIdMeansUnchanged` | lib/ctrl_iface.cpp:347-384 | If two queries return the same id with the running bit clear and something was read between them, nothing was changed from then to the second query. |
| `StateId.SameIdIff` | lib/ctrl_iface.cpp:347-384 | With no sequence around, the id stays exactly if nothing was changed after someone looked. |
| `StateId.Monotone` | lib/ctrl_iface.cpp:362-384 | The counter never goes down and grows by at most one for each query. |
| `TtlOverride.LastRequestDecides` | lib/controller.cpp:318-375 | The masks stay disjoint, the last request naming an output decides its state, and the reported output is 0, 1 or raw accordingly. |
| `TtlOverride.MessageDecides` | lib/server.cpp:694-697 | In a message with three masks, clearing beats high and high beats low. |
| `TtlOverride.LowWins` | lib/controller.cpp:347-375 | Whatever the masks, an output held low is reported low, and any other high if held or raw high. |
| `TtlOverride.TtlPort.ConcurrentSet` | lib/controller.cpp:318-345 | Changes the masks of one bank only; other types of request are left to the queue. |
| `TtlOverride.TtlPort.ConcurrentGet` | lib/controller.cpp:347-375 | The reported outputs or one of the masks. |
| `TtlOverride.TtlPort.OverrideTtl` | lib/server.cpp:671-699 | A message is its three requests in order, and the reply has the new masks. |
| `Simulator.SimulatorRefinesInterpreter` | lib/dummy_pulser.cpp:157-234 | After every run: executed commands are a prefix of those submitted; device and results (zeros past 4097 unread) are the fold over it; the queue has at most 4096 commands and its empty flag is right; timing is bad exactly if some command was stamped later than the end of the timing-checked command before it, with no clear or init since. |
| `Laws.ReadBack` | lib/dummy_pulser.cpp:186-234 | A read returns the value last written to its own register, however many other commands run in between, unless 4097 results are unread. |
| `Laws.ReadAfterReset` | lib/dummy_pulser.cpp:210-215 | After a reset, zero is read. |
| `Laws.ResultsOnlyOfReads` | lib/dummy_pulser.cpp:216-231 | What is looped back comes back, a read returns its register, and nothing else has a result. |
| `Laws.RegistersAfter` | lib/dummy_pulser.cpp:186-215 | One pulse changes one register, if any, and leaves all others alone. |
| `Laws.EndRecurrence` | lib/dummy_pulser.cpp:162-181 | A command that is on time starts when the one before it ends, a late one when it was stamped, and ends its own duration later. |
| `Laws.PulseTakes` | lib/dummy_pulser.cpp:186-234 | The time that each kind of instruction takes. |
| `Laws.ReleaseStarts` | lib/dummy_pulser.cpp:106-115 | What a held simulator has queued starts when the hold is released. |
| `Laws.QueueTakes` | lib/dummy_pulser.cpp:91-104 | The queue takes 4096 commands before any has to run. |
| `Simulator.HeldIsFrozen` | lib/dummy_pulser.cpp:117-126 | Nothing executes while held, unless a full queue forces the release. |
| `Simulator.PollingIsUnobservable` | lib/dummy_pulser.cpp:137-184 | Removing all polls from any run of submissions, reads, hold changes and initialisations changes neither device, results, release time nor timing flags, unless a command finds a full queue that is not held and forces its release, or an initialisation fails for commands that were all due. |
| `Simulator.ForcedReleaseShowsPolls` | lib/dummy_pulser.cpp:91-104 | For every such command a poll just before it shows: a later hold blocks only if there was that poll. |
| `Simulator.EarlyInitShowsPolls` | lib/dummy_pulser.cpp:128-135 | For every such initialisation a poll just before it shows: it succeeds, and clears the timing verdict, only then. |
| `Simulator.FaultyAppend` | lib/dummy_pulser.cpp:162-181 | How one more command, clear or init changes the timing verdict. |
| `Simulator.DrainMakesRoom` | lib/dummy_pulser.cpp:137-155 | Draining a full queue always makes room, in one pass. |
| `DummyPulser.DummyPulser.RunCmd` | lib/dummy_pulser.cpp:186-234 | Each instruction acts on device, results and timing flags as the machine says. |
| `DummyPulser.DummyPulser.RunPastCmds` | lib/dummy_pulser.cpp:157-184 | The loop runs exactly the commands that are due. |
| `DummyPulser.DummyPulser.ForwardTime` | lib/dummy_pulser.cpp:137-155 | Fails only when blocking on an empty or held queue, needs one pass, and reads the clock only if there is something to run. |
| `DummyPulser.DummyPulser.AddCmd` | lib/dummy_pulser.cpp:91-104 | Queues a command, first draining a full queue; only then does it wait for the release time. |
| `DummyPulser.DummyPulser.SetHold` | lib/dummy_pulser.cpp:117-126 | Runs what is due before holding. |
| `DummyPulser.DummyPulser.ReleaseHold` | lib/dummy_pulser.cpp:106-115 | Restarts the release time unless it was forced. |
| `DummyPulser.DummyPulser.ToggleInit` | lib/dummy_pulser.cpp:128-135 | Clears the flags, or fails with commands queued. |
| `DummyPulser.DummyPulser.TryGetResult` | lib/dummy_pulser.cpp:63-71 | Takes the first result that the clock allows for. |
| `DummyPulser.DummyPulser.IsTimingOk` | lib/dummy_pulser.h:93-104 | A reader polls first, except that a bad verdict is reported as it is. |
| `Names.RoundTrip` | lib/server.cpp:457-506 | Parsing the printed table into a blank one of its size restores it exactly if no name has a NUL and no channel above 255 has a name. |
| `Names.ParserSets` | lib/server.cpp:457-489 | Every byte string is a list of terminated entries and an incomplete rest; a channel is left alone or gets the name of such an entry for it, and `has_set` says whether an entry was in range. |
| `Names.ParseApplies` | lib/server.cpp:457-489 | Entries are applied in order, and the incomplete rest is ignored. |
| `Names.NamesConfig.ProcessSetNames` | lib/server.cpp:457-489 | The loop stays in bounds and ends; it parses as specified and bumps the name id exactly if something was set. |
| `Names.NamesConfig.ProcessGetNames` | lib/server.cpp:491-506 | The loop prints every name that is not empty. |

## Left out

- ZMQ sockets, polling and logging: replies and callbacks are recorded instead.
- YAML and startup files, directories and signals.
- lib/pulser.h and lib/pulser.cpp: register access, and how a time and a bank are packed into one word.
- The bytecode and command-list interpreters: a sequence is any list of runner calls. FilterQueue and
  SmallAllocator are not part of this model beyond the queue described above.
- Weak memory, event descriptors and condition variables: steps of the threads are atomic, and runs start
  after construction.
- Liveness under real time: sleeps are parameters, and a wait that never gets another turn is not excluded.
- Overflow of 64-bit ids, counters and clocks, except in the arithmetic of a wait, which wraps as in the source.
- The `checked` flag of pulses, DDS timing configuration, DMA buffers, and the existence flags of DDS channels
  beyond their role in a check.
- The hold, release and init calls that `run_seq` and the waits make on the pulser: the simulator has them, the
  runner only counts the release step.
- A reset of a channel without a DDS, which the next check forgets (lib/controller.cpp:452-456), in the cache's
  agreement with the backend.
- Re-initialisation that a DDS check starts by itself, without a reset request.
- lib/ctrl_iface.cpp's reads of the TTL outputs and of the clock as methods: both are answered at once and only
  repeat what the state machines say about them.
- Agreement.CacheKnowsOverrides: the clock is assumed to read more than 0.1s, as a system clock does; below that an
  untouched cache entry would pass for fresh.
- Timeline.TimelineHolds: the time since the last trigger is counted without a bound, where the source has 64 bits;
  an exception that ends a sequence early is a shorter sequence.
- CmdCache.CmdCache.Set: the cache is keyed by operation, operand and override flag; that the numbers the source packs
  them into tell them apart is CmdCache.KeysDiffer.
- Server.Server.WaitSeq: the text of the message is not modelled; an id of 0 stands for one that does not parse.
- StateId.SameIdMeansUnchanged: the id is the running bit and the counter as a pair, so a counter above 2^63 is not
  confused with the bit.
