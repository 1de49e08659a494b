/** What stand-alone commands and sequence instructions do to the controller's own state
    (lib/controller.cpp), and the relations between its copies of the device state.

    The controller keeps a shadow of the TTL outputs and DDS phases, and the DDS overrides.
    Every step below sends pulses to the device as well; `Live.dev` is the device once all
    pulses sent so far have run.
 */
module Backend {
  import opened Pulses

  /** A stand-alone request, as it travels through the command queue. */
  datatype ReqCmd =
    | TtlCmd(high: bool, bank: Bank, mask: Bits)
    | DdsCmd(p: Param, chn: Channel, hasRes: bool, isOverride: bool, val: Word)
    | ResetCmd(chn: Channel)
    | ClockCmd(div: nat)
  {
    /** Override reads are answered by the frontend and must not get here. */
    predicate Legal() {
      DdsCmd? && isOverride ==> !hasRes
    }

    predicate Reads() {
      DdsCmd? && hasRes
    }
  }

  /** The range of stored override values, given how each is encoded: all ones marks a
      frequency override as off, and an amplitude has 12 bits. */
  predicate Fits(p: Param, o: Option<nat>) {
    o.Some? ==> o.value < match p case Freq => ALL_ONES case Amp => 0x1000 case Phase => 0x1_0000
  }

  type Overrides = o: PerParam<Option<nat>> | Fits(Freq, o.freq) && Fits(Amp, o.amp) && Fits(Phase, o.phase)
    witness PerParam(None, None, None)

  const NO_OVERRIDES: Overrides := PerParam(None, None, None)

  datatype RawCtl = Ctl(ttl: seq<Bits>, ovr: seq<Overrides>, phase: seq<nat>, pendingReset: seq<bool>)

  predicate CtlShape(c: RawCtl) {
    |c.ttl| == NUM_TTL_BANKS && |c.ovr| == |c.phase| == |c.pendingReset| == NUM_DDS
  }

  type Ctl = c: RawCtl | CtlShape(c)
    witness Ctl(seq(NUM_TTL_BANKS, _ => {}), seq(NUM_DDS, _ => NO_OVERRIDES),
                seq(NUM_DDS, _ => 0), seq(NUM_DDS, _ => false))

  /** New controller state and the pulses sent. */
  datatype Effect = Effect(ctl: Ctl, pulses: seq<Pulse>)

  /** What is kept of an override value: amplitudes are cut to 12 bits. */
  function Stored(p: Param, v: Word): nat {
    if p == Amp then v % 0x1000 else Narrow(p, v)
  }

  /** Write a DDS value to the device, keeping the phase shadow. */
  function WriteDds(c: Ctl, p: Param, chn: Channel, v: Word): Effect {
    Effect(if p == Phase then c.(phase := c.phase[chn := Narrow(Phase, v)]) else c,
           [DDSSet(p, chn, Narrow(p, v))])
  }

  function SetOverride(c: Ctl, p: Param, chn: Channel, o: Option<nat>): Ctl
    requires Fits(p, o)
  {
    c.(ovr := c.ovr[chn := c.ovr[chn].Put(p, o)])
  }

  /** A set command. While the override is on, plain sets act on the override. */
  function SetDds(c: Ctl, p: Param, chn: Channel, isOverride: bool, val: Word): Effect {
    var o := c.ovr[chn].Get(p);
    if !isOverride && o.None? then WriteDds(c, p, chn, val)
    else if o.Some? && o.value == Narrow(p, val) then Effect(c, [])
    else if val == ALL_ONES then Effect(SetOverride(c, p, chn, None), [])
    else WriteDds(SetOverride(c, p, chn, Some(Stored(p, val))), p, chn, val)
  }

  function SetBits(v: Bits, high: bool, mask: Bits): Bits {
    if high then v + mask else v - mask
  }

  function RunCmd(pt: PulseTimes, c: Ctl, cmd: ReqCmd): Effect {
    match cmd
    case TtlCmd(high, bank, mask) =>
      var v := SetBits(c.ttl[bank], high, mask);
      Effect(c.(ttl := c.ttl[bank := v]), [TTL(v, pt.min, bank)])
    case DdsCmd(p, chn, hasRes, isOverride, val) =>
      if hasRes then Effect(c, [DDSGet(p, chn)]) else SetDds(c, p, chn, isOverride, val)
    case ResetCmd(chn) => Effect(c.(pendingReset := c.pendingReset[chn := true]), [])
    case ClockCmd(div) => Effect(c, [Clock(div % 256)])
  }

  /** Check a channel; a pending reset drops its overrides and reinitialises the device. */
  function CheckDds(c: Ctl, chn: Channel): Effect {
    if c.pendingReset[chn] then
      Effect(c.(ovr := c.ovr[chn := NO_OVERRIDES], phase := c.phase[chn := 0],
                pendingReset := c.pendingReset[chn := false]),
             [DDSReset(chn)])
    else Effect(c, [])
  }

  // ---------------------------------------------------------------------------------------
  // Runs of a sequence with commands in between

  datatype Action =
    | Command(cmd: ReqCmd)
    | Check(chn: Channel)
    | SeqTtl(bits: Bits, bank: Bank)
    | SeqTtl1(full: nat, high: bool)
    | SeqDds(p: Param, chn: Channel, word: Word)
    | SeqShift(chn: Channel, delta: Word)  // relative phase
    | SeqClock(div: nat)

  /** The controller with its device and, for the running sequence, the TTL bits it owns and
      the values that it must preserve elsewhere. */
  datatype RawLive = Live(ctl: Ctl, dev: Device, mask: seq<Bits>, preserve: seq<Bits>)

  type Live = s: RawLive | |s.mask| == |s.preserve| == NUM_TTL_BANKS
    witness Live(Ctl(seq(NUM_TTL_BANKS, _ => {}), seq(NUM_DDS, _ => NO_OVERRIDES),
                     seq(NUM_DDS, _ => 0), seq(NUM_DDS, _ => false)),
                 Device(seq(NUM_TTL_BANKS, _ => {}), 255, seq(NUM_DDS, _ => ZERO_REGS)),
                 seq(NUM_TTL_BANKS, _ => {}), seq(NUM_TTL_BANKS, _ => {}))

  function Outside(ttl: seq<Bits>, mask: seq<Bits>): seq<Bits>
    requires |ttl| == |mask|
  {
    seq(|ttl|, i requires 0 <= i < |ttl| => ttl[i] - mask[i])
  }

  /** The start of a sequence. */
  function Begin(c: Ctl, d: Device, mask: seq<Bits>): Live
    requires |mask| == NUM_TTL_BANKS
  {
    Live(c, d, mask, Outside(c.ttl, mask))
  }

  /** The channel is cut to 5 bits before its bank is taken from it. */
  function Ttl1Bank(full: nat): Bank {
    full % 32 / 32
  }

  function Ttl1Value(ttl: Bits, full: nat, high: bool): Bits {
    SetBits(ttl, high, {full % 32})
  }

  function Apply(s: Live, e: Effect): Live {
    s.(ctl := e.ctl, dev := Run(s.dev, e.pulses))
  }

  function WriteTtl(s: Live, v: Bits, bank: Bank): Live {
    var out := v + s.preserve[bank];
    Apply(s, Effect(s.ctl.(ttl := s.ctl.ttl[bank := out]), [TTL(out, 0, bank)]))
  }

  function Do(pt: PulseTimes, s: Live, e: Action): Live {
    match e
    case Command(cmd) =>
      var s' := Apply(s, RunCmd(pt, s.ctl, cmd));
      if cmd.TtlCmd? then s'.(preserve := s.preserve[cmd.bank := s'.ctl.ttl[cmd.bank] - s.mask[cmd.bank]])
      else s'
    case Check(chn) => Apply(s, CheckDds(s.ctl, chn))
    case SeqTtl(v, bank) => WriteTtl(s, v, bank)
    case SeqTtl1(full, high) =>
      var bank := Ttl1Bank(full);
      WriteTtl(s, Ttl1Value(s.ctl.ttl[bank], full, high), bank)
    case SeqDds(p, chn, v) =>
      if s.ctl.ovr[chn].Get(p).Some? then s else Apply(s, WriteDds(s.ctl, p, chn, v))
    case SeqShift(chn, delta) =>
      if s.ctl.ovr[chn].phase.Some? then s
      else Apply(s, WriteDds(s.ctl, Phase, chn, (s.ctl.phase[chn] + delta) % 0x1_0000))
    case SeqClock(div) => Apply(s, Effect(s.ctl, [Clock(div)]))
  }

  function DoAll(pt: PulseTimes, s: Live, es: seq<Action>): Live {
    if es == [] then s else Do(pt, DoAll(pt, s, es[..|es| - 1]), es[|es| - 1])
  }

  lemma DoNext(pt: PulseTimes, s: Live, es: seq<Action>, e: Action)
    ensures DoAll(pt, s, es + [e]) == Do(pt, DoAll(pt, s, es), e)
  {
    assert (es + [e])[..|es|] == es;
  }

  /** The register holds the override: exactly, or in its low 12 bits for an amplitude. */
  predicate Holds(p: Param, stored: nat, reg: nat) {
    stored == if p == Amp then reg % 0x1000 else reg
  }

  /** Shadows and overrides agree with the device on one channel. */
  predicate InSyncAt(c: Ctl, d: Device, chn: Channel) {
    && c.phase[chn] == d.dds[chn].phase < 0x1_0000
    && (c.ovr[chn].freq.Some? ==> Holds(Freq, c.ovr[chn].freq.value, d.dds[chn].freq))
    && (c.ovr[chn].amp.Some? ==> Holds(Amp, c.ovr[chn].amp.value, d.dds[chn].amp))
    && (c.ovr[chn].phase.Some? ==> Holds(Phase, c.ovr[chn].phase.value, d.dds[chn].phase))
  }

  ghost predicate InSync(c: Ctl, d: Device) {
    c.ttl == d.ttl && forall chn: Channel :: InSyncAt(c, d, chn)
  }

  lemma RunOne(d: Device, p: Pulse)
    ensures Run(d, [p]) == Exec(d, p)
  {
    assert [p][..0] == [];
  }

  /** A sequence write, as one pulse. */
  lemma DoTtl(pt: PulseTimes, s: Live, e: Action, bits: Bits, bank: Bank, time: nat)
    requires e == SeqTtl(bits, bank) || (e.SeqTtl1? && bank == Ttl1Bank(e.full) && bits == Ttl1Value(s.ctl.ttl[bank], e.full, e.high))
    ensures var v := bits + s.preserve[bank];
            Do(pt, s, e) == s.(ctl := s.ctl.(ttl := s.ctl.ttl[bank := v]), dev := Exec(s.dev, TTL(v, time, bank)))
  {
    RunOne(s.dev, TTL(bits + s.preserve[bank], 0, bank));
  }

  lemma DoDds(pt: PulseTimes, s: Live, e: Action, p: Param, chn: Channel, v: Word)
    requires e == SeqDds(p, chn, v) ||
             (e.SeqShift? && e.chn == chn && p == Phase && v == (s.ctl.phase[chn] + e.delta) % 0x1_0000)
    ensures Do(pt, s, e) == if s.ctl.ovr[chn].Get(p).Some? then s
                            else s.(ctl := WriteDds(s.ctl, p, chn, v).ctl, dev := Exec(s.dev, DDSSet(p, chn, Narrow(p, v))))
  {
    RunOne(s.dev, DDSSet(p, chn, Narrow(p, v)));
  }

  lemma WriteSyncsAt(c: Ctl, d: Device, p: Param, chn: Channel, o: Option<nat>, v: Word, k: Channel)
    requires InSyncAt(c, d, k) && Fits(p, o) && (o.None? || o.value == Stored(p, v))
    ensures InSyncAt(WriteDds(SetOverride(c, p, chn, o), p, chn, v).ctl, Exec(d, DDSSet(p, chn, Narrow(p, v))), k)
  {
    assert v % 0x1_0000 % 0x1000 == v % 0x1000;
  }

  /** Writing a value in step with the override keeps the channel in sync. */
  lemma WriteSyncs(c: Ctl, d: Device, p: Param, chn: Channel, o: Option<nat>, v: Word)
    requires InSync(c, d) && Fits(p, o) && (o.None? || o.value == Stored(p, v))
    ensures var e := WriteDds(SetOverride(c, p, chn, o), p, chn, v);
            InSync(e.ctl, Run(d, e.pulses))
  {
    RunOne(d, DDSSet(p, chn, Narrow(p, v)));
    forall k: Channel
      ensures InSyncAt(WriteDds(SetOverride(c, p, chn, o), p, chn, v).ctl, Exec(d, DDSSet(p, chn, Narrow(p, v))), k)
    {
      WriteSyncsAt(c, d, p, chn, o, v, k);
    }
  }

  lemma SetDdsSyncs(c: Ctl, d: Device, p: Param, chn: Channel, isOverride: bool, val: Word)
    requires InSync(c, d)
    ensures var e := SetDds(c, p, chn, isOverride, val);
            InSync(e.ctl, Run(d, e.pulses))
  {
    var o := c.ovr[chn].Get(p);
    assert o.None? ==> SetOverride(c, p, chn, None) == c;
    WriteSyncs(c, d, p, chn, None, val);
    if val != ALL_ONES {
      WriteSyncs(c, d, p, chn, Some(Stored(p, val)), val);
    }
    var off := SetOverride(c, p, chn, None);
    forall k: Channel ensures InSyncAt(off, d, k) {
      assert InSyncAt(c, d, k);
    }
  }

  lemma TtlSyncs(c: Ctl, d: Device, v: Bits, t: nat, bank: Bank)
    requires InSync(c, d)
    ensures InSync(c.(ttl := c.ttl[bank := v]), Run(d, [TTL(v, t, bank)]))
  {
    RunOne(d, TTL(v, t, bank));
    var c', d' := c.(ttl := c.ttl[bank := v]), Run(d, [TTL(v, t, bank)]);
    forall k: Channel ensures InSyncAt(c', d', k) {
      assert InSyncAt(c, d, k);
    }
  }

  lemma RunCmdSyncs(pt: PulseTimes, c: Ctl, d: Device, cmd: ReqCmd)
    requires InSync(c, d)
    ensures InSync(RunCmd(pt, c, cmd).ctl, Run(d, RunCmd(pt, c, cmd).pulses))
  {
    var e := RunCmd(pt, c, cmd);
    match cmd
    case TtlCmd(high, bank, mask) => TtlSyncs(c, d, SetBits(c.ttl[bank], high, mask), pt.min, bank);
    case DdsCmd(p, chn, hasRes, isOverride, val) =>
      if hasRes {
        RunOne(d, e.pulses[0]);
      } else {
        SetDdsSyncs(c, d, p, chn, isOverride, val);
      }
    case ResetCmd(_) =>
      forall k: Channel ensures InSyncAt(e.ctl, d, k) {
        assert InSyncAt(c, d, k);
      }
    case ClockCmd(_) =>
      RunOne(d, e.pulses[0]);
      forall k: Channel ensures InSyncAt(c, Run(d, e.pulses), k) {
        assert InSyncAt(c, d, k);
      }
  }

  lemma CheckDdsSyncs(c: Ctl, d: Device, chn: Channel)
    requires InSync(c, d)
    ensures InSync(CheckDds(c, chn).ctl, Run(d, CheckDds(c, chn).pulses))
  {
    RunOne(d, DDSReset(chn));
    forall k: Channel ensures InSyncAt(CheckDds(c, chn).ctl, Run(d, CheckDds(c, chn).pulses), k) {
      assert InSyncAt(c, d, k);
    }
  }

  lemma SeqKeepsSync(pt: PulseTimes, s: Live, e: Action)
    requires InSync(s.ctl, s.dev) && !e.Command? && !e.Check?
    ensures InSync(Do(pt, s, e).ctl, Do(pt, s, e).dev)
  {
    if e.SeqTtl? {
      TtlSyncs(s.ctl, s.dev, e.bits + s.preserve[e.bank], 0, e.bank);
    } else if e.SeqTtl1? {
      var bank := Ttl1Bank(e.full);
      TtlSyncs(s.ctl, s.dev, Ttl1Value(s.ctl.ttl[bank], e.full, e.high) + s.preserve[bank], 0, bank);
    } else if e.SeqClock? {
      RunOne(s.dev, Clock(e.div));
      var d' := Run(s.dev, [Clock(e.div)]);
      forall k: Channel ensures InSyncAt(s.ctl, d', k) {
        assert InSyncAt(s.ctl, s.dev, k);
      }
    } else {
      var p, v := if e.SeqDds? then e.p else Phase,
                  if e.SeqDds? then e.word else (s.ctl.phase[e.chn] + e.delta) % 0x1_0000;
      if s.ctl.ovr[e.chn].Get(p).None? {
        SetDdsSyncs(s.ctl, s.dev, p, e.chn, false, v);
        assert Do(pt, s, e) == Apply(s, SetDds(s.ctl, p, e.chn, false, v));
      }
    }
  }

  lemma DoKeepsSync(pt: PulseTimes, s: Live, e: Action)
    requires InSync(s.ctl, s.dev)
    ensures InSync(Do(pt, s, e).ctl, Do(pt, s, e).dev)
  {
    match e
    case Command(cmd) => RunCmdSyncs(pt, s.ctl, s.dev, cmd);
    case Check(chn) => CheckDdsSyncs(s.ctl, s.dev, chn);
    case _ => SeqKeepsSync(pt, s, e);
  }

  /** Main result: whatever mix of sequence writes, set and override commands and pending resets
      runs, the shadows are what the device will hold, and an active override is what it holds. */
  lemma {:induction false} ShadowsAndOverridesHold(pt: PulseTimes, s: Live, es: seq<Action>)
    requires InSync(s.ctl, s.dev)
    ensures InSync(DoAll(pt, s, es).ctl, DoAll(pt, s, es).dev)
    decreases |es|
  {
    if es != [] {
      ShadowsAndOverridesHold(pt, s, es[..|es| - 1]);
      DoKeepsSync(pt, DoAll(pt, s, es[..|es| - 1]), es[|es| - 1]);
    }
  }

  /** Once all pulses have run, comparing the TTL shadow with the device finds no difference. */
  lemma SyncFindsNothing(pt: PulseTimes, s: Live, es: seq<Action>)
    requires InSync(s.ctl, s.dev)
    ensures DoAll(pt, s, es).ctl.ttl == DoAll(pt, s, es).dev.ttl
  {
    ShadowsAndOverridesHold(pt, s, es);
  }

  /** Asking for an override to be cleared works, except for a phase override of 0xffff: the
      test for an unchanged value comes first and takes the low bits of all ones for one. */
  lemma ClearTurnsOff(c: Ctl, p: Param, chn: Channel)
    ensures SetDds(c, p, chn, true, ALL_ONES).ctl.ovr[chn].Get(p).None? <==>
            !(p == Phase && c.ovr[chn].phase == Some(0xffff))
  {
    assert ALL_ONES % 0x1_0000 == 0xffff;
    assert Fits(p, c.ovr[chn].Get(p));
  }

  // ---------------------------------------------------------------------------------------
  // What a single request does to the outputs

  /** Nothing but this register has changed. */
  ghost predicate OnlyReg(d: Device, d': Device, p: Param, chn: Channel) {
    && d'.ttl == d.ttl && d'.clock == d.clock
    && forall k: Channel, q :: (k != chn || q != p) ==> d'.dds[k].Get(q) == d.dds[k].Get(q)
  }

  /** A set request, plain or override, puts its value into its register and nowhere else: all of
      it, or the low 12 bits of an amplitude. It turns the override on if it is one, and a plain set
      leaves it on or off; an override that is on is kept as the value asked for. */
  lemma SetReaches(c: Ctl, d: Device, p: Param, chn: Channel, isOverride: bool, val: Word)
    requires InSync(c, d) && val != ALL_ONES
    ensures Arrived(c, d, p, chn, isOverride, val, SetDds(c, p, chn, isOverride, val))
  {
    var o := c.ovr[chn].Get(p);
    if !isOverride && o.None? {
      PlainReaches(c, d, p, chn, val);
    } else if o.Some? && o.value == Narrow(p, val) {
      SameReaches(c, d, p, chn, isOverride, val);
    } else {
      OverrideReaches(c, d, p, chn, isOverride, val);
    }
  }

  ghost predicate Arrived(c: Ctl, d: Device, p: Param, chn: Channel, isOverride: bool, val: Word, e: Effect) {
    var d', o := Run(d, e.pulses), e.ctl.ovr[chn].Get(p);
    && OnlyReg(d, d', p, chn) && Holds(p, Stored(p, val), d'.dds[chn].Get(p))
    && (o.Some? <==> isOverride || c.ovr[chn].Get(p).Some?)
    && (o.Some? ==> o.value == Stored(p, val))
  }

  lemma StoredIsHeld(p: Param, val: Word)
    ensures Fits(p, Some(Narrow(p, val))) ==> Stored(p, val) == Narrow(p, val)
    ensures Holds(p, Stored(p, val), Narrow(p, val))
  {
    assert val % 0x1_0000 % 0x1000 == val % 0x1000;
  }

  /** A plain value, and no override. */
  lemma PlainReaches(c: Ctl, d: Device, p: Param, chn: Channel, val: Word)
    requires c.ovr[chn].Get(p).None?
    ensures Arrived(c, d, p, chn, false, val, WriteDds(c, p, chn, val))
  {
    RunOne(d, DDSSet(p, chn, Narrow(p, val)));
    WriteReaches(d, p, chn, val);
    StoredIsHeld(p, val);
  }

  /** The value that the override has already. */
  lemma SameReaches(c: Ctl, d: Device, p: Param, chn: Channel, isOverride: bool, val: Word)
    requires InSyncAt(c, d, chn) && c.ovr[chn].Get(p) == Some(Narrow(p, val))
    ensures Arrived(c, d, p, chn, isOverride, val, Effect(c, []))
  {
    StoredIsHeld(p, val);
    assert Fits(p, c.ovr[chn].Get(p));
  }

  /** A new value for the override. */
  lemma OverrideReaches(c: Ctl, d: Device, p: Param, chn: Channel, isOverride: bool, val: Word)
    requires val != ALL_ONES && (isOverride || c.ovr[chn].Get(p).Some?)
    ensures Arrived(c, d, p, chn, isOverride, val, WriteDds(SetOverride(c, p, chn, Some(Stored(p, val))), p, chn, val))
  {
    RunOne(d, DDSSet(p, chn, Narrow(p, val)));
    WriteReaches(d, p, chn, val);
    StoredIsHeld(p, val);
    assert SetOverride(c, p, chn, Some(Stored(p, val))).ovr[chn].Get(p) == Some(Stored(p, val));
  }

  lemma WriteReaches(d: Device, p: Param, chn: Channel, v: Word)
    ensures var d' := Exec(d, DDSSet(p, chn, Narrow(p, v)));
            OnlyReg(d, d', p, chn) && d'.dds[chn].Get(p) == Narrow(p, v)
  {
  }

  /** A sequence writes its value to the register exactly if that is not overridden. */
  lemma SeqReaches(pt: PulseTimes, s: Live, p: Param, chn: Channel, v: Word)
    ensures var s' := Do(pt, s, SeqDds(p, chn, v));
            && OnlyReg(s.dev, s'.dev, p, chn) && s'.ctl.ovr == s.ctl.ovr
            && s'.dev.dds[chn].Get(p) ==
               if s.ctl.ovr[chn].Get(p).Some? then s.dev.dds[chn].Get(p) else Narrow(p, v)
  {
    RunOne(s.dev, DDSSet(p, chn, Narrow(p, v)));
    WriteReaches(s.dev, p, chn, v);
  }

  /** A TTL set moves the outputs that it names, in its bank, to its level, and no others. In a
      sequence an output in the mask follows the write, and one outside it follows it only upwards. */
  lemma TtlReaches(pt: PulseTimes, s: Live, bank: Bank, bits: Bits, high: bool, b: Bank, i: nat)
    requires InSync(s.ctl, s.dev) && s.preserve[bank] == s.ctl.ttl[bank] - s.mask[bank]
    ensures var was := s.dev.ttl[b];
            var afterSet := Do(pt, s, Command(TtlCmd(high, bank, bits))).dev.ttl[b];
            var afterSeq := Do(pt, s, SeqTtl(bits, bank)).dev.ttl[b];
            && (i in afterSet <==> if b == bank && i in bits then high else i in was)
            && (i in afterSeq <==> if b != bank then i in was
                              else if i in s.mask[bank] then i in bits else i in bits || i in was)
  {
    var v := SetBits(s.ctl.ttl[bank], high, bits);
    RunOne(s.dev, TTL(v, pt.min, bank));
    var out := bits + s.preserve[bank];
    RunOne(s.dev, TTL(out, 0, bank));
  }

  // ---------------------------------------------------------------------------------------
  // Relative phases

  /** The step cannot move the phase of `chn` other than by a relative shift. */
  predicate NoAbsolutePhase(e: Action, chn: Channel) {
    match e
    case Command(DdsCmd(Phase, k, hasRes, _, _)) => k != chn || hasRes
    case Check(k) => k != chn
    case SeqDds(Phase, k, _) => k != chn
    case _ => true
  }

  /** How far one step shifts the phase of `chn`. */
  function Shift(e: Action, chn: Channel): nat {
    if e.SeqShift? && e.chn == chn then e.delta else 0
  }

  function Shifts(es: seq<Action>, chn: Channel): nat {
    if es == [] then 0 else Shifts(es[..|es| - 1], chn) + Shift(es[|es| - 1], chn)
  }

  lemma PhaseStep(pt: PulseTimes, s: Live, e: Action, chn: Channel)
    requires s.ctl.ovr[chn].phase.None? && s.ctl.phase[chn] < 0x1_0000 && NoAbsolutePhase(e, chn)
    ensures var s' := Do(pt, s, e);
            s'.ctl.ovr[chn].phase.None? && s'.ctl.phase[chn] == (s.ctl.phase[chn] + Shift(e, chn)) % 0x1_0000
  {
    match e
    case Command(DdsCmd(p, k, hasRes, isOverride, val)) =>
    case SeqDds(p, k, v) =>
    case _ =>
  }

  /** The phase is the given sum, as far as 16 bits go. */
  predicate PhaseIs(s: Live, chn: Channel, sum: nat) {
    s.ctl.ovr[chn].phase.None? && s.ctl.phase[chn] == sum % 0x1_0000
  }

  lemma PhaseStepSum(pt: PulseTimes, s: Live, e: Action, chn: Channel, sum: nat)
    requires PhaseIs(s, chn, sum) && NoAbsolutePhase(e, chn)
    ensures PhaseIs(Do(pt, s, e), chn, sum + Shift(e, chn))
  {
    PhaseStep(pt, s, e, chn);
    assert (sum % 0x1_0000 + Shift(e, chn)) % 0x1_0000 == (sum + Shift(e, chn)) % 0x1_0000;
  }

  /** Relative shifts add up, whatever else runs in between. */
  lemma {:induction false} ShiftsAddUp(pt: PulseTimes, s: Live, es: seq<Action>, chn: Channel)
    requires PhaseIs(s, chn, s.ctl.phase[chn])
    requires forall i :: 0 <= i < |es| ==> NoAbsolutePhase(es[i], chn)
    ensures PhaseIs(DoAll(pt, s, es), chn, s.ctl.phase[chn] + Shifts(es, chn))
    decreases |es|
  {
    if es != [] {
      var was := es[..|es| - 1];
      ShiftsAddUp(pt, s, was, chn);
      PhaseStepSum(pt, DoAll(pt, s, was), es[|es| - 1], chn, s.ctl.phase[chn] + Shifts(was, chn));
    }
  }

  // ---------------------------------------------------------------------------------------
  // TTL outputs that do not belong to the sequence

  /** The sequence only writes the TTL bits that it declared. */
  predicate Inside(mask: seq<Bits>, e: Action)
    requires |mask| == NUM_TTL_BANKS
  {
    match e
    case SeqTtl(v, bank) => v <= mask[bank]
    case SeqTtl1(full, _) => full % 32 in mask[Ttl1Bank(full)]
    case _ => true
  }

  /** The TTL outputs as the set commands alone leave them. */
  function SetsOnly(ttl: seq<Bits>, es: seq<Action>): seq<Bits>
    requires |ttl| == NUM_TTL_BANKS
    ensures |SetsOnly(ttl, es)| == NUM_TTL_BANKS
  {
    if es == [] then ttl
    else
      var before := SetsOnly(ttl, es[..|es| - 1]);
      match es[|es| - 1]
      case Command(TtlCmd(high, bank, mask)) => before[bank := SetBits(before[bank], high, mask)]
      case _ => before
  }

  /** A write leaves the bits outside the mask alone exactly when it adds none to the kept ones. */
  lemma WritePreserves(pt: PulseTimes, s: Live, v: Bits, bank: Bank)
    requires s.preserve[bank] == s.ctl.ttl[bank] - s.mask[bank]
    ensures Do(pt, s, SeqTtl(v, bank)).ctl.ttl[bank] - s.mask[bank] == s.ctl.ttl[bank] - s.mask[bank]
            <==> v - s.mask[bank] <= s.ctl.ttl[bank]
  {
    var was, now := s.ctl.ttl[bank] - s.mask[bank], v + s.preserve[bank] - s.mask[bank];
    if v - s.mask[bank] <= s.ctl.ttl[bank] {
      assert now == was;
    } else {
      var i :| i in v - s.mask[bank] && i !in s.ctl.ttl[bank];
      assert i in now && i !in was;
    }
  }

  /** Main result: outside its mask, a sequence leaves the TTL outputs as the set commands do. */
  lemma {:induction false} OnlySetCommandsOutside(pt: PulseTimes, s: Live, es: seq<Action>)
    requires s.preserve == Outside(s.ctl.ttl, s.mask)
    requires forall i :: 0 <= i < |es| ==> Inside(s.mask, es[i])
    ensures var s' := DoAll(pt, s, es);
            && s'.mask == s.mask
            && s'.preserve == Outside(s'.ctl.ttl, s.mask) == Outside(SetsOnly(s.ctl.ttl, es), s.mask)
    decreases |es|
  {
    if es != [] {
      OnlySetCommandsOutside(pt, s, es[..|es| - 1]);
      OneStepOutside(pt, DoAll(pt, s, es[..|es| - 1]), SetsOnly(s.ctl.ttl, es[..|es| - 1]), es[|es| - 1]);
      assert SetsOnly(SetsOnly(s.ctl.ttl, es[..|es| - 1]), [es[|es| - 1]]) == SetsOnly(s.ctl.ttl, es);
    }
  }

  predicate MovesTtl(e: Action) {
    e.SeqTtl? || e.SeqTtl1? || (e.Command? && e.cmd.TtlCmd?)
  }

  lemma OthersKeepTtl(pt: PulseTimes, s: Live, e: Action)
    requires !MovesTtl(e)
    ensures var s' := Do(pt, s, e); s'.ctl.ttl == s.ctl.ttl && s'.mask == s.mask && s'.preserve == s.preserve
  {
  }

  function TtlBank(e: Action): Bank
    requires MovesTtl(e)
  {
    match e case SeqTtl(_, bank) => bank case SeqTtl1(full, _) => Ttl1Bank(full) case Command(cmd) => cmd.bank
  }

  function TtlValue(s: Live, e: Action): Bits
    requires MovesTtl(e)
  {
    match e
    case SeqTtl(v, bank) => v + s.preserve[bank]
    case SeqTtl1(full, high) => Ttl1Value(s.ctl.ttl[Ttl1Bank(full)], full, high) + s.preserve[Ttl1Bank(full)]
    case Command(cmd) => SetBits(s.ctl.ttl[cmd.bank], cmd.high, cmd.mask)
  }

  lemma TtlStep(pt: PulseTimes, s: Live, e: Action)
    requires MovesTtl(e)
    ensures var s', bank, v := Do(pt, s, e), TtlBank(e), TtlValue(s, e);
            && s'.mask == s.mask
            && s'.ctl.ttl == s.ctl.ttl[bank := v]
            && s'.preserve == if e.Command? then s.preserve[bank := v - s.mask[bank]] else s.preserve
  {
  }

  lemma OneStepOutside(pt: PulseTimes, s: Live, sets: seq<Bits>, e: Action)
    requires |sets| == NUM_TTL_BANKS && Inside(s.mask, e)
    requires s.preserve == Outside(s.ctl.ttl, s.mask) == Outside(sets, s.mask)
    ensures var s' := Do(pt, s, e);
            && s'.mask == s.mask
            && s'.preserve == Outside(s'.ctl.ttl, s.mask) == Outside(SetsOnly(sets, [e]), s.mask)
  {
    assert [e][..0] == [];
    if !MovesTtl(e) {
      OthersKeepTtl(pt, s, e);
    } else {
      TtlStep(pt, s, e);
      OutsideUpdate(s.ctl.ttl, s.mask, TtlBank(e), TtlValue(s, e));
      if e.Command? {
        SetOutside(s, sets, e);
      } else {
        SeqOutside(s, e);
      }
    }
  }

  lemma SetOutside(s: Live, sets: seq<Bits>, e: Action)
    requires |sets| == NUM_TTL_BANKS && e.Command? && MovesTtl(e)
    requires Outside(s.ctl.ttl, s.mask) == Outside(sets, s.mask)
    ensures Outside(s.ctl.ttl, s.mask)[TtlBank(e) := TtlValue(s, e) - s.mask[TtlBank(e)]]
         == Outside(SetsOnly(sets, [e]), s.mask)
  {
    var bank := e.cmd.bank;
    assert [e][..0] == [];
    assert Outside(s.ctl.ttl, s.mask)[bank] == Outside(sets, s.mask)[bank];
    SetBitsOutside(s.ctl.ttl[bank], sets[bank], e.cmd.high, e.cmd.mask, s.mask[bank]);
    OutsideUpdate(sets, s.mask, bank, SetBits(sets[bank], e.cmd.high, e.cmd.mask));
  }

  lemma SeqOutside(s: Live, e: Action)
    requires Inside(s.mask, e) && MovesTtl(e) && !e.Command? && s.preserve == Outside(s.ctl.ttl, s.mask)
    ensures TtlValue(s, e) - s.mask[TtlBank(e)] == s.preserve[TtlBank(e)]
  {
    assert s.preserve[TtlBank(e)] == s.ctl.ttl[TtlBank(e)] - s.mask[TtlBank(e)];
    WriteOutside(s.ctl.ttl[TtlBank(e)], TtlValue(s, e), e, s.mask[TtlBank(e)]);
  }

  lemma OutsideUpdate(ttl: seq<Bits>, mask: seq<Bits>, bank: Bank, v: Bits)
    requires |ttl| == |mask| == NUM_TTL_BANKS
    ensures Outside(ttl[bank := v], mask) == Outside(ttl, mask)[bank := v - mask[bank]]
  {
  }

  lemma SetBitsOutside(x: Bits, y: Bits, high: bool, bits: Bits, mask: Bits)
    requires x - mask == y - mask
    ensures SetBits(x, high, bits) - mask == SetBits(y, high, bits) - mask
  {
    forall i ensures i in SetBits(x, high, bits) - mask <==> i in SetBits(y, high, bits) - mask {
      assert i in x - mask <==> i in y - mask;
    }
  }

  lemma WriteOutside(t: Bits, v: Bits, e: Action, m: Bits)
    requires e.SeqTtl? ==> e.bits <= m && v == e.bits + (t - m)
    requires e.SeqTtl1? ==> e.full % 32 in m && v == SetBits(t, e.high, {e.full % 32}) + (t - m)
    requires e.SeqTtl? || e.SeqTtl1?
    ensures v - m == t - m
  {
  }

  /** A single-channel write moves its own output exactly if its channel is below 32; the bank is
      taken after the channel has been cut to 5 bits, so any other channel is taken for one in the
      first bank, and no other bank is ever written. */
  lemma SingleChannelBank(pt: PulseTimes, s: Live, full: nat, high: bool)
    ensures (Ttl1Bank(full), full % 32) == (full / 32, full % 32) <==> full < 32
    ensures Do(pt, s, SeqTtl1(full, high)) == Do(pt, s, SeqTtl1(full % 32, high))
    ensures forall b: Bank :: b != 0 ==> Do(pt, s, SeqTtl1(full, high)).ctl.ttl[b] == s.ctl.ttl[b]
    ensures s.preserve[0] == s.ctl.ttl[0] - s.mask[0] && full % 32 in s.mask[0] ==>
              (full % 32 in Do(pt, s, SeqTtl1(full, high)).ctl.ttl[0] <==> high)
  {
    assert Ttl1Bank(full) == 0 && Ttl1Bank(full % 32) == 0;
  }

  /** A single-channel write moves its own output and no other, in the controller's copy and in the
      device, if the output belongs to the sequence and the others are kept. */
  lemma SingleChannelWrite(pt: PulseTimes, s: Live, full: nat, high: bool, b: Bank, i: nat)
    requires s.preserve[0] == s.ctl.ttl[0] - s.mask[0] && full % 32 in s.mask[0]
    ensures var s' := Do(pt, s, SeqTtl1(full, high));
            && (i in s'.ctl.ttl[b] <==> if b == 0 && i == full % 32 then high else i in s.ctl.ttl[b])
            && (s.ctl.ttl == s.dev.ttl ==> s'.ctl.ttl == s'.dev.ttl)
  {
    assert Ttl1Bank(full) == 0;
    var v := Ttl1Value(s.ctl.ttl[0], full, high) + s.preserve[0];
    RunOne(s.dev, TTL(v, 0, 0));
  }

  /** What a DDS set sends: nothing if it clears an override or asks for the value that the override has,
      and otherwise the value, narrowed to its register. */
  lemma SetSends(c: Ctl, p: Param, chn: Channel, isOverride: bool, val: Word)
    ensures var e, on := SetDds(c, p, chn, isOverride, val), c.ovr[chn].Get(p);
            var word: Word := if p == Freq then val else val % 65536;
            if on.Some? && on.value == word then e.pulses == [] && e.ctl == c
            else if val == ALL_ONES && (isOverride || on.Some?) then e.pulses == []
            else e.pulses == [DDSSet(p, chn, word)]
  {
  }

  /** The other commands, per pulse and register: a clock command sets the low 8 bits, a reset waits for
      the next check, and a read sends a read of its own register and changes nothing. */
  lemma OthersReach(pt: PulseTimes, c: Ctl, d: Device, cmd: ReqCmd)
    requires cmd.ClockCmd? || cmd.ResetCmd? || cmd.Reads()
    ensures var e := RunCmd(pt, c, cmd);
            && e.ctl.ttl == c.ttl && e.ctl.ovr == c.ovr && e.ctl.phase == c.phase
            && (forall k: Channel :: e.ctl.pendingReset[k] == (c.pendingReset[k] || cmd == ResetCmd(k)))
            && Run(d, e.pulses).dds == d.dds && Run(d, e.pulses).ttl == d.ttl
            && Run(d, e.pulses).clock == (if cmd.ClockCmd? then cmd.div % 256 else d.clock)
            && (cmd.ResetCmd? ==> e.pulses == [])
            && (cmd.DdsCmd? ==> e.pulses == [DDSGet(cmd.p, cmd.chn)])
  {
    var ps := RunCmd(pt, c, cmd).pulses;
    if ps != [] {
      assert ps == [ps[0]];
      RunOne(d, ps[0]);
    }
  }
}
