/** The instructions that the controller hands to the pulser, and what they do to the device.

    Both the simulator and the controller speak in these terms: a pulse has an effect on
    the device registers, possibly a result, and a duration in FPGA time steps (10ns each).
 */
module Pulses {

  const NUM_TTL_BANKS: nat := 8
  const NUM_DDS: nat := 22
  /** Longest time one instruction can carry, (1 << 24) - 1 steps. */
  const MAX_WAIT: nat := 0xff_ffff
  /** `uint32_t(-1)`. */
  const ALL_ONES: nat := 0xffff_ffff

  /** A word of TTL outputs, as the set of bits that are 1: `|` is union and `& ~` difference. */
  type Bits = set<nat>

  type Bank = b: nat | b < NUM_TTL_BANKS
  type Channel = c: nat | c < NUM_DDS
  type Word = w: nat | w <= ALL_ONES
  type Byte = b: nat | b < 256

  datatype Option<+T> = None | Some(value: T)

  lemma SeqAssoc<T>(a: seq<T>, b: seq<T>, c: seq<T>)
    ensures (a + b) + c == a + (b + c)
  {
  }

  datatype Param = Freq | Amp | Phase

  datatype Pulse =
    | TTL(val: Bits, t: nat, bank: Bank)
    | Clock(div: nat)
    | DAC(dac: nat, v: nat)
    | Wait(t: nat)
    | Trigger(input: nat, raise: bool, timeout: nat)
    | ClearErr
    | DDSSet(p: Param, chn: Channel, word: Word)
    | DDSReset(chn: Channel)
    | LoopBack(word: Word)
    | DDSGet(p: Param, chn: Channel)

  /** The instruction times are fixed by the hardware; every result below holds for all of them. */
  datatype PulseTimes = PulseTimes(min: Word, clock: Word, dac: Word, clear: Word,
                                   freq: Word, amp: Word, phase: Word, reset: Word, loopBack: Word)

  function ParamTime(pt: PulseTimes, p: Param): Word {
    match p
    case Freq => pt.freq
    case Amp => pt.amp
    case Phase => pt.phase
  }

  function Duration(pt: PulseTimes, p: Pulse): nat {
    match p
    case TTL(_, t, _) => t
    case Clock(_) => pt.clock
    case DAC(_, _) => pt.dac
    case Wait(t) => t
    case Trigger(_, _, timeout) => timeout
    case ClearErr => pt.clear
    case DDSSet(p, _, _) => ParamTime(pt, p)
    case DDSReset(_) => pt.reset
    case LoopBack(_) => pt.loopBack
    case DDSGet(p, _) => ParamTime(pt, p)
  }

  /** Time taken by a run of pulses. */
  function Total(pt: PulseTimes, ps: seq<Pulse>): nat {
    if ps == [] then 0 else Total(pt, ps[..|ps| - 1]) + Duration(pt, ps[|ps| - 1])
  }

  lemma {:induction false} TotalConcat(pt: PulseTimes, a: seq<Pulse>, b: seq<Pulse>)
    ensures Total(pt, a + b) == Total(pt, a) + Total(pt, b)
  {
    if b == [] {
      assert a + b == a;
    } else {
      TotalConcat(pt, a, b[..|b| - 1]);
      assert (a + b)[..|a + b| - 1] == a + b[..|b| - 1];
    }
  }

  /** One value for each DDS parameter of a channel. */
  datatype PerParam<+T> = PerParam(freq: T, amp: T, phase: T) {
    function Get(p: Param): T {
      match p
      case Freq => freq
      case Amp => amp
      case Phase => phase
    }

    function Put(p: Param, v: T): PerParam<T> {
      match p
      case Freq => this.(freq := v)
      case Amp => this.(amp := v)
      case Phase => this.(phase := v)
    }
  }

  type Regs = PerParam<Word>

  const ZERO_REGS: Regs := PerParam(0, 0, 0)

  /** What a register keeps of a value: 32 bits of frequency, 16 bits of amplitude and phase. */
  function Narrow(p: Param, v: Word): (r: Word)
    ensures r == ALL_ONES ==> p == Freq
  {
    if p == Freq then v else v % 0x1_0000
  }

  datatype RawDevice = Device(ttl: seq<Bits>, clock: nat, dds: seq<Regs>)

  type Device = d: RawDevice | |d.ttl| == NUM_TTL_BANKS && |d.dds| == NUM_DDS
    witness Device(seq(NUM_TTL_BANKS, _ => {}), 255, seq(NUM_DDS, _ => ZERO_REGS))

  function Exec(d: Device, p: Pulse): Device {
    match p
    case TTL(val, _, bank) => d.(ttl := d.ttl[bank := val])
    case Clock(div) => d.(clock := div % 256)
    case DDSSet(p, chn, v) => d.(dds := d.dds[chn := d.dds[chn].Put(p, Narrow(p, v))])
    case DDSReset(chn) => d.(dds := d.dds[chn := ZERO_REGS])
    case _ => d
  }

  function ResultOf(d: Device, p: Pulse): Option<nat> {
    match p
    case LoopBack(v) => Some(v)
    case DDSGet(p, chn) => Some(d.dds[chn].Get(p))
    case _ => None
  }

  /** The device after a run of pulses. */
  function Run(d: Device, ps: seq<Pulse>): Device {
    if ps == [] then d else Exec(Run(d, ps[..|ps| - 1]), ps[|ps| - 1])
  }

  lemma {:induction false} RunConcat(d: Device, a: seq<Pulse>, b: seq<Pulse>)
    ensures Run(d, a + b) == Run(Run(d, a), b)
  {
    if b == [] {
      assert a + b == a;
    } else {
      RunConcat(d, a, b[..|b| - 1]);
      assert (a + b)[..|a + b| - 1] == a + b[..|b| - 1];
    }
  }
}
