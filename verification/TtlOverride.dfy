/** TTL overrides (lib/controller.cpp, lib/ctrl_iface.cpp, lib/server.cpp): each bank has a mask of
    outputs held low and one of outputs held high. */
module TtlOverride {
  import opened Pulses

  datatype Masks = Masks(lo: Bits, hi: Bits)

  /** What the masks say about one output. */
  datatype Held = Low | High | Free

  datatype Request = Request(bank: Bank, mask: Bits, to: Held)

  function Put(m: Masks, mask: Bits, to: Held): Masks {
    match to
    case Low => Masks(m.lo + mask, m.hi - mask)
    case High => Masks(m.lo - mask, m.hi + mask)
    case Free => Masks(m.lo - mask, m.hi - mask)
  }

  /** All requests, in order, seen from one bank. */
  function PutAll(m: Masks, bank: Bank, rs: seq<Request>): Masks {
    if rs == [] then m
    else
      var r, m' := rs[|rs| - 1], PutAll(m, bank, rs[..|rs| - 1]);
      if r.bank == bank then Put(m', r.mask, r.to) else m'
  }

  function HeldAt(m: Masks, bit: nat): Held {
    if bit in m.lo then Low else if bit in m.hi then High else Free
  }

  function Shown(raw: Bits, m: Masks): Bits {
    (raw + m.hi) - m.lo
  }

  ghost predicate Names(r: Request, bank: Bank, bit: nat) {
    r.bank == bank && bit in r.mask
  }

  /** Main result: the two masks of a bank stay disjoint, an output is held as the last request that
      names it says, or as before if there is none, and what is shown is that or the raw output. */
  lemma {:induction false} LastRequestDecides(m: Masks, bank: Bank, rs: seq<Request>, bit: nat, raw: Bits)
    requires m.lo !! m.hi
    ensures var m' := PutAll(m, bank, rs);
            && m'.lo !! m'.hi
            && (forall i :: 0 <= i < |rs| && Names(rs[i], bank, bit)
                            && (forall j :: i < j < |rs| ==> !Names(rs[j], bank, bit)) ==>
                  HeldAt(m', bit) == rs[i].to)
            && ((forall i :: 0 <= i < |rs| ==> !Names(rs[i], bank, bit)) ==> HeldAt(m', bit) == HeldAt(m, bit))
            && (bit in Shown(raw, m') <==>
                match HeldAt(m', bit) case Low => false case High => true case Free => bit in raw)
  {
    if rs != [] {
      var rs', r := rs[..|rs| - 1], rs[|rs| - 1];
      LastRequestDecides(m, bank, rs', bit, raw);
      assert forall i :: 0 <= i < |rs'| ==> rs'[i] == rs[i];
      OneRequest(PutAll(m, bank, rs'), PutAll(m, bank, rs), bank, r, bit);
      forall i | 0 <= i < |rs| && Names(rs[i], bank, bit) && (forall j :: i < j < |rs| ==> !Names(rs[j], bank, bit))
        ensures HeldAt(PutAll(m, bank, rs), bit) == rs[i].to
      {
        if i < |rs'| {
          assert !Names(rs[|rs| - 1], bank, bit);
        }
      }
    }
  }

  lemma OneRequest(m: Masks, m': Masks, bank: Bank, r: Request, bit: nat)
    requires m.lo !! m.hi && m' == if r.bank == bank then Put(m, r.mask, r.to) else m
    ensures m'.lo !! m'.hi && HeldAt(m', bit) == if Names(r, bank, bit) then r.to else HeldAt(m, bit)
  {
  }

  /** Whatever the masks, an output that is held low is low, and any other is high if it is held high or
      raw high. */
  lemma LowWins(raw: Bits, m: Masks, bit: nat)
    ensures bit in Shown(raw, m) <==> bit !in m.lo && (bit in m.hi || bit in raw)
  {
  }

  /** The requests in one message; an empty mask asks for nothing. */
  function Message(bank: Bank, low: Bits, high: Bits, free: Bits): seq<Request> {
    [Request(bank, low, Low), Request(bank, high, High), Request(bank, free, Free)]
  }

  /** In a message with three masks the last one that has an output wins. */
  lemma MessageDecides(m: Masks, bank: Bank, low: Bits, high: Bits, free: Bits, bit: nat)
    requires m.lo !! m.hi
    ensures HeldAt(PutAll(m, bank, Message(bank, low, high, free)), bit) ==
            if bit in free then Free else if bit in high then High else if bit in low then Low
            else HeldAt(m, bit)
  {
    var rs := Message(bank, low, high, free);
    LastRequestDecides(m, bank, rs, bit, {});
    assert Names(rs[0], bank, bit) <==> bit in low;
    assert Names(rs[1], bank, bit) <==> bit in high;
    assert Names(rs[2], bank, bit) <==> bit in free;
  }

  // ---------------------------------------------------------------------------------------

  function TypeOf(ty: nat): Held {
    if ty == 0 then Low else if ty == 1 then High else Free
  }

  class TtlPort {
    var ttl: seq<Bits>
    var lomask: seq<Bits>
    var himask: seq<Bits>

    ghost predicate Valid()
      reads this
    {
      |ttl| == |lomask| == |himask| == NUM_TTL_BANKS
    }

    ghost function At(bank: Bank): Masks
      requires Valid()
      reads this
    {
      Masks(lomask[bank], himask[bank])
    }

    constructor ()
      ensures Valid() && forall bank: Bank :: At(bank) == Masks({}, {})
    {
      ttl, lomask, himask := seq(NUM_TTL_BANKS, _ => {}), seq(NUM_TTL_BANKS, _ => {}), seq(NUM_TTL_BANKS, _ => {});
    }

    /** Any other type of request is left to the command queue. */
    method ConcurrentSet(ty: nat, bank: Bank, val: Bits) returns (done: bool)
      requires Valid()
      modifies this`lomask, this`himask
      ensures Valid() && done == (ty <= 2)
      ensures forall b: Bank :: At(b) == if done && b == bank then Put(old(At(b)), val, TypeOf(ty)) else old(At(b))
    {
      var lo, hi := lomask[bank], himask[bank];
      if ty == 0 {
        lomask := lomask[bank := lo + val];
        himask := himask[bank := hi - val];
      } else if ty == 1 {
        lomask := lomask[bank := lo - val];
        himask := himask[bank := hi + val];
      } else if ty == 2 {
        lomask := lomask[bank := lo - val];
        himask := himask[bank := hi - val];
      } else {
        return false;
      }
      return true;
    }

    method ConcurrentGet(ty: nat, bank: Bank, isOverride: bool) returns (val: Option<Bits>)
      requires Valid()
      ensures val == if ty == 0 && !isOverride then Some(Shown(ttl[bank], At(bank)))
                     else if ty == 0 then Some(lomask[bank])
                     else if ty == 1 && isOverride then Some(himask[bank])
                     else None
    {
      if !isOverride {
        if ty != 0 {
          return None;
        }
        return Some((ttl[bank] + himask[bank]) - lomask[bank]);
      }
      if ty == 0 {
        return Some(lomask[bank]);
      } else if ty == 1 {
        return Some(himask[bank]);
      }
      return None;
    }

    /** The masks of an override message, by type, and the new masks in reply. */
    method OverrideTtl(bank: Bank, masks: seq<Bits>) returns (lo: Bits, hi: Bits)
      requires Valid() && |masks| == 3
      modifies this`lomask, this`himask
      ensures Valid() && Masks(lo, hi) == At(bank)
      ensures forall b: Bank :: At(b) == PutAll(old(At(b)), b, Message(bank, masks[0], masks[1], masks[2]))
    {
      ghost var rs := Message(bank, masks[0], masks[1], masks[2]);
      for i := 0 to 3
        invariant Valid()
        invariant forall b: Bank :: At(b) == PutAll(old(At(b)), b, rs[..i])
      {
        assert rs[..i + 1][..i] == rs[..i];
        assert rs[i] == Request(bank, masks[i], TypeOf(i));
        ghost var before := rs[..i];
        if masks[i] != {} {
          var done := ConcurrentSet(i, bank, masks[i]);
        } else {
          assert forall m: Masks :: Put(m, masks[i], TypeOf(i)) == m;
        }
      }
      assert rs[..3] == rs;
      lo, hi := lomask[bank], himask[bank];
    }
  }
}
