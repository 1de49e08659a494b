/** The frontend's cache of DDS values and the callbacks that wait for them, as the code does it
    (lib/ctrl_iface.cpp, lib/ctrl_iface.h). */
module CmdCache {
  import opened Pulses
  import opened Commands

  datatype Call = Call(cb: nat, val: Word)

  /** Each of the callbacks is called with the value. */
  function Calls(cbs: seq<nat>, val: Word): (calls: seq<Call>)
    ensures |calls| == |cbs|
  {
    seq(|cbs|, i requires 0 <= i < |cbs| => Call(cbs[i], val))
  }

  lemma CallsMore(calls: seq<Call>, cbs: seq<nat>, cb: nat, val: Word)
    ensures calls + Calls(cbs, val) + [Call(cb, val)] == calls + Calls(cbs + [cb], val)
  {
  }

  /** The number of an operation in a request. */
  function OpNumber(op: CacheOp): nat {
    match op
    case DdsOp(Freq) => 1
    case DdsOp(Amp) => 2
    case DdsOp(Phase) => 3
    case ClockOp => 5
  }

  /** An operand has 26 bits; the override flag and the operation are above them. */
  function CacheKey(k: Key): nat {
    OpNumber(k.op) * 0x800_0000 + (if k.isOverride then 0x400_0000 else 0) + k.operand
  }

  lemma KeysDiffer(a: Key, b: Key)
    requires a.operand < 0x400_0000 && b.operand < 0x400_0000
    ensures CacheKey(a) == CacheKey(b) <==> a == b
  {
  }

  class CmdCache {
    var cache: Cache
    var calls: seq<Call>

    constructor ()
      ensures cache == map[] && calls == []
    {
      cache, calls := map[], [];
    }

    method UpdateEntry(k: Key, t: nat, val: Word)
      modifies this
      ensures cache == old(cache)[k := Entry(t, val, [])]
      ensures calls == old(calls) + Calls(EntryAt(old(cache), k).cbs, val)
    {
      var entry := EntryAt(cache, k);
      for i := 0 to |entry.cbs|
        invariant cache == old(cache)
        invariant calls == old(calls) + Calls(entry.cbs, val)[..i]
      {
        calls := calls + [Call(entry.cbs[i], val)];
        assert Calls(entry.cbs, val)[..i + 1] == Calls(entry.cbs, val)[..i] + [Call(entry.cbs[i], val)];
      }
      cache := cache[k := Entry(t, val, [])];
    }

    /** Everyone who waits for the key, and for the override if that is replaced, gets the value. */
    method Set(k: Key, val: Word, now: nat)
      modifies this
      ensures var a := CacheSet(old(cache), k, val, now);
              cache == a.cache && calls == old(calls) + Calls(a.fired, val)
    {
      UpdateEntry(k, now, val);
      if !k.isOverride && k.op.DdsOp? {
        var ko := k.(isOverride := true);
        if ko in cache && cache[ko].val != ALL_ONES {
          ghost var a, b := EntryAt(old(cache), k).cbs, cache[ko].cbs;
          UpdateEntry(ko, now, val);
          assert Calls(a + b, val) == Calls(a, val) + Calls(b, val);
        }
      }
    }

    method Get(k: Key, cb: nat, now: nat) returns (hit: bool)
      modifies this
      ensures var a := CacheGet(old(cache), k, cb, now);
              cache == a.cache && hit == a.hit && calls == old(calls) + Calls(a.fired, cache[k].val)
    {
      var entry := EntryAt(cache, k);
      cache := cache[k := entry];
      if now - entry.t <= FRESH_NS {
        calls := calls + [Call(cb, entry.val)];
        return true;
      }
      if k.isOverride {
        if entry.t == 0 {
          entry := entry.(val := ALL_ONES);
          cache := cache[k := entry];
        }
        calls := calls + [Call(cb, entry.val)];
        return true;
      }
      var wasEmpty := entry.cbs == [];
      cache := cache[k := entry.(cbs := entry.cbs + [cb])];
      return !wasEmpty;
    }

    method HasDdsOvr() returns (on: bool)
      ensures on <==> exists p: Param, chn: Channel :: CacheOn(cache, p, chn)
    {
      var ops := [Freq, Amp, Phase];
      for i := 0 to NUM_DDS
        invariant forall p: Param, chn: Channel :: chn < i ==> !CacheOn(cache, p, chn)
      {
        for j := 0 to |ops|
          invariant forall k :: 0 <= k < j ==> !CacheOn(cache, ops[k], i)
        {
          var key := DdsKey(ops[j], i, true);
          if key !in cache || cache[key].val == ALL_ONES {
            continue;
          }
          assert CacheOn(cache, ops[j], i);
          return true;
        }
        forall p: Param ensures !CacheOn(cache, p, i) {
          assert p == ops[0] || p == ops[1] || p == ops[2];
        }
      }
      return false;
    }
  }
}
