/** The names of the channels as a message (lib/server.cpp): each name that is not empty is its
    channel number, the bytes of the name and a NUL. */
module Names {
  import opened Pulses

  type Name = seq<Byte>

  type Table = seq<Name>

  datatype Parsed = Parsed(table: Table, hasSet: bool)

  /** The position of the first NUL, or the length. */
  function NulAt(s: seq<Byte>): (n: nat)
    ensures n <= |s| && (n < |s| ==> s[n] == 0)
    ensures forall i :: 0 <= i < n ==> s[i] != 0
  {
    if s == [] || s[0] == 0 then 0 else 1 + NulAt(s[1..])
  }

  /** A message is read from the front; a name without its NUL ends it. */
  function Parse(msg: seq<Byte>, t: Table): (r: Parsed)
    ensures |r.table| == |t|
    decreases |msg|
  {
    if |msg| < 2 then Parsed(t, false)
    else
      var n := NulAt(msg[1..]);
      if n == |msg| - 1 then Parsed(t, false)
      else
        var rest := msg[n + 2..];
        if msg[0] < |t| then Parsed(Parse(rest, t[msg[0] := msg[1..n + 1]]).table, true)
        else Parse(rest, t)
  }

  /** The first `k` names; the number of a channel is cut to a byte. */
  function Print(t: Table, k: nat): seq<Byte>
    requires k <= |t|
  {
    if k == 0 then []
    else if t[k - 1] == [] then Print(t, k - 1)
    else Print(t, k - 1) + ([(k - 1) % 256] + t[k - 1] + [0])
  }

  // ---------------------------------------------------------------------------------------
  // What a message means

  datatype Entry = Entry(chn: Byte, name: Name)

  function Encode(es: seq<Entry>): seq<Byte> {
    if es == [] then [] else [es[0].chn] + es[0].name + [0] + Encode(es[1..])
  }

  ghost predicate NulFree(s: seq<Byte>) {
    forall i :: 0 <= i < |s| ==> s[i] != 0
  }

  /** Nothing that could be an entry. */
  ghost predicate Incomplete(s: seq<Byte>) {
    |s| < 2 || NulFree(s[1..])
  }

  ghost predicate AllNulFree(es: seq<Entry>) {
    forall i :: 0 <= i < |es| ==> NulFree(es[i].name)
  }

  function Assign(t: Table, e: Entry): (r: Table)
    ensures |r| == |t|
  {
    if e.chn < |t| then t[e.chn := e.name] else t
  }

  function Apply(t: Table, es: seq<Entry>): (r: Table)
    ensures |r| == |t|
    decreases |es|
  {
    if es == [] then t else Apply(Assign(t, es[0]), es[1..])
  }

  ghost predicate InRange(t: Table, es: seq<Entry>) {
    exists i :: 0 <= i < |es| && es[i].chn < |t|
  }

  lemma EntryEnds(e: Entry, rest: seq<Byte>)
    requires NulFree(e.name)
    ensures NulAt((e.name + [0]) + rest) == |e.name|
  {
    var s := (e.name + [0]) + rest;
    assert forall i :: 0 <= i < |e.name| ==> s[i] == e.name[i];
    assert s[|e.name|] == 0;
  }

  lemma EntryRead(e: Entry, rest: seq<Byte>, t: Table)
    requires NulFree(e.name)
    ensures var r, r' := Parse([e.chn] + ((e.name + [0]) + rest), t), Parse(rest, Assign(t, e));
            r.table == r'.table && (r.hasSet <==> e.chn < |t| || r'.hasSet)
  {
    var msg := [e.chn] + ((e.name + [0]) + rest);
    EntryEnds(e, rest);
    EntrySlices(e, rest);
  }

  lemma EntrySlices(e: Entry, rest: seq<Byte>)
    ensures var msg, n := [e.chn] + ((e.name + [0]) + rest), |e.name|;
            msg[1..] == (e.name + [0]) + rest && msg[n + 2..] == rest && msg[1..n + 1] == e.name
  {
  }

  lemma IncompleteIgnored(tail: seq<Byte>, t: Table)
    requires Incomplete(tail)
    ensures Parse(tail, t) == Parsed(t, false)
  {
    if |tail| >= 2 {
      var n := NulAt(tail[1..]);
    }
  }

  lemma EncodeFirst(es: seq<Entry>, tail: seq<Byte>)
    requires es != []
    ensures Encode(es) + tail == [es[0].chn] + ((es[0].name + [0]) + (Encode(es[1..]) + tail))
  {
  }

  /** Entries are read one by one, in order, and what is incomplete at the end is ignored. */
  lemma {:induction false} ParseApplies(es: seq<Entry>, tail: seq<Byte>, t: Table)
    requires AllNulFree(es) && Incomplete(tail)
    ensures Parse(Encode(es) + tail, t).table == Apply(t, es)
    ensures Parse(Encode(es) + tail, t).hasSet <==> InRange(t, es)
    decreases |es|
  {
    if es == [] {
      assert Encode(es) + tail == tail;
      IncompleteIgnored(tail, t);
    } else {
      EncodeFirst(es, tail);
      EntryRead(es[0], Encode(es[1..]) + tail, t);
      ParseApplies(es[1..], tail, Assign(t, es[0]));
      InRangeSplits(t, es);
    }
  }

  lemma InRangeSplits(t: Table, es: seq<Entry>)
    requires es != []
    ensures InRange(t, es) <==> es[0].chn < |t| || InRange(Assign(t, es[0]), es[1..])
  {
    if InRange(t, es) {
      var i :| 0 <= i < |es| && es[i].chn < |t|;
      if i > 0 {
        assert es[1..][i - 1] == es[i];
      }
    }
  }

  /** Every message is a list of entries and an incomplete rest. */
  lemma {:induction false} EveryMessage(msg: seq<Byte>) returns (es: seq<Entry>, tail: seq<Byte>)
    ensures msg == Encode(es) + tail && AllNulFree(es) && Incomplete(tail)
    decreases |msg|
  {
    if Incomplete(msg) {
      es, tail := [], msg;
    } else {
      var n := NulAt(msg[1..]);
      assert n < |msg| - 1;
      var e := Entry(msg[0], msg[1..n + 1]);
      assert NulFree(e.name) by {
        assert forall i :: 0 <= i < n ==> e.name[i] == msg[1..][i];
      }
      var es', tail' := EveryMessage(msg[n + 2..]);
      es, tail := [e] + es', tail';
      assert es[1..] == es';
      assert msg[n + 1] == msg[1..][n] == 0;
      assert msg == [e.chn] + e.name + [0] + msg[n + 2..];
    }
  }

  lemma {:induction false} ApplyAt(t: Table, es: seq<Entry>, c: nat)
    requires c < |t|
    ensures Apply(t, es)[c] == t[c] ||
            exists i :: 0 <= i < |es| && es[i].chn == c && es[i].name == Apply(t, es)[c]
    decreases |es|
  {
    if es != [] {
      ApplyAt(Assign(t, es[0]), es[1..], c);
      var v := Apply(t, es)[c];
      if v != t[c] {
        if v == Assign(t, es[0])[c] {
          assert es[0].chn == c && es[0].name == v;
        } else {
          var i :| 0 <= i < |es| - 1 && es[1..][i].chn == c && es[1..][i].name == v;
          assert es[i + 1].chn == c && es[i + 1].name == v;
        }
      }
    }
  }

  /** Main result about the parser, for all byte strings: a channel is either left alone or gets the
      name of a complete entry of the message that names it; what the message sets can have no NUL;
      and if nothing was set the table is as before. */
  lemma ParserSets(msg: seq<Byte>, t: Table) returns (es: seq<Entry>, tail: seq<Byte>)
    ensures msg == Encode(es) + tail && AllNulFree(es) && Incomplete(tail)
    ensures var r := Parse(msg, t);
            && (r.hasSet <==> InRange(t, es)) && (!r.hasSet ==> r.table == t)
            && forall c :: 0 <= c < |t| ==>
                 r.table[c] == t[c] || exists i :: 0 <= i < |es| && es[i].chn == c && es[i].name == r.table[c]
  {
    es, tail := EveryMessage(msg);
    ParseApplies(es, tail, t);
    var r := Parse(msg, t);
    forall c: nat | c < |t|
      ensures r.table[c] == t[c] || exists i :: 0 <= i < |es| && es[i].chn == c && es[i].name == r.table[c]
    {
      ApplyAt(t, es, c);
    }
    if !r.hasSet {
      assert forall i :: 0 <= i < |es| ==> |t| <= es[i].chn;
    }
  }

  // ---------------------------------------------------------------------------------------
  // The round trip

  function Blank(n: nat): (t: Table)
    ensures |t| == n
  {
    seq(n, _ => [])
  }

  /** The entries that printing the first `k` names makes. */
  function EntriesOf(t: Table, k: nat): seq<Entry>
    requires k <= |t|
  {
    if k == 0 then []
    else if t[k - 1] == [] then EntriesOf(t, k - 1)
    else EntriesOf(t, k - 1) + [Entry((k - 1) % 256, t[k - 1])]
  }

  lemma {:induction false} EncodeConcat(a: seq<Entry>, b: seq<Entry>)
    ensures Encode(a + b) == Encode(a) + Encode(b)
    decreases |a|
  {
    if a == [] {
      assert a + b == b;
    } else {
      assert (a + b)[1..] == a[1..] + b;
      EncodeConcat(a[1..], b);
      assert Encode(a + b) == [a[0].chn] + a[0].name + [0] + Encode(a[1..] + b);
    }
  }

  lemma {:induction false} PrintEncodes(t: Table, k: nat)
    requires k <= |t|
    ensures Print(t, k) == Encode(EntriesOf(t, k))
  {
    if k > 0 {
      PrintEncodes(t, k - 1);
      if t[k - 1] != [] {
        var e := [Entry((k - 1) % 256, t[k - 1])];
        EncodeConcat(EntriesOf(t, k - 1), e);
        assert Encode(e) == [(k - 1) % 256] + t[k - 1] + [0];
      }
    }
  }

  lemma {:induction false} ApplyConcat(t: Table, a: seq<Entry>, b: seq<Entry>)
    ensures Apply(t, a + b) == Apply(Apply(t, a), b)
    decreases |a|
  {
    if a == [] {
      assert a + b == b;
    } else {
      assert (a + b)[1..] == a[1..] + b;
      ApplyConcat(Assign(t, a[0]), a[1..], b);
    }
  }

  lemma ApplyOne(t: Table, e: Entry)
    ensures Apply(t, [e]) == Assign(t, e)
  {
    assert [e][1..] == [];
  }

  /** A channel number has one byte, and a name cannot hold its own end. */
  ghost predicate Sendable(t: Table) {
    forall i :: 0 <= i < |t| ==> NulFree(t[i]) && (256 <= i ==> t[i] == [])
  }

  lemma FillNext(t: Table, k: nat)
    requires 0 < k <= |t|
    ensures (t[..k - 1] + Blank(|t| - (k - 1)))[k - 1 := t[k - 1]] == t[..k] + Blank(|t| - k)
    ensures t[k - 1] == [] ==> t[..k - 1] + Blank(|t| - (k - 1)) == t[..k] + Blank(|t| - k)
  {
  }

  lemma {:induction false} EntriesRestore(t: Table, k: nat)
    requires k <= |t| && Sendable(t)
    ensures AllNulFree(EntriesOf(t, k))
    ensures Apply(Blank(|t|), EntriesOf(t, k)) == t[..k] + Blank(|t| - k)
  {
    if k == 0 {
      assert Apply(Blank(|t|), []) == t[..0] + Blank(|t|);
    } else {
      EntriesRestore(t, k - 1);
      var before := t[..k - 1] + Blank(|t| - (k - 1));
      FillNext(t, k);
      if t[k - 1] != [] {
        var e := Entry((k - 1) % 256, t[k - 1]);
        ApplyConcat(Blank(|t|), EntriesOf(t, k - 1), [e]);
        ApplyOne(before, e);
        assert e.chn == k - 1;
      }
    }
  }

  lemma OnlySendable(msg: seq<Byte>, n: nat)
    ensures Sendable(Parse(msg, Blank(n)).table)
  {
    var r := Parse(msg, Blank(n)).table;
    var es, tail := ParserSets(msg, Blank(n));
    forall c | 0 <= c < n ensures NulFree(r[c]) && (256 <= c ==> r[c] == []) {
      if r[c] != Blank(n)[c] {
        var i :| 0 <= i < |es| && es[i].chn == c && es[i].name == r[c];
      }
    }
  }

  /** Main result: reading back what was printed, into a blank table of the same size, restores the
      table exactly if no name holds a NUL and no channel above 255 has a name. */
  lemma RoundTrip(t: Table)
    ensures Parse(Print(t, |t|), Blank(|t|)).table == t <==> Sendable(t)
  {
    OnlySendable(Print(t, |t|), |t|);
    if Sendable(t) {
      PrintEncodes(t, |t|);
      EntriesRestore(t, |t|);
      ParseApplies(EntriesOf(t, |t|), [], Blank(|t|));
      assert Encode(EntriesOf(t, |t|)) + [] == Print(t, |t|);
      assert t[..|t|] + Blank(0) == t;
    }
  }

  // ---------------------------------------------------------------------------------------

  method StrNLen(s: seq<Byte>, p: nat) returns (n: nat)
    requires p <= |s|
    ensures n == NulAt(s[p..])
  {
    n := 0;
    while p + n < |s| && s[p + n] != 0
      invariant p + n <= |s| && forall i :: 0 <= i < n ==> s[p..][i] != 0
    {
      n := n + 1;
    }
  }

  /** What is left from `p` on completes the whole. */
  ghost predicate Leaves(msg: seq<Byte>, p: nat, t: Table, hasSet: bool, whole: Parsed)
    requires p <= |msg|
  {
    var r := Parse(msg[p..], t);
    whole == Parsed(r.table, hasSet || r.hasSet)
  }

  /** Reading the entry at `p`. */
  lemma LeavesNext(msg: seq<Byte>, p: nat, n: nat, t: Table, hasSet: bool, whole: Parsed)
    requires p + 1 < |msg| && n == NulAt(msg[p + 1..]) && Leaves(msg, p, t, hasSet, whole)
    ensures p + 1 + n == |msg| ==> whole == Parsed(t, hasSet)
    ensures p + 1 + n < |msg| && msg[p] < |t| ==>
              Leaves(msg, p + n + 2, t[msg[p] := msg[p + 1..p + 1 + n]], true, whole)
    ensures p + 1 + n < |msg| && |t| <= msg[p] ==> Leaves(msg, p + n + 2, t, hasSet, whole)
  {
    var here := msg[p..];
    assert here[1..] == msg[p + 1..];
    if p + 1 + n < |msg| {
      assert here[n + 2..] == msg[p + n + 2..] && here[1..n + 1] == msg[p + 1..p + 1 + n];
    }
  }

  class NamesConfig {
    var names: Table
    var nameId: nat

    constructor (names: Table)
      ensures this.names == names && nameId == 0
    {
      this.names, nameId := names, 0;
    }

    /** Read the entry at `p`, and tell where the next one is. */
    method ReadEntry(msg: seq<Byte>, p: nat, hasSet: bool, ghost whole: Parsed) returns (next: nat, anySet: bool)
      requires p + 1 < |msg| && Leaves(msg, p, names, hasSet, whole)
      modifies this`names
      ensures p < next <= |msg| && Leaves(msg, next, names, anySet, whole)
    {
      var chn := msg[p];
      var n := StrNLen(msg, p + 1);
      LeavesNext(msg, p, n, names, hasSet, whole);
      if p + 1 + n == |msg| {
        return |msg|, hasSet;
      }
      if chn < |names| {
        names := names[chn := msg[p + 1..p + 1 + n]];
        return p + n + 2, true;
      }
      return p + n + 2, hasSet;
    }

    method ProcessSetNames(msg: seq<Byte>) returns (hasSet: bool)
      modifies this
      ensures Parsed(names, hasSet) == Parse(msg, old(names))
      ensures nameId == old(nameId) + if hasSet then 1 else 0
    {
      hasSet := false;
      var p := 0;
      ghost var whole := Parse(msg, names);
      assert msg[0..] == msg;
      while p + 1 < |msg|
        invariant p <= |msg| && nameId == old(nameId)
        invariant Leaves(msg, p, names, hasSet, whole)
        decreases |msg| - p
      {
        p, hasSet := ReadEntry(msg, p, hasSet, whole);
      }
      if hasSet {
        nameId := nameId + 1;
      }
    }

    method ProcessGetNames() returns (msg: seq<Byte>)
      ensures msg == Print(names, |names|)
    {
      msg := [];
      for i := 0 to |names|
        invariant msg == Print(names, i)
      {
        var str := names[i];
        if str != [] {
          msg := msg + ([i % 256] + str + [0]);
        }
      }
    }
  }
}
