/** The state id (lib/ctrl_iface.cpp): a client that sees the same id twice, with no sequence
    running, may keep using what it has read in between. */
module StateId {
  /** `hadSeq` is what the last query said. */
  datatype Ids = Ids(dirty: bool, observed: bool, hadSeq: bool, cnt: nat)

  datatype Event =
    | Mutate               // a set, override, reset or run request
    | Observe              // some value is read
    | Query(hasSeq: bool)

  /** What a query returns: the top bit and the counter. */
  datatype Id = Id(running: bool, cnt: nat)

  function SetDirty(s: Ids): Ids {
    if s.observed && !s.hadSeq then s.(dirty := true) else s
  }

  function Asked(s: Ids, hasSeq: bool): Ids {
    if hasSeq != s.hadSeq || s.dirty then Ids(false, false, hasSeq, s.cnt + 1) else s
  }

  function Step(s: Ids, e: Event): Ids {
    match e
    case Mutate => SetDirty(s)
    case Observe => s.(observed := true)
    case Query(hasSeq) => Asked(s, hasSeq)
  }

  function After(s: Ids, es: seq<Event>): Ids {
    if es == [] then s else Step(After(s, es[..|es| - 1]), es[|es| - 1])
  }

  /** What the query that is event `i` returns. */
  function IdAt(s: Ids, es: seq<Event>, i: nat): Id
    requires i < |es| && es[i].Query?
  {
    Id(es[i].hasSeq, After(s, es[..i + 1]).cnt)
  }

  lemma AfterNext(s: Ids, es: seq<Event>, i: nat)
    requires i < |es|
    ensures After(s, es[..i + 1]) == Step(After(s, es[..i]), es[i])
  {
    assert es[..i + 1][..i] == es[..i];
  }

  /** The counter never goes down, and one query adds at most one. */
  lemma {:induction false} Monotone(s: Ids, es: seq<Event>, i: nat, j: nat)
    requires i <= j <= |es|
    ensures After(s, es[..i]).cnt <= After(s, es[..j]).cnt
    ensures After(s, es[..j]).cnt - After(s, es[..i]).cnt <= Queries(es[i..j])
  {
    if i < j {
      Monotone(s, es, i, j - 1);
      AfterNext(s, es, j - 1);
      assert es[i..j][..j - 1 - i] == es[i..j - 1];
    }
  }

  function Queries(es: seq<Event>): nat {
    if es == [] then 0 else Queries(es[..|es| - 1]) + if es[|es| - 1].Query? then 1 else 0
  }

  /** As long as the counter stands still after an idle query, no query finds anything. */
  lemma {:induction false} Still(s: Ids, es: seq<Event>, a: nat, i: nat)
    requires a < i <= |es| && es[a] == Query(false)
    requires After(s, es[..i]).cnt == After(s, es[..a + 1]).cnt
    ensures !After(s, es[..i]).hadSeq
    ensures (forall r :: a < r < i ==> es[r] != Observe) || After(s, es[..i]).observed
  {
    AfterNext(s, es, i - 1);
    if i > a + 1 {
      Monotone(s, es, a + 1, i - 1);
      Monotone(s, es, i - 1, i);
      Still(s, es, a, i - 1);
    }
  }

  /** A change that matters stays visible until a query answers with a new id. */
  lemma {:induction false} DirtyShows(s: Ids, es: seq<Event>, m: nat, b: nat)
    requires m < b < |es| && After(s, es[..m + 1]).dirty && es[b].Query?
    ensures After(s, es[..b + 1]).cnt > After(s, es[..m + 1]).cnt
    decreases b - m
  {
    AfterNext(s, es, m + 1);
    if m + 1 == b {
      assert After(s, es[..b + 1]) == Step(After(s, es[..b]), es[b]);
    } else if es[m + 1].Query? {
      Monotone(s, es, m + 2, b + 1);
    } else {
      DirtyShows(s, es, m + 1, b);
    }
  }

  /** Main result: if two queries return the same id and no sequence is running, and something was
      read at `r` between them, then nothing was changed between that and the second query. */
  lemma SameIdMeansUnchanged(s: Ids, es: seq<Event>, a: nat, r: nat, b: nat, m: nat)
    requires a < r < m < b < |es| && es[a].Query? && es[b].Query? && es[r] == Observe
    requires IdAt(s, es, a) == IdAt(s, es, b) && !IdAt(s, es, a).running
    ensures es[m] != Mutate
  {
    if es[m] == Mutate {
      Monotone(s, es, a + 1, m);
      Monotone(s, es, m, b + 1);
      Still(s, es, a, m);
      AfterNext(s, es, m);
      DirtyShows(s, es, m, b);
      assert false;
    }
  }

  /** A change after someone has looked. */
  ghost predicate Noticed(observed: bool, es: seq<Event>) {
    exists m :: 0 <= m < |es| && es[m] == Mutate && (observed || exists r :: 0 <= r < m && es[r] == Observe)
  }

  ghost predicate Idle(es: seq<Event>) {
    forall i :: 0 <= i < |es| && es[i].Query? ==> !es[i].hasSeq
  }

  lemma {:induction false} UnnoticedKeeps(s: Ids, es: seq<Event>)
    requires !s.dirty && !s.hadSeq && Idle(es) && !Noticed(s.observed, es)
    ensures var s' := After(s, es);
            && !s'.dirty && !s'.hadSeq && s'.cnt == s.cnt
            && (s'.observed <==> s.observed || Observe in es)
  {
    if es != [] {
      var es' := es[..|es| - 1];
      assert forall i :: 0 <= i < |es'| ==> es'[i] == es[i];
      UnnoticedKeeps(s, es');
      assert es == es' + [es[|es| - 1]];
      assert es[|es| - 1] == Mutate && (s.observed || Observe in es') ==> Noticed(s.observed, es);
    }
  }

  /** The observation flag is only ever lost to a new id. */
  lemma {:induction false} NoticedShows(s: Ids, es: seq<Event>)
    requires !s.hadSeq && Idle(es) && Noticed(s.observed, es)
    ensures After(s, es).cnt > s.cnt || (After(s, es).cnt == s.cnt && After(s, es).dirty)
  {
    var m :| 0 <= m < |es| && es[m] == Mutate && (s.observed || exists r :: 0 <= r < m && es[r] == Observe);
    Looked(s, es, m);
    AfterNext(s, es, m);
    Monotone(s, es, 0, m);
    assert es[..|es|] == es;
    Monotone(s, es, m + 1, |es|);
    if After(s, es).cnt == s.cnt {
      StaysDirty(s, es, m + 1, |es|);
    }
  }

  lemma {:induction false} Looked(s: Ids, es: seq<Event>, m: nat)
    requires m <= |es| && !s.hadSeq && Idle(es)
    requires s.observed || exists r :: 0 <= r < m && es[r] == Observe
    ensures !After(s, es[..m]).hadSeq && After(s, es[..m]).cnt >= s.cnt
    ensures After(s, es[..m]).cnt > s.cnt || After(s, es[..m]).observed
  {
    if m > 0 {
      AfterNext(s, es, m - 1);
      IdleStays(s, es, m - 1);
      Monotone(s, es, 0, m - 1);
      if s.observed || exists r :: 0 <= r < m - 1 && es[r] == Observe {
        Looked(s, es, m - 1);
      }
    }
  }

  lemma {:induction false} IdleStays(s: Ids, es: seq<Event>, m: nat)
    requires m <= |es| && !s.hadSeq && Idle(es)
    ensures !After(s, es[..m]).hadSeq
  {
    if m > 0 {
      AfterNext(s, es, m - 1);
      IdleStays(s, es, m - 1);
    }
  }

  lemma {:induction false} StaysDirty(s: Ids, es: seq<Event>, i: nat, j: nat)
    requires i <= j <= |es| && After(s, es[..i]).dirty
    requires After(s, es[..j]).cnt == After(s, es[..i]).cnt
    ensures After(s, es[..j]).dirty
  {
    if i < j {
      Monotone(s, es, i, j - 1);
      Monotone(s, es, j - 1, j);
      AfterNext(s, es, j - 1);
      StaysDirty(s, es, i, j - 1);
    }
  }

  /** With no sequence around, the next id is the same exactly if nobody changed anything after
      someone had looked. `s` is the state after a query. */
  lemma SameIdIff(s: Ids, es: seq<Event>)
    requires !s.dirty && !s.hadSeq && Idle(es)
    ensures After(s, es + [Query(false)]).cnt == s.cnt <==> !Noticed(s.observed, es)
  {
    assert (es + [Query(false)])[..|es|] == es;
    if Noticed(s.observed, es) {
      NoticedShows(s, es);
    } else {
      UnnoticedKeeps(s, es);
    }
  }
}
