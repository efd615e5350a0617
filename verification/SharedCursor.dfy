/** One cursor for all targets (internal/key_state.go:14-37): when two targets, or two models, take
    turns in any order, and each is served fairly. */
module SharedCursor {
  import opened Canonical
  import opened KeyRing
  import opened RoundRobin

  // ----- Runs of two askers -----

  function Asker(a: Ask, b: Ask, isA: bool): Ask {
    if isA then a else b
  }

  /** The ring after calls in a given order; `true` is a call of the first asker. */
  function AfterCalls(ring: Ring, a: Ask, b: Ask, who: seq<bool>): Ring {
    if who == [] then ring else
      NextFor(AfterCalls(ring, a, b, who[..|who| - 1]), Asker(a, b, who[|who| - 1])).1
  }

  /** The positions returned to the first asker. */
  function Served(ring: Ring, a: Ask, b: Ask, who: seq<bool>): seq<nat> {
    if who == [] then [] else
      var before := who[..|who| - 1];
      var p := Position(AfterCalls(ring, a, b, before), a);
      Served(ring, a, b, before) + if who[|who| - 1] && p.Some? then [p.value] else []
  }

  /** The m consecutive keys returned to the first asker from the i-th on, m the number of keys
      eligible for it, are these keys, each once. */
  ghost predicate EachOnce(ring: Ring, a: Ask, b: Ask, who: seq<bool>, i: nat) {
    var served, eligible := Served(ring, a, b, who), EligibleSet(ring, a);
    i + |eligible| <= |served| ==> multiset(served[i..i + |eligible|]) == multiset(eligible)
  }

  /** So it is from every key on, in whatever order the two call. */
  ghost predicate Fair(ring: Ring, a: Ask, b: Ask) {
    forall who: seq<bool>, i: nat :: EachOnce(ring, a, b, who, i)
  }

  lemma CallsSnoc(ring: Ring, a: Ask, b: Ask, who: seq<bool>, isA: bool)
    ensures AfterCalls(ring, a, b, who + [isA]) == NextFor(AfterCalls(ring, a, b, who), Asker(a, b, isA)).1
    ensures var p := Position(AfterCalls(ring, a, b, who), a);
            Served(ring, a, b, who + [isA]) == if isA && p.Some? then Served(ring, a, b, who) + [p.value] else Served(ring, a, b, who)
  {
    hide NextFor, Position;
    assert (who + [isA])[..|who|] == who;
  }

  // ----- Calls change nothing but the cursor -----

  /** Two rings with the same keys, of which the same cool. */
  ghost predicate Alike(r: Ring, s: Ring, now: int) {
    r.keys == s.keys && forall id: string :: Cooling(r, id, now) <==> Cooling(s, id, now)
  }

  lemma AlikeEligible(r: Ring, s: Ring, ask: Ask)
    requires Alike(r, s, ask.now)
    ensures forall p: nat :: Eligible(r, p, ask) <==> Eligible(s, p, ask)
    ensures EligibleSet(r, ask) == EligibleSet(s, ask)
    ensures r.next == s.next ==> Turns(r, ask) == Turns(s, ask)
  {
    hide Cooling, IDOf, Matches;
    if r.next == s.next {
      FilterSame(r, s, Order(r.next, |r.keys|), ask);
    }
  }

  lemma CallKeepsAlike(ring: Ring, ask: Ask)
    ensures Alike(NextFor(ring, ask).1, ring, ask.now)
  {
    hide Turns, IDOf, Matches;
    if Turns(ring, ask) != [] {
      TurnsAreEligible(ring, ask);
      assert Turns(ring, ask)[0] in Turns(ring, ask);
    }
  }

  lemma {:induction false} CallsKeepAlike(ring: Ring, a: Ask, b: Ask, who: seq<bool>)
    requires a.now == b.now
    ensures Alike(AfterCalls(ring, a, b, who), ring, a.now)
  {
    hide NextFor, Cooling;
    if who != [] {
      var before := who[..|who| - 1];
      CallsKeepAlike(ring, a, b, before);
      CallKeepsAlike(AfterCalls(ring, a, b, before), Asker(a, b, who[|who| - 1]));
    }
  }

  // ----- Alone, or with one key: fair -----

  /** Without a key for the second asker, the first goes round as if it were alone. */
  lemma {:induction false} AloneServed(ring: Ring, a: Ask, b: Ask, who: seq<bool>)
    requires a.now == b.now && EligibleSet(ring, b) == {} && Turns(ring, a) != []
    ensures var served, turns := Served(ring, a, b, who), Turns(ring, a);
            && AfterCalls(ring, a, b, who) == After(ring, a, |served|)
            && forall k | 0 <= k < |served| :: served[k] == turns[Wrap(k, |turns|)]
  {
    hide NextFor, Turns, Wrap, EligibleSet, After, AfterCalls, Served, Position;
    AtFirst(ring, a, b);
    if who != [] {
      var before, isA := who[..|who| - 1], who[|who| - 1];
      assert who == before + [isA];
      AloneServed(ring, a, b, before);
      CallsSnoc(ring, a, b, before, isA);
      var now, n := AfterCalls(ring, a, b, before), |Served(ring, a, b, before)|;
      if isA {
        CallTakesTurn(ring, a, n);
        AfterOneMore(ring, a, n);
      } else {
        CallsKeepAlike(ring, a, b, before);
        AlikeEligible(now, ring, b);
        NoneMoves(now, b);
      }
    }
  }

  lemma AtFirst(ring: Ring, a: Ask, b: Ask)
    ensures AfterCalls(ring, a, b, []) == ring && Served(ring, a, b, []) == [] && After(ring, a, 0) == ring
  {}

  lemma NoneMoves(ring: Ring, ask: Ask)
    requires EligibleSet(ring, ask) == {}
    ensures NextFor(ring, ask).1 == ring
  {
    hide Eligible;
    TurnsCount(ring, ask);
  }

  lemma {:induction false} ServedAreEligible(ring: Ring, a: Ask, b: Ask, who: seq<bool>)
    requires a.now == b.now
    ensures forall p <- Served(ring, a, b, who) :: p in EligibleSet(ring, a)
  {
    hide NextFor, Turns, Eligible;
    if who != [] {
      var before := who[..|who| - 1];
      ServedAreEligible(ring, a, b, before);
      CallsKeepAlike(ring, a, b, before);
      var now := AfterCalls(ring, a, b, before);
      AlikeEligible(now, ring, a);
      PositionIsReturned(now, a);
    }
  }

  lemma AloneIsFair(ring: Ring, a: Ask, b: Ask, who: seq<bool>, i: nat)
    requires a.now == b.now && EligibleSet(ring, b) == {}
    ensures EachOnce(ring, a, b, who, i)
  {
    hide Turns, EligibleSet, Served, Wrap, Alike;
    TurnsCount(ring, a);
    var turns, m := Turns(ring, a), |EligibleSet(ring, a)|;
    var served := Served(ring, a, b, who);
    if i + m <= |served| && turns == [] {
      assert served[i..i + m] == [];
    } else if i + m <= |served| {
      AloneServed(ring, a, b, who);
      OnceRound(turns, i, served[i..i + m]);
    }
  }

  lemma OneIsFair(ring: Ring, a: Ask, b: Ask, who: seq<bool>, i: nat)
    requires a.now == b.now && |EligibleSet(ring, a)| <= 1
    ensures EachOnce(ring, a, b, who, i)
  {
    hide EligibleSet, Served;
    ServedAreEligible(ring, a, b, who);
    var served, e := Served(ring, a, b, who), EligibleSet(ring, a);
    if i <= |served| && |e| == 0 {
      assert e == {} && served[i..i] == [];
    } else if i < |served| {
      var p := served[i];
      assert p in served;
      OneMember(e, p);
      assert served[i..i + 1] == [p] && e == {p};
    }
  }

  lemma OneMember(e: set<nat>, p: nat)
    requires |e| == 1 && p in e
    ensures e == {p}
  {
    assert |e - {p}| == 0;
    assert e == (e - {p}) + {p};
  }

  // ----- Otherwise: not -----

  function Calls(isA: bool, n: nat): (calls: seq<bool>)
    ensures |calls| == n
  {
    seq(n, k => isA)
  }

  /** Calls of one asker alone, after others. */
  lemma {:induction false} CallsAlone(ring: Ring, a: Ask, b: Ask, who: seq<bool>, isA: bool, n: nat)
    ensures AfterCalls(ring, a, b, who + Calls(isA, n)) == After(AfterCalls(ring, a, b, who), Asker(a, b, isA), n)
    ensures !isA ==> Served(ring, a, b, who + Calls(isA, n)) == Served(ring, a, b, who)
  {
    hide NextFor, Position;
    if n == 0 {
      assert who + Calls(isA, 0) == who;
    } else {
      CallsAlone(ring, a, b, who, isA, n - 1);
      assert who + Calls(isA, n) == who + Calls(isA, n - 1) + [isA];
      CallsSnoc(ring, a, b, who + Calls(isA, n - 1), isA);
    }
  }

  /** Some calls of the second asker bring the cursor just past a position eligible for it. */
  lemma BringsTo(ring: Ring, a: Ask, b: Ask, who: seq<bool>, p: nat) returns (n: nat)
    requires a.now == b.now && Eligible(ring, p, b)
    ensures p < |ring.keys|
    ensures AfterCalls(ring, a, b, who + Calls(false, n)).next == Wrap(p + 1, |ring.keys|)
    ensures Served(ring, a, b, who + Calls(false, n)) == Served(ring, a, b, who)
  {
    hide NextFor, Turns, Wrap, Eligible, EligibleSet, Cooling;
    EligibleInside(ring, p, b);
    CallsKeepAlike(ring, a, b, who);
    var now := AfterCalls(ring, a, b, who);
    AlikeEligible(now, ring, b);
    EachKeyOnce(now, b, 0, p);
    var k: nat :| Returned(now, b, k) == Some(p);
    PositionIsReturned(After(now, b, k), b);
    n := k + 1;
    AfterOneMore(now, b, k);
    CallsAlone(ring, a, b, who, false, n);
    assert After(now, b, k).keys == now.keys == ring.keys;
    assert Returned(now, b, k) == Position(After(now, b, k), b);
  }

  lemma AfterOneMore(ring: Ring, ask: Ask, k: nat)
    ensures After(ring, ask, k + 1) == NextFor(After(ring, ask, k), ask).1
    ensures After(ring, ask, k).keys == ring.keys
  {
    hide NextFor;
  }

  /** With the cursor just past `p`, the first asker is given the same key every time. */
  lemma ServedPast(ring: Ring, a: Ask, b: Ask, who: seq<bool>, p: nat)
    requires a.now == b.now && p < |ring.keys| && EligibleSet(ring, a) != {}
    requires AfterCalls(ring, a, b, who).next == Wrap(p + 1, |ring.keys|)
    ensures var past := Position(ring.(next := Wrap(p + 1, |ring.keys|)), a);
            past.Some? && Served(ring, a, b, who + [true]) == Served(ring, a, b, who) + [past.value]
  {
    hide NextFor, Turns, Wrap, Eligible, EligibleSet, Cooling;
    var past, now := ring.(next := Wrap(p + 1, |ring.keys|)), AfterCalls(ring, a, b, who);
    CallsKeepAlike(ring, a, b, who);
    AlikePast(now, past, ring, a.now);
    AlikeEligible(past, ring, a);
    AlikeEligible(now, past, a);
    TurnsCount(past, a);
    CallsSnoc(ring, a, b, who, true);
  }

  lemma AlikePast(now: Ring, past: Ring, ring: Ring, at: int)
    requires Alike(now, ring, at) && past == ring.(next := past.next)
    ensures Alike(now, past, at) && Alike(past, ring, at)
  {
    forall id: string
      ensures Cooling(now, id, at) <==> Cooling(past, id, at)
      ensures Cooling(past, id, at) <==> Cooling(ring, id, at)
    {
      assert Cooling(now, id, at) <==> Cooling(ring, id, at);
    }
  }

  /** Further calls of the first asker are all served. */
  lemma {:induction false} AllServed(ring: Ring, a: Ask, b: Ask, who: seq<bool>, n: nat)
    requires a.now == b.now && EligibleSet(ring, a) != {}
    ensures var before, after := Served(ring, a, b, who), Served(ring, a, b, who + Calls(true, n));
            |after| == |before| + n && after[..|before|] == before
  {
    hide NextFor, Turns, EligibleSet, Eligible;
    if n == 0 {
      assert who + Calls(true, 0) == who;
    } else {
      AllServed(ring, a, b, who, n - 1);
      var so := who + Calls(true, n - 1);
      assert who + Calls(true, n) == so + [true];
      CallsSnoc(ring, a, b, so, true);
      CallsKeepAlike(ring, a, b, so);
      AlikeEligible(AfterCalls(ring, a, b, so), ring, a);
      TurnsCount(AfterCalls(ring, a, b, so), a);
    }
  }

  /** A key twice among two: the window of as many calls as eligible keys repeats one. */
  lemma TwiceIsUnfair(ring: Ring, a: Ask, b: Ask, p: nat)
    requires a.now == b.now && |EligibleSet(ring, a)| >= 2 && Eligible(ring, p, b)
    ensures !Fair(ring, a, b)
  {
    hide NextFor, Turns, Wrap, Eligible, EligibleSet, Position, Served, AfterCalls;
    var m := |EligibleSet(ring, a)|;
    var n := BringsTo(ring, a, b, [], p);
    var one := [] + Calls(false, n);
    ServedPast(ring, a, b, one, p);
    var k := BringsTo(ring, a, b, one + [true], p);
    var two := one + [true] + Calls(false, k);
    ServedPast(ring, a, b, two, p);
    AtFirst(ring, a, b);
    var past := Position(ring.(next := Wrap(p + 1, |ring.keys|)), a).value;
    assert Served(ring, a, b, two + [true]) == [past, past];
    AllServed(ring, a, b, two + [true], m - 2);
    var served := Served(ring, a, b, two + [true] + Calls(true, m - 2));
    assert served[0..0 + m] == served;
    assert served == served[..2] + served[2..] && served[..2] == [past, past];
    assert multiset(served) == multiset([past, past]) + multiset(served[2..]);
    assert multiset(EligibleSet(ring, a))[past] <= 1;
    assert !EachOnce(ring, a, b, two + [true] + Calls(true, m - 2), 0);
  }

  /** With a frozen clock and a fixed ring, an asker is served fairly in every order of its own calls
      and another's exactly when it has at most one eligible key or the other has none. */
  lemma FairIff(ring: Ring, a: Ask, b: Ask)
    requires a.now == b.now
    ensures Fair(ring, a, b) <==> |EligibleSet(ring, a)| <= 1 || EligibleSet(ring, b) == {}
  {
    hide EligibleSet, Served, Eligible, EachOnce;
    if |EligibleSet(ring, a)| <= 1 {
      forall who: seq<bool>, i: nat ensures EachOnce(ring, a, b, who, i) {
        OneIsFair(ring, a, b, who, i);
      }
    } else if EligibleSet(ring, b) == {} {
      forall who: seq<bool>, i: nat ensures EachOnce(ring, a, b, who, i) {
        AloneIsFair(ring, a, b, who, i);
      }
    } else {
      var p := SomeEligible(ring, b);
      TwiceIsUnfair(ring, a, b, p);
    }
  }

  lemma SomeEligible(ring: Ring, ask: Ask) returns (p: nat)
    requires EligibleSet(ring, ask) != {}
    ensures Eligible(ring, p, ask)
  {
    hide Eligible;
    p :| p in EligibleSet(ring, ask);
  }

  // ----- A run that starves -----

  const B := Key(1, 2, "two", 1, "b")
  const A1 := Key(2, 1, "one", 2, "a1")
  const A2 := Key(3, 1, "one", 3, "a2")
  const ONE := Target(1, "one", "m")
  const TWO := Target(2, "two", "m")

  /** `calls` pairs of calls, one for each target. */
  function Alternate(ring: Ring, calls: nat, now: int): Ring {
    if calls == 0 then ring else
      var before := Alternate(ring, calls - 1, now);
      NextFor(NextFor(before, Ask("m", ONE, now)).1, Ask("m", TWO, now)).1
  }

  /** The cursor is shared by all targets. Two targets that take turns can keep it away from a
      key for ever: of the two keys that serve the first target, only a1 is ever returned. */
  lemma {:induction false} SharedCursorStarves(calls: nat, now: int)
    ensures var ring := Alternate(Ring([B, A1, A2], 1, 0, 0, map[], map[], {}, map[]), calls, now);
            && ring.keys == [B, A1, A2] && ring.next == 1 && ring.exhausted == map[]
            && NextFor(ring, Ask("m", ONE, now)).0 == Some(A1)
            && forall p :: Eligible(ring, p, Ask("m", ONE, now)) <==> p == 1 || p == 2
  {
    hide CooldownID;
    var start := Ring([B, A1, A2], 1, 0, 0, map[], map[], {}, map[]);
    var ring := Alternate(start, calls, now);
    if calls > 0 {
      SharedCursorStarves(calls - 1, now);
      var before := Alternate(start, calls - 1, now);
      FirstCall(before, now);
      var middle := NextFor(before, Ask("m", ONE, now)).1;
      SecondCall(middle, now);
    }
    FirstCall(ring, now);
  }

  lemma FirstCall(ring: Ring, now: int)
    requires ring.keys == [B, A1, A2] && ring.next == 1 && ring.exhausted == map[]
    ensures NextFor(ring, Ask("m", ONE, now)) == (Some(A1), ring.(next := 2))
  {
    hide CooldownID;
    var ask := Ask("m", ONE, now);
    assert Order(1, 3) == [1, 2, 0];
    assert Eligible(ring, 1, ask);
    assert [1, 2, 0][..0] == [];
    FirstTurn(ring, 0, ask);
    assert ring.exhausted - {IDOf(A1, ask)} == ring.exhausted;
  }

  lemma SecondCall(ring: Ring, now: int)
    requires ring.keys == [B, A1, A2] && ring.next == 2 && ring.exhausted == map[]
    ensures NextFor(ring, Ask("m", TWO, now)) == (Some(B), ring.(next := 1))
  {
    hide CooldownID;
    var ask := Ask("m", TWO, now);
    assert Order(2, 3) == [2, 0, 1];
    assert !Eligible(ring, 2, ask) && Eligible(ring, 0, ask);
    assert Order(2, 3)[..1] == [2];
    FilterOne(ring, 2, ask);
    FirstTurn(ring, 1, ask);
    assert ring.exhausted - {IDOf(B, ask)} == ring.exhausted;
  }
}
