/** Fairness of the key ring (internal/key_state.go:14-60, 66-109, 127-192): with a frozen clock,
    one target and a fixed key list, consecutive calls go round the eligible keys. */
module RoundRobin {
  import opened Canonical
  import opened KeyRing

  // ----- The order is a permutation -----

  lemma {:induction false} OrderDistinct(start: nat, n: nat)
    ensures Distinct(Order(start, n))
  {
    forall i, j | 0 <= i < j < n
      ensures Order(start, n)[i] != Order(start, n)[j]
    {
      if Wrap(start + i, n) == Wrap(start + j, n) {
        var d := (start + j) / n - (start + i) / n;
        assert d * n == j - i;
        Multiples(d, n);
      }
    }
  }

  lemma OrderHasAll(start: nat, n: nat, p: nat)
    requires p < n
    ensures p in Order(start, n)
  {
    hide Wrap;
    var i := Wrap(p + (n - Wrap(start, n)), n);
    WrapEarly(start, i, n);
    WrapEarly(p + (n - Wrap(start, n)), Wrap(start, n), n);
    WrapRound(p, n);
    WrapSmall(p, n);
    assert Order(start, n)[i] == p;
  }

  /** The turns are the eligible positions, each once. */
  lemma TurnsAreTheEligible(ring: Ring, ask: Ask)
    ensures Distinct(Turns(ring, ask))
    ensures forall p :: p in Turns(ring, ask) <==> Eligible(ring, p, ask)
  {
    var order := Order(ring.next, |ring.keys|);
    OrderDistinct(ring.next, |ring.keys|);
    FilterDistinct(ring, order, ask);
    FilterMembers(ring, order, ask);
    forall p | Eligible(ring, p, ask) ensures p in order {
      OrderHasAll(ring.next, |ring.keys|, p);
    }
  }

  /** NextFor fails exactly when no key is eligible. */
  lemma FailsIff(ring: Ring, ask: Ask)
    ensures NextFor(ring, ask).0 == None <==> forall p :: !Eligible(ring, p, ask)
  {
    TurnsAreTheEligible(ring, ask);
    if Turns(ring, ask) != [] {
      assert Turns(ring, ask)[0] in Turns(ring, ask);
    }
  }

  // ----- One call -----

  lemma {:induction false} FirstOffset(ring: Ring, order: seq<nat>, ask: Ask) returns (i: nat)
    requires Filter(ring, order, ask) != []
    ensures i < |order| && order[i] == Filter(ring, order, ask)[0]
    ensures Filter(ring, order[..i], ask) == [] && Eligible(ring, order[i], ask)
  {
    hide Eligible;
    var before := order[..|order| - 1];
    if Filter(ring, before, ask) == [] {
      i := |order| - 1;
    } else {
      i := FirstOffset(ring, before, ask);
      assert order[..i] == before[..i];
    }
  }

  /** Dropping a stale entry makes no difference at the same time. */
  lemma StaleEntries(ring: Ring, ask: Ask)
    requires Turns(ring, ask) != []
    ensures forall p :: Eligible(NextFor(ring, ask).1, p, ask) <==> Eligible(ring, p, ask)
  {
    TurnsAreEligible(ring, ask);
    assert Turns(ring, ask)[0] in Turns(ring, ask);
  }

  lemma CursorGoesPast(ring: Ring, ask: Ask)
    requires Turns(ring, ask) != []
    ensures var after := NextFor(ring, ask).1;
            |ring.keys| > 0 && after.keys == ring.keys && after.next == Wrap(Turns(ring, ask)[0] + 1, |ring.keys|)
  {
    hide Turns, Wrap;
    TurnsAreEligible(ring, ask);
    assert Turns(ring, ask)[0] in Turns(ring, ask);
  }

  /** The order that starts past offset `i` filters to what comes after, then what came up to there. */
  lemma FilterTurned(ring: Ring, ask: Ask, i: nat)
    requires i < |ring.keys|
    requires Filter(ring, Order(ring.next, |ring.keys|)[..i], ask) == []
    requires Eligible(ring, Order(ring.next, |ring.keys|)[i], ask)
    ensures var order, n := Order(ring.next, |ring.keys|), |ring.keys|;
            Filter(ring, Order(Wrap(order[i] + 1, n), n), ask) == Filter(ring, order[i + 1..], ask) + [order[i]]
  {
    hide Eligible, Wrap, Order;
    var order, n := Order(ring.next, |ring.keys|), |ring.keys|;
    OrderTurns(ring.next, n, i);
    FilterAppend(ring, order[i + 1..], order[..i + 1], ask);
    assert order[..i + 1] == order[..i] + [order[i]];
    FilterAppend(ring, order[..i], [order[i]], ask);
    FilterOne(ring, order[i], ask);
  }

  /** A call takes the first turn and puts it last. */
  lemma TurnGoesLast(ring: Ring, ask: Ask)
    requires Turns(ring, ask) != []
    ensures var turns := Turns(ring, ask);
            Turns(NextFor(ring, ask).1, ask) == turns[1..] + [turns[0]]
  {
    hide Eligible, Wrap, Order, NextFor, Filter;
    var order, n := Order(ring.next, |ring.keys|), |ring.keys|;
    var i := FirstOffset(ring, order, ask);
    FirstTurn(ring, i, ask);
    CursorGoesPast(ring, ask);
    FilterTurned(ring, ask, i);
    var after := NextFor(ring, ask).1;
    StaleEntries(ring, ask);
    FilterSame(after, ring, Order(after.next, n), ask);
  }

  // ----- Many calls -----

  function After(ring: Ring, ask: Ask, calls: nat): (after: Ring)
    ensures after.keys == ring.keys
  {
    if calls == 0 then ring else NextFor(After(ring, ask, calls - 1), ask).1
  }

  lemma {:induction false} TurnsAfter(ring: Ring, ask: Ask, calls: nat)
    requires Turns(ring, ask) != []
    ensures var turns := Turns(ring, ask);
            var r := Wrap(calls, |turns|);
            Turns(After(ring, ask, calls), ask) == turns[r..] + turns[..r]
  {
    hide NextFor, Turns, Wrap;
    var turns := Turns(ring, ask);
    var n := |turns|;
    WrapSmall(0, n);
    if calls > 0 {
      TurnsAfter(ring, ask, calls - 1);
      var r := Wrap(calls - 1, n);
      TurnGoesLast(After(ring, ask, calls - 1), ask);
      WrapEarly(calls - 1, 1, n);
      if r + 1 < n {
        WrapSmall(r + 1, n);
        assert (turns[r..] + turns[..r])[1..] + [turns[r]] == turns[r + 1..] + turns[..r + 1];
      } else {
        WrapRound(0, n);
        assert (turns[r..] + turns[..r])[1..] + [turns[r]] == turns;
        assert turns[0..] + turns[..0] == turns;
      }
    } else {
      assert turns[0..] + turns[..0] == turns;
    }
  }

  function KeyAt(ring: Ring, p: nat): Option<Key> {
    if p < |ring.keys| then Some(ring.keys[p]) else None
  }

  lemma FirstTurnIsReturned(ring: Ring, ask: Ask)
    requires Turns(ring, ask) != []
    ensures NextFor(ring, ask).0 == KeyAt(ring, Turns(ring, ask)[0])
  {
    TurnsAreEligible(ring, ask);
    assert Turns(ring, ask)[0] in Turns(ring, ask);
  }

  /** The k-th call from now returns the key whose turn it is, going round and round. */
  lemma CallReturnsTurn(ring: Ring, ask: Ask, k: nat)
    requires Turns(ring, ask) != []
    ensures var turns := Turns(ring, ask);
            NextFor(After(ring, ask, k), ask).0 == KeyAt(ring, turns[Wrap(k, |turns|)])
  {
    hide Turns, NextFor, Wrap;
    TurnsAfter(ring, ask, k);
    var turns := Turns(ring, ask);
    var r := Wrap(k, |turns|);
    assert turns[r] == (turns[r..] + turns[..r])[0];
    FirstTurnIsReturned(After(ring, ask, k), ask);
  }

  /** The position the k-th call from now returns, if it returns a key. */
  function Returned(ring: Ring, ask: Ask, k: nat): Option<nat> {
    Position(After(ring, ask, k), ask)
  }

  function Position(ring: Ring, ask: Ask): Option<nat> {
    if Turns(ring, ask) == [] then None else Some(Turns(ring, ask)[0])
  }

  /** What a call returns is the key at its position, and the cursor goes past it. */
  lemma PositionIsReturned(ring: Ring, ask: Ask)
    ensures NextFor(ring, ask).0 == if Position(ring, ask).Some? then KeyAt(ring, Position(ring, ask).value) else None
    ensures Position(ring, ask).Some? ==>
              var p := Position(ring, ask).value;
              p < |ring.keys| && Eligible(ring, p, ask) && NextFor(ring, ask).1.next == Wrap(p + 1, |ring.keys|)
    ensures Position(ring, ask).None? ==> NextFor(ring, ask).1 == ring
  {
    hide Eligible, Turns, Wrap;
    if Turns(ring, ask) != [] {
      TurnsAreEligible(ring, ask);
      assert Turns(ring, ask)[0] in Turns(ring, ask);
      EligibleInside(ring, Turns(ring, ask)[0], ask);
    }
  }

  lemma EligibleInside(ring: Ring, p: nat, ask: Ask)
    requires Eligible(ring, p, ask)
    ensures p < |ring.keys|
  {}

  /** Round-robin completeness: of any m consecutive calls, m the number of eligible keys, exactly
      one returns each eligible position. */
  lemma EachKeyOnce(ring: Ring, ask: Ask, from: nat, p: nat)
    requires Eligible(ring, p, ask)
    ensures var m := |EligibleSet(ring, ask)|;
            && (exists k: nat :: from <= k < from + m && Returned(ring, ask, k) == Some(p))
            && (forall k: nat, l: nat | from <= k < l < from + m :: !(Returned(ring, ask, k) == Some(p) == Returned(ring, ask, l)))
  {
    hide Turns, Eligible, Wrap, Order, EligibleSet, After;
    TurnsAreTheEligible(ring, ask);
    TurnsCount(ring, ask);
    var turns := Turns(ring, ask);
    var i :| 0 <= i < |turns| && turns[i] == p;
    var n := |turns|;
    forall k: nat ensures Returned(ring, ask, k) == Some(turns[Wrap(k, n)]) {
      CallTakesTurn(ring, ask, k);
    }
    OrderHasAll(from, n, i);
    var j :| 0 <= j < n && Order(from, n)[j] == i;
    OrderAt(from, n, j);
    assert Returned(ring, ask, from + j) == Some(p);
    forall k: nat, l: nat | from <= k < l < from + n
      ensures !(Returned(ring, ask, k) == Some(p) == Returned(ring, ask, l))
    {
      OrderDistinct(from, n);
      OrderAt(from, n, k - from);
      OrderAt(from, n, l - from);
    }
  }

  lemma OrderAt(start: nat, n: nat, i: nat)
    requires i < n
    ensures Order(start, n)[i] == Wrap(start + i, n)
  {}

  lemma CallTakesTurn(ring: Ring, ask: Ask, k: nat)
    requires Turns(ring, ask) != []
    ensures var turns := Turns(ring, ask); Returned(ring, ask, k) == Some(turns[Wrap(k, |turns|)])
  {
    hide Turns, NextFor, Wrap, After;
    TurnsAfter(ring, ask, k);
    var turns := Turns(ring, ask);
    var r := Wrap(k, |turns|);
    assert turns[r] == (turns[r..] + turns[..r])[0];
  }

  /** There are as many turns as eligible positions; each is one. */
  lemma TurnsCount(ring: Ring, ask: Ask)
    ensures |Turns(ring, ask)| == |EligibleSet(ring, ask)|
    ensures multiset(Turns(ring, ask)) == multiset(EligibleSet(ring, ask))
  {
    hide Turns, Eligible;
    TurnsAreTheEligible(ring, ask);
    forall p: nat | Eligible(ring, p, ask) ensures p < |ring.keys| {
      EligibleInside(ring, p, ask);
    }
    DistinctIsSet(Turns(ring, ask), EligibleSet(ring, ask));
  }

  lemma {:induction false} DistinctIsSet(s: seq<nat>, e: set<nat>)
    requires Distinct(s) && forall x: nat :: x in s <==> x in e
    ensures |s| == |e| && multiset(s) == multiset(e)
    decreases |s|
  {
    if s == [] {
      assert e == {};
    } else {
      var before, last := s[..|s| - 1], s[|s| - 1];
      assert s == before + [last] && last !in before;
      forall x: nat ensures x in before <==> x in e - {last} {}
      DistinctIsSet(before, e - {last});
      OneMore(before, last, e);
    }
  }

  lemma OneMore(before: seq<nat>, last: nat, e: set<nat>)
    requires last in e && |before| == |e - {last}| && multiset(before) == multiset(e - {last})
    ensures |before + [last]| == |e| && multiset(before + [last]) == multiset(e)
  {
    assert e == (e - {last}) + {last};
    assert multiset(e) == multiset(e - {last}) + multiset{last};
  }
}
