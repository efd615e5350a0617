/** Rotation of route targets (internal/provider.go:179-237): each call starts the list of
    targets one further, by turns or by weight. */
module RouteRotation {
  import opened KeyRing

  datatype Route = Route(id: int, policy: string, weight: int)

  /** Where each public model's next selection starts. */
  type Counters = map<string, nat>

  function Clamp(weight: int): (w: nat)
    ensures 1 <= w <= 100
  {
    if weight <= 0 then 1 else if weight > 100 then 100 else weight
  }

  function Copies(t: Route, n: nat): seq<Route> {
    seq(n, i => t)
  }

  /** expandWeightedTargets. */
  function Expand(targets: seq<Route>): seq<Route> {
    if targets == [] then [] else
      var last := targets[|targets| - 1];
      Expand(targets[..|targets| - 1]) + Copies(last, Clamp(last.weight))
  }

  function Rotated(targets: seq<Route>, start: nat): seq<Route>
    requires start <= |targets|
  {
    targets[start..] + targets[..start]
  }

  /** The first target with an id; the end of the list if there is none. */
  function Find(targets: seq<Route>, id: int): (i: nat)
    ensures i <= |targets| && (i < |targets| ==> targets[i].id == id)
    ensures forall k | 0 <= k < i :: targets[k].id != id
  {
    if targets == [] then 0 else
      var n := |targets| - 1;
      var i := Find(targets[..n], id);
      if i < n || targets[n].id == id then i else n + 1
  }

  function IndexOf(targets: seq<Route>, id: int): nat {
    var i := Find(targets, id);
    if i < |targets| then i else 0
  }

  function CounterOf(next: Counters, model: string): nat {
    if model in next then next[model] else 0
  }

  predicate Weighted(targets: seq<Route>) {
    |targets| > 1 && targets[0].policy == "weighted"
  }

  /** What a selection goes round: the targets, or each as often as its weight. */
  function Wheel(targets: seq<Route>): (wheel: seq<Route>)
    ensures targets != [] ==> wheel != []
  {
    if Weighted(targets) then ExpandLength(targets); Expand(targets) else targets
  }

  lemma {:induction false} ExpandLength(targets: seq<Route>)
    ensures |Expand(targets)| >= |targets|
  {
    if targets != [] {
      ExpandLength(targets[..|targets| - 1]);
    }
  }

  /** rotateRouteTargets: the list it returns and the counters it leaves. */
  function Select(next: Counters, model: string, targets: seq<Route>): (seq<Route>, Counters) {
    if |targets| <= 1 then (targets, next) else
      var wheel := Wheel(targets);
      var start := Wrap(CounterOf(next, model), |wheel|);
      var first := if Weighted(targets) then IndexOf(targets, wheel[start].id) else start;
      (Rotated(targets, first), next[model := Wrap(start + 1, |wheel|)])
  }

  // ----- The methods -----

  method ExpandWeightedTargets(targets: seq<Route>) returns (out: seq<Route>)
    ensures out == Expand(targets)
  {
    out := [];
    for k := 0 to |targets|
      invariant out == Expand(targets[..k])
    {
      assert targets[..k + 1][..k] == targets[..k];
      var weight := targets[k].weight;
      if weight <= 0 {
        weight := 1;
      }
      if weight > 100 {
        weight := 100;
      }
      ghost var before := out;
      for i := 0 to weight
        invariant out == before + Copies(targets[k], i)
      {
        out := out + [targets[k]];
        assert Copies(targets[k], i) + [targets[k]] == Copies(targets[k], i + 1);
      }
    }
    assert targets[..|targets|] == targets;
  }

  class Router {
    var routeNext: Counters

    constructor ()
      ensures routeNext == map[]
    {
      routeNext := map[];
    }

    method RotateRouteTargets(model: string, targets: seq<Route>) returns (out: seq<Route>)
      modifies this
      ensures (out, routeNext) == Select(old(routeNext), model, targets)
    {
      if |targets| <= 1 {
        return targets;
      }
      if targets[0].policy == "weighted" {
        out := RotateWeightedRouteTargets(model, targets);
        return;
      }
      var start := (if model in routeNext then routeNext[model] else 0) % |targets|;
      routeNext := routeNext[model := (start + 1) % |targets|];
      out := targets[start..] + targets[..start];
    }

    method RotateWeightedRouteTargets(model: string, targets: seq<Route>) returns (out: seq<Route>)
      requires Weighted(targets)
      modifies this
      ensures (out, routeNext) == Select(old(routeNext), model, targets)
    {
      var weighted := ExpandWeightedTargets(targets);
      ExpandLength(targets);
      var start := (if model in routeNext then routeNext[model] else 0) % |weighted|;
      routeNext := routeNext[model := (start + 1) % |weighted|];
      var selected := weighted[start];
      var selectedIndex, i := 0, 0;
      while i < |targets| && targets[i].id != selected.id
        invariant 0 <= i <= |targets| && forall k | 0 <= k < i :: targets[k].id != selected.id
      {
        i := i + 1;
      }
      if i < |targets| {
        selectedIndex := i;
      }
      assert selectedIndex == IndexOf(targets, selected.id);
      out := targets[selectedIndex..] + targets[..selectedIndex];
    }
  }

  // ----- Shares -----

  ghost predicate OwnIDs(targets: seq<Route>) {
    forall i, j | 0 <= i < j < |targets| :: targets[i].id != targets[j].id
  }

  lemma {:induction false} ExpandMembers(targets: seq<Route>)
    ensures forall t :: t in Expand(targets) <==> t in targets
  {
    if targets != [] {
      var before, last := targets[..|targets| - 1], targets[|targets| - 1];
      ExpandMembers(before);
      assert targets == before + [last];
      assert Copies(last, Clamp(last.weight))[0] == last;
      assert forall t :: t in Copies(last, Clamp(last.weight)) ==> t == last;
    }
  }

  lemma {:induction false} CopiesCount(t: Route, n: nat, other: Route)
    ensures multiset(Copies(t, n))[other] == if other == t then n else 0
  {
    if n > 0 {
      CopiesCount(t, n - 1, other);
      assert Copies(t, n) == Copies(t, n - 1) + [t];
    } else {
      assert Copies(t, 0) == [];
    }
  }

  /** Each target is on the wheel as often as its clamped weight. */
  lemma {:induction false} WheelHasWeights(targets: seq<Route>, i: nat)
    requires OwnIDs(targets) && i < |targets|
    ensures multiset(Expand(targets))[targets[i]] == Clamp(targets[i].weight)
  {
    hide Clamp;
    var before, last := targets[..|targets| - 1], targets[|targets| - 1];
    CopiesCount(last, Clamp(last.weight), targets[i]);
    if i < |targets| - 1 {
      WheelHasWeights(before, i);
    } else {
      ExpandMembers(before);
      assert last !in before;
      assert multiset(Expand(before))[last] == 0;
    }
  }

  /** Every list returned is a rotation of the targets, whatever the counter; and only the
      counter of the model asked for moves. */
  lemma SelectionRotates(next: Counters, model: string, targets: seq<Route>)
    ensures exists k :: 0 <= k <= |targets| && Select(next, model, targets).0 == Rotated(targets, k)
    ensures forall other | other != model :: CounterOf(Select(next, model, targets).1, other) == CounterOf(next, other)
  {
    hide Wheel, Wrap;
    if |targets| <= 1 {
      assert targets == Rotated(targets, 0);
    } else {
      var wheel := Wheel(targets);
      var start := Wrap(CounterOf(next, model), |wheel|);
      if !Weighted(targets) {
        WheelIsTargets(targets);
      }
      var first := if Weighted(targets) then IndexOf(targets, wheel[start].id) else start;
      assert Select(next, model, targets).0 == Rotated(targets, first);
    }
  }

  lemma WheelIsTargets(targets: seq<Route>)
    requires !Weighted(targets)
    ensures Wheel(targets) == targets
  {}

  /** A selection puts first the target the wheel shows. */
  lemma WheelShows(next: Counters, model: string, targets: seq<Route>)
    requires OwnIDs(targets) && |targets| > 1
    ensures var wheel := Wheel(targets);
            && Select(next, model, targets).0 != []
            && Select(next, model, targets).0[0] == wheel[Wrap(CounterOf(next, model), |wheel|)]
            && CounterOf(Select(next, model, targets).1, model) == Wrap(Wrap(CounterOf(next, model), |wheel|) + 1, |wheel|)
  {
    hide Expand, Wrap;
    if Weighted(targets) {
      ExpandLength(targets);
      ExpandMembers(targets);
      var wheel := Expand(targets);
      var shown := wheel[Wrap(CounterOf(next, model), |wheel|)];
      assert shown in targets;
      var i :| 0 <= i < |targets| && targets[i] == shown;
      assert IndexOf(targets, shown.id) == i;
    }
  }

  /** The targets put first by `n` consecutive selections, and the counters after them. */
  function Firsts(next: Counters, model: string, targets: seq<Route>, n: nat): (seq<Route>, Counters)
    requires targets != []
  {
    if n == 0 then ([], next) else
      var (firsts, now) := Firsts(next, model, targets, n - 1);
      var (out, later) := Select(now, model, targets);
      (firsts + if out == [] then [] else [out[0]], later)
  }

  lemma {:induction false} FirstsFollowWheel(next: Counters, model: string, targets: seq<Route>, n: nat)
    requires OwnIDs(targets) && |targets| > 1
    ensures var wheel, (firsts, now) := Wheel(targets), Firsts(next, model, targets, n);
            && |firsts| == n
            && (forall k | 0 <= k < n :: firsts[k] == wheel[Wrap(CounterOf(next, model) + k, |wheel|)])
            && Wrap(CounterOf(now, model), |wheel|) == Wrap(CounterOf(next, model) + n, |wheel|)
  {
    hide Select, Wrap, Wheel, CounterOf;
    if n > 0 {
      FirstsFollowWheel(next, model, targets, n - 1);
      var wheel, now := Wheel(targets), Firsts(next, model, targets, n - 1).1;
      WheelShows(now, model, targets);
      var c := CounterOf(now, model);
      WrapEarly(c, 1, |wheel|);
      WrapEarly(Wrap(c, |wheel|) + 1, 0, |wheel|);
      WrapEarly(CounterOf(next, model) + n - 1, 1, |wheel|);
    }
  }

  /** The share of a target: its weight, but one at least and a hundred at most. */
  function Share(t: Route): nat {
    if t.weight > 100 then 100 else if t.weight >= 1 then t.weight else 1
  }

  /** The length of a round: the sum of the shares, or one for each target. */
  function RoundOf(targets: seq<Route>): nat {
    if |targets| > 1 && targets[0].policy == "weighted" then SumOfShares(targets) else |targets|
  }

  function SumOfShares(targets: seq<Route>): nat {
    if targets == [] then 0 else SumOfShares(targets[..|targets| - 1]) + Share(targets[|targets| - 1])
  }

  lemma {:induction false} WheelIsShares(targets: seq<Route>)
    ensures |Expand(targets)| == SumOfShares(targets)
  {
    if targets != [] {
      WheelIsShares(targets[..|targets| - 1]);
    }
  }

  /** The wheel is one round long. */
  lemma WheelIsRound(targets: seq<Route>)
    ensures |Wheel(targets)| == RoundOf(targets)
  {
    WheelIsShares(targets);
  }

  /** Exact shares: with distinct ids and a fixed list, in any round of consecutive selections,
      from any counter value, each target comes first exactly as often as its share; and
      without weights, once. */
  lemma ExactShares(next: Counters, model: string, targets: seq<Route>, i: nat)
    requires OwnIDs(targets) && |targets| > 1 && i < |targets|
    ensures var (firsts, _) := Firsts(next, model, targets, RoundOf(targets));
            multiset(firsts)[targets[i]] == if targets[0].policy == "weighted" then Share(targets[i]) else 1
  {
    hide Firsts, Expand, Wrap;
    WheelIsRound(targets);
    FirstsFollowWheel(next, model, targets, |Wheel(targets)|);
    OnceRound(Wheel(targets), CounterOf(next, model), Firsts(next, model, targets, |Wheel(targets)|).0);
    if Weighted(targets) {
      WheelHasWeights(targets, i);
    } else {
      Once(targets, i);
    }
  }

  lemma {:induction false} Once(targets: seq<Route>, i: nat)
    requires OwnIDs(targets) && i < |targets|
    ensures multiset(targets)[targets[i]] == 1
  {
    assert targets == targets[..i] + [targets[i]] + targets[i + 1..];
    assert targets[i] !in targets[..i] && targets[i] !in targets[i + 1..];
    assert multiset(targets) == multiset(targets[..i]) + multiset{targets[i]} + multiset(targets[i + 1..]);
  }
}
