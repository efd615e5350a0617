/** KeyState (internal/key_state.go): provider keys in a ring, with cooldowns by model and key
    name. The clock and the random part of a cooldown are inputs. */
module KeyRing {
  import opened Canonical

  datatype Key = Key(id: int, providerID: int, providerName: string, providerKeyID: int, name: string)

  /** What of a route target decides which keys serve it. */
  datatype Target = Target(providerID: int, providerName: string, upstreamModel: string)

  datatype KeyError = KeyError(key: string, model: string, status: int, message: string)

  datatype Ring = Ring(keys: seq<Key>, next: nat, cooldown: int, rpdCooldown: int,
                       exhausted: map<string, int>, hits: map<string, nat>, rpdLike: set<string>, errors: map<string, KeyError>)

  const SECOND := 1_000_000_000
  const HOUR := 3600 * SECOND

  predicate Matches(key: Key, target: Target) {
    && !(target.providerName != "" && key.providerName != "" && key.providerName != target.providerName)
    && !(target.providerID != 0 && key.providerID != 0 && key.providerID != target.providerID)
  }

  /** cooldownKey. */
  function CooldownID(model: string, name: string): string {
    model + "::" + name
  }

  /** What NextFor is asked, and when. */
  datatype Ask = Ask(model: string, target: Target, now: int)

  function IDOf(key: Key, ask: Ask): string {
    CooldownID(ask.model, key.name)
  }

  /** A key cools while its entry lies in the future. */
  predicate Cooling(ring: Ring, id: string, now: int) {
    id in ring.exhausted && now < ring.exhausted[id]
  }

  predicate EligibleKey(ring: Ring, key: Key, ask: Ask) {
    Matches(key, ask.target) && !Cooling(ring, IDOf(key, ask), ask.now)
  }

  predicate Eligible(ring: Ring, p: nat, ask: Ask) {
    p < |ring.keys| && EligibleKey(ring, ring.keys[p], ask)
  }

  function EligibleSet(ring: Ring, ask: Ask): set<nat> {
    set p: nat | p < |ring.keys| && Eligible(ring, p, ask)
  }

  // ----- The order of visits -----

  function Wrap(x: nat, n: nat): (r: nat)
    requires n > 0
    ensures r < n
  {
    x % n
  }

  /** The positions of a ring of `n` from `start` on. */
  function Order(start: nat, n: nat): (order: seq<nat>)
    ensures |order| == n
  {
    seq<nat>(n, i requires 0 <= i < n => Wrap(start + i, n))
  }

  function Filter(ring: Ring, order: seq<nat>, ask: Ask): seq<nat> {
    if order == [] then [] else
      var before, p := Filter(ring, order[..|order| - 1], ask), order[|order| - 1];
      if Eligible(ring, p, ask) then before + [p] else before
  }

  /** The eligible positions in the order in which they are visited. */
  function Turns(ring: Ring, ask: Ask): seq<nat> {
    Filter(ring, Order(ring.next, |ring.keys|), ask)
  }

  lemma {:induction false} FilterAppend(ring: Ring, a: seq<nat>, b: seq<nat>, ask: Ask)
    ensures Filter(ring, a + b, ask) == Filter(ring, a, ask) + Filter(ring, b, ask)
  {
    if b == [] {
      assert a + b == a;
    } else {
      assert (a + b)[..|a + b| - 1] == a + b[..|b| - 1];
      FilterAppend(ring, a, b[..|b| - 1], ask);
    }
  }

  lemma {:induction false} FilterMembers(ring: Ring, order: seq<nat>, ask: Ask)
    ensures forall p :: p in Filter(ring, order, ask) <==> p in order && Eligible(ring, p, ask)
  {
    if order != [] {
      FilterMembers(ring, order[..|order| - 1], ask);
      assert order == order[..|order| - 1] + [order[|order| - 1]];
    }
  }

  predicate Distinct(s: seq<nat>) {
    forall i, j | 0 <= i < j < |s| :: s[i] != s[j]
  }

  lemma {:induction false} FilterDistinct(ring: Ring, order: seq<nat>, ask: Ask)
    requires Distinct(order)
    ensures Distinct(Filter(ring, order, ask))
  {
    hide Eligible;
    if order != [] {
      var before, p := order[..|order| - 1], order[|order| - 1];
      FilterDistinct(ring, before, ask);
      FilterMembers(ring, before, ask);
      assert p !in before;
    }
  }

  lemma {:induction false} FilterSame(a: Ring, b: Ring, order: seq<nat>, ask: Ask)
    requires forall p :: Eligible(a, p, ask) <==> Eligible(b, p, ask)
    ensures Filter(a, order, ask) == Filter(b, order, ask)
  {
    hide Eligible;
    if order != [] {
      FilterSame(a, b, order[..|order| - 1], ask);
    }
  }

  lemma FilterOne(ring: Ring, p: nat, ask: Ask)
    ensures Filter(ring, [p], ask) == if Eligible(ring, p, ask) then [p] else []
  {
    assert [p][..0] == [];
  }

  /** The turn found at offset `i`, when nothing before it is eligible. */
  lemma FirstTurn(ring: Ring, i: nat, ask: Ask)
    requires i < |ring.keys|
    requires Filter(ring, Order(ring.next, |ring.keys|)[..i], ask) == []
    requires Eligible(ring, Order(ring.next, |ring.keys|)[i], ask)
    ensures var order := Order(ring.next, |ring.keys|);
            Turns(ring, ask) == [order[i]] + Filter(ring, order[i + 1..], ask)
  {
    hide Eligible;
    var order := Order(ring.next, |ring.keys|);
    assert order == order[..i] + [order[i]] + order[i + 1..];
    FilterAppend(ring, order[..i] + [order[i]], order[i + 1..], ask);
    FilterAppend(ring, order[..i], [order[i]], ask);
    FilterOne(ring, order[i], ask);
  }

  lemma Multiples(d: int, n: int)
    requires n > 0
    ensures d > 0 ==> d * n >= n
    ensures d < 0 ==> d * n <= -n
  {}

  /** A remainder may be taken early, and whole rounds left out. */
  lemma WrapEarly(x: nat, y: nat, n: nat)
    requires n > 0
    ensures Wrap(Wrap(x, n) + y, n) == Wrap(x + y, n)
  {
    var d := (x + y) / n - (x % n + y) / n - x / n;
    assert d * n == (x % n + y) % n - (x + y) % n;
    Multiples(d, n);
  }

  lemma WrapSmall(x: nat, n: nat)
    requires x < n
    ensures Wrap(x, n) == x
  {}

  lemma WrapRound(x: nat, n: nat)
    requires n > 0
    ensures Wrap(x + n, n) == Wrap(x, n)
  {
    WrapEarly(n, x, n);
    assert n % n == 0;
  }

  /** Going once round a wheel from anywhere shows all of it. */
  lemma OnceRound<T>(wheel: seq<T>, c: nat, shown: seq<T>)
    requires wheel != [] && |shown| == |wheel|
    requires forall k | 0 <= k < |wheel| :: shown[k] == wheel[Wrap(c + k, |wheel|)]
    ensures multiset(shown) == multiset(wheel)
  {
    hide Wrap;
    var n := |wheel|;
    var r := Wrap(c, n);
    forall k | 0 <= k < n
      ensures shown[k] == (wheel[r..] + wheel[..r])[k]
    {
      WrapEarly(c, k, n);
      if r + k < n {
        WrapSmall(r + k, n);
      } else {
        WrapRound(r + k - n, n);
        WrapSmall(r + k - n, n);
      }
    }
    assert shown == wheel[r..] + wheel[..r];
    assert wheel == wheel[..r] + wheel[r..];
  }

  /** Starting after offset `i` turns the order around at that point. */
  lemma OrderTurns(start: nat, n: nat, i: nat)
    requires i < n
    ensures var order := Order(start, n);
            Order(Wrap(order[i] + 1, n), n) == order[i + 1..] + order[..i + 1]
  {
    hide Wrap;
    var order := Order(start, n);
    var s := Wrap(order[i] + 1, n);
    var turned := order[i + 1..] + order[..i + 1];
    forall j | 0 <= j < n
      ensures Order(s, n)[j] == turned[j]
    {
      WrapEarly(order[i] + 1, j, n);
      WrapEarly(start + i, 1 + j, n);
      assert order[i] + 1 + j == Wrap(start + i, n) + (1 + j);
      if j >= n - i - 1 {
        WrapRound(start + (i + 1 + j - n), n);
        assert start + (i + 1 + j - n) + n == start + i + (1 + j);
      } else {
        assert start + (i + 1 + j) == start + i + (1 + j);
      }
    }
  }

  // ----- Operations -----

  /** NextFor: the first eligible key from the cursor on; its stale entry is dropped and the
      cursor goes past it. */
  function NextFor(ring: Ring, ask: Ask): (Option<Key>, Ring) {
    var turns := Turns(ring, ask);
    if turns == [] then (None, ring) else
      TurnsAreEligible(ring, ask);
      assert turns[0] in turns;
      var p := turns[0];
      (Some(ring.keys[p]),
       ring.(next := Wrap(p + 1, |ring.keys|), exhausted := ring.exhausted - {IDOf(ring.keys[p], ask)}))
  }

  lemma TurnsAreEligible(ring: Ring, ask: Ask)
    ensures forall p <- Turns(ring, ask) :: Eligible(ring, p, ask)
  {
    FilterMembers(ring, Order(ring.next, |ring.keys|), ask);
  }

  /** AvailableFor. */
  function AvailableFor(keys: seq<Key>, target: Target): nat {
    if keys == [] then 0 else
      AvailableFor(keys[..|keys| - 1], target) + if Matches(keys[|keys| - 1], target) then 1 else 0
  }

  /** MarkExhaustedUntil: from the second hit on, the long cooldown. */
  function MarkExhausted(ring: Ring, model: string, key: Key, now: int, jitter: nat): (Ring, int, bool) {
    var id := CooldownID(model, key.name);
    var hits := (if id in ring.hits then ring.hits[id] else 0) + 1;
    var rpdLike := hits >= 2;
    var cooldown := if !rpdLike then ring.cooldown else if ring.rpdCooldown <= 0 then HOUR else ring.rpdCooldown;
    var expires := now + cooldown + jitter;
    (ring.(hits := ring.hits[id := hits], exhausted := ring.exhausted[id := expires],
           rpdLike := if rpdLike then ring.rpdLike + {id} else ring.rpdLike, errors := ring.errors - {id}),
     expires, rpdLike)
  }

  /** MarkRedisExhausted: an expiry in the past is not taken over, one at `now` is. */
  function MarkRedisExhausted(ring: Ring, model: string, key: Key, expires: int, rpdLike: bool, now: int): Ring {
    var id := CooldownID(model, key.name);
    if now > expires then ring else
      ring.(exhausted := ring.exhausted[id := expires],
            rpdLike := if rpdLike then ring.rpdLike + {id} else ring.rpdLike, errors := ring.errors - {id})
  }

  /** MarkHealthy. */
  function MarkHealthy(ring: Ring, model: string, key: Key): Ring {
    var id := CooldownID(model, key.name);
    ring.(exhausted := ring.exhausted - {id}, hits := ring.hits - {id}, rpdLike := ring.rpdLike - {id},
          errors := map e | e in ring.errors && ring.errors[e].key != key.name :: ring.errors[e])
  }

  /** sameAPIKey. */
  predicate SameKey(a: Key, b: Key) {
    if a.providerKeyID != 0 && b.providerKeyID != 0 then a.providerKeyID == b.providerKeyID else a.id == b.id
  }

  function Without(keys: seq<Key>, key: Key): (rest: seq<Key>)
    ensures |rest| <= |keys|
  {
    if keys == [] then [] else
      var last := keys[|keys| - 1];
      Without(keys[..|keys| - 1], key) + if SameKey(last, key) then [] else [last]
  }

  /** strings.HasSuffix. */
  predicate HasSuffix(s: string, suffix: string) {
    |suffix| <= |s| && s[|s| - |suffix|..] == suffix
  }

  /** Remove: the key goes, and every cooldown under its name. The cursor stays where it is. */
  function Remove(ring: Ring, key: Key): Ring {
    var keys := Without(ring.keys, key);
    var suffix := "::" + key.name;
    ring.(keys := keys,
          next := if keys == [] then 0 else if ring.next >= |keys| then ring.next % |keys| else ring.next,
          exhausted := map id | id in ring.exhausted && !HasSuffix(id, suffix) :: ring.exhausted[id],
          hits := map id | id in ring.hits && !HasSuffix(id, suffix) :: ring.hits[id],
          rpdLike := set id | id in ring.rpdLike && !HasSuffix(id, suffix))
  }

  class KeyState {
    var keys: seq<Key>
    var next: nat
    const cooldown: int
    const rpdCooldown: int
    var exhausted: map<string, int>
    var cooldownHits: map<string, nat>
    var rpdLike: set<string>
    var errors: map<string, KeyError>

    ghost function View(): Ring
      reads this
    {
      Ring(keys, next, cooldown, rpdCooldown, exhausted, cooldownHits, rpdLike, errors)
    }

    constructor (keys: seq<Key>, cooldown: int, rpdCooldown: int)
      ensures View() == Ring(keys, 0, cooldown, rpdCooldown, map[], map[], {}, map[])
    {
      this.keys, next, this.cooldown, this.rpdCooldown := keys, 0, cooldown, rpdCooldown;
      exhausted, cooldownHits, rpdLike, errors := map[], map[], {}, map[];
    }

    method Next(ask: Ask) returns (key: Option<Key>)
      modifies this`next, this`exhausted
      ensures (key, View()) == NextFor(old(View()), ask)
    {
      hide Eligible, Filter, Matches;
      ghost var order := Order(next, |keys|);
      FilterNothing(View(), ask);
      ghost var ring := View();
      for i := 0 to |keys|
        invariant View() == ring && Filter(ring, order[..i], ask) == []
      {
        assert order[..i + 1] == order[..i] + [order[i]];
        FilterAppend(ring, order[..i], [order[i]], ask);
        FilterOne(ring, order[i], ask);
        var idx := (next + i) % |keys|;
        var id := CooldownID(ask.model, keys[idx].name);
        EligibleMeans(ring, idx, ask);
        if Matches(keys[idx], ask.target) && !(id in exhausted && ask.now < exhausted[id]) {
          FirstTurn(ring, i, ask);
          exhausted := exhausted - {id};
          next := (idx + 1) % |keys|;
          return Some(keys[idx]);
        }
      }
      assert order[..|keys|] == order;
      key := None;
    }

    method Available(target: Target) returns (count: nat)
      ensures count == AvailableFor(keys, target)
    {
      count := 0;
      for i := 0 to |keys|
        invariant count == AvailableFor(keys[..i], target)
      {
        assert keys[..i + 1][..i] == keys[..i];
        if Matches(keys[i], target) {
          count := count + 1;
        }
      }
      assert keys[..|keys|] == keys;
    }

    method MarkExhaustedUntil(model: string, key: Key, now: int, jitter: nat) returns (expires: int, isRPD: bool)
      modifies this`exhausted, this`cooldownHits, this`rpdLike, this`errors
      ensures (View(), expires, isRPD) == MarkExhausted(old(View()), model, key, now, jitter)
    {
      var id := CooldownID(model, key.name);
      cooldownHits := cooldownHits[id := (if id in cooldownHits then cooldownHits[id] else 0) + 1];
      var chosen := cooldown;
      isRPD := false;
      if cooldownHits[id] >= 2 {
        chosen := rpdCooldown;
        if chosen <= 0 {
          chosen := HOUR;
        }
        isRPD := true;
      }
      expires := now + chosen + jitter;
      if isRPD {
        rpdLike := rpdLike + {id};
      }
      exhausted := exhausted[id := expires];
      errors := errors - {id};
    }

    method TakeOver(model: string, key: Key, expires: int, isRPD: bool, now: int)
      modifies this`exhausted, this`rpdLike, this`errors
      ensures View() == MarkRedisExhausted(old(View()), model, key, expires, isRPD, now)
    {
      if now > expires {
        return;
      }
      var id := CooldownID(model, key.name);
      exhausted := exhausted[id := expires];
      if isRPD {
        rpdLike := rpdLike + {id};
      }
      errors := errors - {id};
    }

    method Heal(model: string, key: Key)
      modifies this`exhausted, this`cooldownHits, this`rpdLike, this`errors
      ensures View() == MarkHealthy(old(View()), model, key)
    {
      var id := CooldownID(model, key.name);
      exhausted, cooldownHits, rpdLike := exhausted - {id}, cooldownHits - {id}, rpdLike - {id};
      errors := map e | e in errors && errors[e].key != key.name :: errors[e];
    }

    method Delete(key: Key)
      modifies this`keys, this`next, this`exhausted, this`cooldownHits, this`rpdLike
      ensures View() == Remove(old(View()), key)
    {
      var rest: seq<Key> := [];
      for i := 0 to |keys|
        invariant keys == old(keys) && rest == Without(keys[..i], key)
      {
        assert keys[..i + 1][..i] == keys[..i];
        if !SameKey(keys[i], key) {
          rest := rest + [keys[i]];
        }
      }
      assert keys[..|keys|] == keys;
      keys := rest;
      if |keys| == 0 {
        next := 0;
      } else if next >= |keys| {
        next := next % |keys|;
      }
      var suffix := "::" + key.name;
      exhausted := map id | id in exhausted && !HasSuffix(id, suffix) :: exhausted[id];
      cooldownHits := map id | id in cooldownHits && !HasSuffix(id, suffix) :: cooldownHits[id];
      rpdLike := set id | id in rpdLike && !HasSuffix(id, suffix);
    }
  }

  lemma FilterNothing(ring: Ring, ask: Ask)
    ensures Filter(ring, [], ask) == []
  {}

  lemma EligibleMeans(ring: Ring, p: nat, ask: Ask)
    requires p < |ring.keys|
    ensures Eligible(ring, p, ask) <==>
            Matches(ring.keys[p], ask.target)
            && !(CooldownID(ask.model, ring.keys[p].name) in ring.exhausted && ask.now < ring.exhausted[CooldownID(ask.model, ring.keys[p].name)])
  {}
}
