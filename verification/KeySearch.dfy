/** nextProviderKey (internal/key_cooldown.go:9-64): the search for a key that cools neither in
    the ring nor in the shared store, and markProviderKeyExhausted beside it. A miss and an error
    of the shared store are the same to it. */
module KeySearch {
  import opened Canonical
  import opened KeyRing
  import RoundRobin

  datatype Cooldown = Cooldown(expires: int, rpdLike: bool, hits: nat)

  /** The shared store, by storage key. */
  type Remote = map<string, Cooldown>

  /** stringID. */
  function StringID(id: int, fallback: string): string {
    if id != 0 then FormatInt(id) else fallback
  }

  /** keyCooldownStorageKey. */
  function StorageKey(target: Target, key: Key): string {
    var own := StringID(target.providerID, target.providerName);
    var provider := if own == "" then StringID(key.providerID, key.providerName) else own;
    var keyID := StringID(key.providerKeyID, key.name);
    provider + "::" + target.upstreamModel + "::" + if keyID == "" then StringID(key.id, key.name) else keyID
  }

  /** redisKeyCooldown: an entry counts up to and at its expiry. */
  function RemoteCooldown(remote: Remote, key: Key, ask: Ask): Option<Cooldown> {
    var at := StorageKey(ask.target, key);
    if at in remote && ask.now <= remote[at].expires then Some(remote[at]) else None
  }

  const MINUTE := 60 * SECOND

  /** RuntimeCache.MarkKeyExhausted (internal/runtime_cache.go:328-376). The expiry is stored by
      the second and handed back as it is. */
  function MarkRemote(remote: Remote, at: string, ring: Ring, now: int): (Remote, int, bool) {
    var hits := (if at in remote then remote[at].hits else 0) + 1;
    var rpdLike := (at in remote && remote[at].rpdLike) || hits >= 2;
    var expires := now + if rpdLike then (if ring.rpdCooldown <= 0 then HOUR else ring.rpdCooldown)
                         else if ring.cooldown <= 0 then MINUTE else ring.cooldown;
    (remote[at := Cooldown(expires / SECOND * SECOND, rpdLike, hits)], expires, rpdLike)
  }

  // ----- The search, try by try -----

  datatype Outcome = Found(key: Key) | NoKey | Again

  /** One round of the loop. */
  function Try(ring: Ring, remote: Remote, ask: Ask): (Outcome, Ring) {
    var (key, after) := NextFor(ring, ask);
    if key.None? then (NoKey, after) else
      match RemoteCooldown(remote, key.value, ask)
      case None => (Found(key.value), after)
      case Some(c) => (Again, MarkRedisExhausted(after, ask.model, key.value, c.expires, c.rpdLike, ask.now))
  }

  /** At most `n` rounds. */
  function Tries(ring: Ring, remote: Remote, ask: Ask, n: nat): (Outcome, Ring)
    decreases n
  {
    if n == 0 then (Again, ring) else
      var r := Try(ring, remote, ask);
      if r.0 == Again then Tries(r.1, remote, ask, n - 1) else r
  }

  lemma {:induction false} OneMoreTry(ring: Ring, remote: Remote, ask: Ask, n: nat)
    requires Tries(ring, remote, ask, n).0 == Again
    ensures Tries(ring, remote, ask, n + 1) == Try(Tries(ring, remote, ask, n).1, remote, ask)
    decreases n
  {
    hide Try;
    if n > 0 {
      OneMoreTry(Try(ring, remote, ask).1, remote, ask, n - 1);
    }
  }

  predicate RemoteCools(remote: Remote, key: Key, ask: Ask) {
    RemoteCooldown(remote, key, ask).Some?
  }

  /** The entry that the two stores disagree about: cooling there, expired here. */
  predicate Exact(remote: Remote, key: Key, ask: Ask) {
    RemoteCools(remote, key, ask) && RemoteCooldown(remote, key, ask).value.expires == ask.now
  }

  ghost predicate NoneExact(ring: Ring, remote: Remote, ask: Ask) {
    forall p: nat | Eligible(ring, p, ask) :: !Exact(remote, ring.keys[p], ask)
  }

  /** What one round does, told by ids. */
  lemma TryMoves(ring: Ring, remote: Remote, ask: Ask)
    ensures var (outcome, after) := Try(ring, remote, ask);
            && after.keys == ring.keys
            && (outcome == NoKey <==> forall p: nat :: !Eligible(ring, p, ask))
            && (outcome == NoKey ==> after == ring)
            && (!outcome.NoKey? ==>
                  exists p: nat :: TriedKey(ring, remote, ask, p))
  {
    hide Turns;
    RoundRobin.FailsIff(ring, ask);
    if !Try(ring, remote, ask).0.NoKey? {
      TurnsAreEligible(ring, ask);
      assert Turns(ring, ask)[0] in Turns(ring, ask);
      assert TriedKey(ring, remote, ask, Turns(ring, ask)[0]);
    }
  }

  /** The round tried position `p`: the first turn. */
  ghost predicate TriedKey(ring: Ring, remote: Remote, ask: Ask, p: nat) {
    && Eligible(ring, p, ask)
    && Turns(ring, ask) != [] && Turns(ring, ask)[0] == p
    && var key := ring.keys[p];
       var id := IDOf(key, ask);
       var (outcome, after) := Try(ring, remote, ask);
       && after.next == Wrap(p + 1, |ring.keys|)
       && (RemoteCools(remote, key, ask) <==> outcome == Again)
       && (!RemoteCools(remote, key, ask) <==> outcome == Found(key))
       && (outcome == Again ==>
             after.exhausted == ring.exhausted[id := RemoteCooldown(remote, key, ask).value.expires])
       && (outcome != Again ==> after.exhausted == ring.exhausted - {id})
  }

  // ----- What the search returns -----

  /** What is known of a ring the search has come to from another. */
  ghost predicate CameFrom(start: Ring, ring: Ring, remote: Remote, ask: Ask) {
    && ring.keys == start.keys
    && (forall id :: Cooling(start, id, ask.now) ==> Cooling(ring, id, ask.now))
    && (forall id :: Cooling(ring, id, ask.now) ==>
          Cooling(start, id, ask.now) || exists key <- start.keys :: Matches(key, ask.target) && IDOf(key, ask) == id && RemoteCools(remote, key, ask))
  }

  lemma TryComesFrom(start: Ring, ring: Ring, remote: Remote, ask: Ask)
    requires CameFrom(start, ring, remote, ask)
    ensures CameFrom(start, Try(ring, remote, ask).1, remote, ask)
  {
    hide Try, RemoteCooldown, IDOf, Matches, Turns;
    TryMoves(ring, remote, ask);
    var after := Try(ring, remote, ask).1;
    if !Try(ring, remote, ask).0.NoKey? {
      var p: nat :| TriedKey(ring, remote, ask, p);
      var key := ring.keys[p];
      forall id | Cooling(after, id, ask.now) && !Cooling(start, id, ask.now)
        ensures exists key <- start.keys :: Matches(key, ask.target) && IDOf(key, ask) == id && RemoteCools(remote, key, ask)
      {
        if id == IDOf(key, ask) {
          assert key in start.keys && RemoteCools(remote, key, ask);
        } else {
          assert Cooling(ring, id, ask.now);
        }
      }
    }
  }

  lemma {:induction false} TriesComeFrom(start: Ring, remote: Remote, ask: Ask, n: nat)
    ensures CameFrom(start, Tries(start, remote, ask, n).1, remote, ask)
    decreases n
  {
    hide Try, CameFrom;
    if n == 0 {
      Itself(start, remote, ask);
    } else {
      TriesComeFrom(start, remote, ask, n - 1);
      if Tries(start, remote, ask, n - 1).0 == Again {
        OneMoreTry(start, remote, ask, n - 1);
        TryComesFrom(start, Tries(start, remote, ask, n - 1).1, remote, ask);
      } else {
        TriesStay(start, remote, ask, n - 1);
      }
    }
  }

  lemma Itself(ring: Ring, remote: Remote, ask: Ask)
    ensures CameFrom(ring, ring, remote, ask)
  {}

  lemma {:induction false} TriesStay(ring: Ring, remote: Remote, ask: Ask, n: nat)
    requires Tries(ring, remote, ask, n).0 != Again
    ensures Tries(ring, remote, ask, n + 1) == Tries(ring, remote, ask, n)
    decreases n
  {
    hide Try;
    if Try(ring, remote, ask).0 == Again {
      TriesStay(Try(ring, remote, ask).1, remote, ask, n - 1);
    }
  }

  /** A search that has stopped goes no further. */
  lemma {:induction false} TriesStop(ring: Ring, remote: Remote, ask: Ask, last: nat, n: nat)
    requires Tries(ring, remote, ask, last).0 != Again && Tries(ring, remote, ask, n).0 == Again
    ensures n < last
    decreases n
  {
    hide Try;
    if n > 0 && last > 0 {
      if Try(ring, remote, ask).0 == Again {
        TriesStop(Try(ring, remote, ask).1, remote, ask, last - 1, n - 1);
      }
    }
  }

  /** Correctness, however many rounds it took: a key that is found serves the target and cools
      in neither store; when none is found, every key that serves the target cooled in the ring
      or has a namesake that cools in the shared store. */
  lemma {:induction false} SearchIsCorrect(ring: Ring, remote: Remote, ask: Ask, n: nat)
    ensures var (outcome, after) := Tries(ring, remote, ask, n);
            && (outcome.Found? ==>
                  && outcome.key in ring.keys && EligibleKey(ring, outcome.key, ask)
                  && !RemoteCools(remote, outcome.key, ask))
            && (outcome.NoKey? ==>
                  && (forall key <- ring.keys :: Matches(key, ask.target) ==> Cooling(after, IDOf(key, ask), ask.now))
                  && (forall key <- ring.keys :: Matches(key, ask.target) && !Cooling(ring, IDOf(key, ask), ask.now) ==>
                        exists other <- ring.keys :: Matches(other, ask.target) && IDOf(other, ask) == IDOf(key, ask) && RemoteCools(remote, other, ask)))
    decreases n
  {
    hide Try, RemoteCooldown, IDOf, Matches, Turns, CameFrom;
    if n > 0 {
      SearchIsCorrect(ring, remote, ask, n - 1);
      if Tries(ring, remote, ask, n - 1).0 != Again {
        TriesStay(ring, remote, ask, n - 1);
      } else {
        OneMoreTry(ring, remote, ask, n - 1);
        TriesComeFrom(ring, remote, ask, n - 1);
        LastTry(ring, Tries(ring, remote, ask, n - 1).1, remote, ask);
      }
    }
  }

  lemma LastTry(start: Ring, ring: Ring, remote: Remote, ask: Ask)
    requires CameFrom(start, ring, remote, ask)
    ensures var (outcome, after) := Try(ring, remote, ask);
            && (outcome.Found? ==>
                  && outcome.key in start.keys && EligibleKey(start, outcome.key, ask)
                  && !RemoteCools(remote, outcome.key, ask))
            && (outcome.NoKey? ==>
                  && (forall key <- start.keys :: Matches(key, ask.target) ==> Cooling(after, IDOf(key, ask), ask.now))
                  && (forall key <- start.keys :: Matches(key, ask.target) && !Cooling(start, IDOf(key, ask), ask.now) ==>
                        exists other <- start.keys :: Matches(other, ask.target) && IDOf(other, ask) == IDOf(key, ask) && RemoteCools(remote, other, ask)))
  {
    hide Try, RemoteCooldown, IDOf, Matches, Turns, Cooling;
    TryMoves(ring, remote, ask);
    var (outcome, after) := Try(ring, remote, ask);
    if outcome.NoKey? {
      forall key | key in start.keys && Matches(key, ask.target)
        ensures Cooling(ring, IDOf(key, ask), ask.now)
      {
        var p :| 0 <= p < |ring.keys| && ring.keys[p] == key;
        assert !Eligible(ring, p, ask);
      }
    } else {
      var p: nat :| TriedKey(ring, remote, ask, p);
      assert ring.keys[p] in start.keys;
    }
  }

  // ----- When it ends -----

  /** Without an exact entry every round takes at least one key out. */
  lemma RoundTakesOut(ring: Ring, remote: Remote, ask: Ask)
    requires NoneExact(ring, remote, ask) && Try(ring, remote, ask).0 == Again
    ensures EligibleSet(Try(ring, remote, ask).1, ask) < EligibleSet(ring, ask)
    ensures NoneExact(Try(ring, remote, ask).1, remote, ask)
  {
    hide Try, Turns, Matches, IDOf;
    TryMoves(ring, remote, ask);
    var p: nat :| TriedKey(ring, remote, ask, p);
    var after := Try(ring, remote, ask).1;
    assert ring.keys[p] in ring.keys;
    assert !Eligible(after, p, ask);
    assert p in EligibleSet(ring, ask) && p !in EligibleSet(after, ask);
  }

  lemma {:induction false} EndsWithoutExact(ring: Ring, remote: Remote, ask: Ask) returns (n: nat)
    requires NoneExact(ring, remote, ask)
    ensures Tries(ring, remote, ask, n).0 != Again
    decreases EligibleSet(ring, ask)
  {
    hide Try, EligibleSet, NoneExact;
    if Try(ring, remote, ask).0 == Again {
      RoundTakesOut(ring, remote, ask);
      var m := EndsWithoutExact(Try(ring, remote, ask).1, remote, ask);
      n := m + 1;
    } else {
      n := 1;
    }
  }

  /** Keys of one provider have names of their own (internal/store_schema.go:87). */
  ghost predicate OwnNames(ring: Ring, ask: Ask) {
    forall i, j | 0 <= i < j < |ring.keys| && Matches(ring.keys[i], ask.target) && Matches(ring.keys[j], ask.target) ::
      ring.keys[i].name != ring.keys[j].name
  }

  lemma OwnIDs(ring: Ring, ask: Ask, p: nat, q: nat)
    requires OwnNames(ring, ask) && p < |ring.keys| && q < |ring.keys| && p != q
    requires Matches(ring.keys[p], ask.target) && Matches(ring.keys[q], ask.target)
    ensures IDOf(ring.keys[p], ask) != IDOf(ring.keys[q], ask)
  {
    var a, b := ring.keys[p].name, ring.keys[q].name;
    assert a != b;
    var prefix := ask.model + "::";
    assert (prefix + a)[|prefix|..] == a && (prefix + b)[|prefix|..] == b;
  }

  /** When a search fails and names are its keys' own, every key that serves the target cools
      in one of the two stores. */
  lemma FailureMeansAllCool(ring: Ring, remote: Remote, ask: Ask, n: nat, p: nat)
    requires OwnNames(ring, ask) && Tries(ring, remote, ask, n).0 == NoKey
    requires p < |ring.keys| && Matches(ring.keys[p], ask.target)
    ensures Cooling(ring, IDOf(ring.keys[p], ask), ask.now) || RemoteCools(remote, ring.keys[p], ask)
  {
    hide Tries, RemoteCools, Matches, IDOf, Cooling, OwnNames;
    SearchIsCorrect(ring, remote, ask, n);
    var key := ring.keys[p];
    assert key in ring.keys;
    if !Cooling(ring, IDOf(key, ask), ask.now) {
      var other :| other in ring.keys && Matches(other, ask.target) && IDOf(other, ask) == IDOf(key, ask) && RemoteCools(remote, other, ask);
      Namesake(ring, ask, p, other);
    }
  }

  lemma Namesake(ring: Ring, ask: Ask, p: nat, other: Key)
    requires OwnNames(ring, ask) && p < |ring.keys| && Matches(ring.keys[p], ask.target)
    requires other in ring.keys && Matches(other, ask.target) && IDOf(other, ask) == IDOf(ring.keys[p], ask)
    ensures other == ring.keys[p]
  {
    hide Matches, IDOf, OwnNames;
    var q :| 0 <= q < |ring.keys| && ring.keys[q] == other;
    if p != q {
      OwnIDs(ring, ask, p, q);
    }
  }

  /** A round that tries another key leaves an eligible key eligible. */
  lemma OthersStay(ring: Ring, remote: Remote, ask: Ask, p: nat, q: nat)
    requires OwnNames(ring, ask) && TriedKey(ring, remote, ask, p) && Eligible(ring, q, ask) && p != q
    ensures Eligible(Try(ring, remote, ask).1, q, ask)
  {
    hide Try, Turns, Matches, RemoteCooldown;
    OwnIDs(ring, ask, p, q);
    TryMoves(ring, remote, ask);
  }

  /** A key that cools in neither store is come to: it gets nearer the cursor with every round. */
  lemma {:induction false} EndsAtFreeKey(ring: Ring, remote: Remote, ask: Ask, q: nat, i: nat) returns (n: nat)
    requires OwnNames(ring, ask) && Eligible(ring, q, ask) && !RemoteCools(remote, ring.keys[q], ask)
    requires i < |ring.keys| && Order(ring.next, |ring.keys|)[i] == q
    ensures Tries(ring, remote, ask, n).0 != Again
    decreases i
  {
    hide Try, Turns, Eligible, Wrap, Order, RemoteCools;
    if Try(ring, remote, ask).0 != Again {
      n := 1;
    } else {
      var k := NearerTheCursor(ring, remote, ask, q, i);
      var m := EndsAtFreeKey(Try(ring, remote, ask).1, remote, ask, q, k);
      n := m + 1;
    }
  }

  lemma NotBefore(ring: Ring, order: seq<nat>, ask: Ask, i: nat, j: nat)
    requires j <= |order| && Filter(ring, order[..j], ask) == []
    requires i < |order| && Eligible(ring, order[i], ask)
    ensures j <= i
  {
    hide Eligible;
    FilterMembers(ring, order[..j], ask);
    forall k | 0 <= k < j ensures !Eligible(ring, order[k], ask) {
      assert order[..j][k] == order[k];
    }
  }

  lemma NearerTheCursor(ring: Ring, remote: Remote, ask: Ask, q: nat, i: nat) returns (k: nat)
    requires OwnNames(ring, ask) && Eligible(ring, q, ask) && !RemoteCools(remote, ring.keys[q], ask)
    requires i < |ring.keys| && Order(ring.next, |ring.keys|)[i] == q
    requires Try(ring, remote, ask).0 == Again
    ensures var after := Try(ring, remote, ask).1;
            && after.keys == ring.keys && OwnNames(after, ask) && Eligible(after, q, ask)
            && k < i && Order(after.next, |after.keys|)[k] == q
  {
    hide Try, Eligible, Wrap, Order, RemoteCools, Filter;
    TryMoves(ring, remote, ask);
    var p: nat :| TriedKey(ring, remote, ask, p);
    var order, n := Order(ring.next, |ring.keys|), |ring.keys|;
    var j := RoundRobin.FirstOffset(ring, order, ask);
    assert p == order[j] && p != q;
    assert j <= i by {
      NotBefore(ring, order, ask, i, j);
    }
    OrderTurns(ring.next, n, j);
    k := i - j - 1;
    assert (order[j + 1..] + order[..j + 1])[k] == q;
    OthersStay(ring, remote, ask, p, q);
  }

  /** Every eligible key cools in the shared store, and one of them until exactly now. */
  ghost predicate Stuck(ring: Ring, remote: Remote, ask: Ask, x: nat) {
    && OwnNames(ring, ask)
    && Eligible(ring, x, ask) && Exact(remote, ring.keys[x], ask)
    && forall p: nat | Eligible(ring, p, ask) :: RemoteCools(remote, ring.keys[p], ask)
  }

  lemma StuckGoesOn(ring: Ring, remote: Remote, ask: Ask, x: nat)
    requires Stuck(ring, remote, ask, x)
    ensures Try(ring, remote, ask).0 == Again && Stuck(Try(ring, remote, ask).1, remote, ask, x)
  {
    hide Try, Turns, Matches, IDOf, RemoteCooldown;
    TryMoves(ring, remote, ask);
    var p: nat :| TriedKey(ring, remote, ask, p);
    var after := Try(ring, remote, ask).1;
    assert Eligible(after, x, ask) by {
      if p != x {
        OthersStay(ring, remote, ask, p, x);
      }
    }
    forall q: nat | Eligible(after, q, ask) ensures Eligible(ring, q, ask) {}
  }

  lemma {:induction false} StuckForEver(ring: Ring, remote: Remote, ask: Ask, x: nat, n: nat)
    requires Stuck(ring, remote, ask, x)
    ensures Tries(ring, remote, ask, n).0 == Again
    decreases n
  {
    hide Try, Stuck;
    if n > 0 {
      StuckGoesOn(ring, remote, ask, x);
      StuckForEver(Try(ring, remote, ask).1, remote, ask, x, n - 1);
    }
  }

  /** With a frozen clock the search ends exactly when some eligible key does not cool in the
      shared store, or none of the eligible ones has an entry there that expires exactly now. */
  lemma SearchEndsIff(ring: Ring, remote: Remote, ask: Ask)
    requires OwnNames(ring, ask)
    ensures (exists n: nat :: Tries(ring, remote, ask, n).0 != Again)
            <==> (exists p: nat :: Eligible(ring, p, ask) && !RemoteCools(remote, ring.keys[p], ask))
                 || NoneExact(ring, remote, ask)
  {
    hide Tries, RemoteCools, Exact, Order, Matches, Cooling;
    if p: nat :| Eligible(ring, p, ask) && !RemoteCools(remote, ring.keys[p], ask) {
      RoundRobin.OrderHasAll(ring.next, |ring.keys|, p);
      var i :| 0 <= i < |ring.keys| && Order(ring.next, |ring.keys|)[i] == p;
      var n := EndsAtFreeKey(ring, remote, ask, p, i);
    } else if x: nat :| Eligible(ring, x, ask) && Exact(remote, ring.keys[x], ask) {
      assert Stuck(ring, remote, ask, x);
      forall n: nat ensures Tries(ring, remote, ask, n).0 == Again {
        StuckForEver(ring, remote, ask, x, n);
      }
    } else {
      var n := EndsWithoutExact(ring, remote, ask);
    }
  }

  // ----- The methods -----

  class Server {
    const keyState: KeyState
    var remote: Remote

    constructor (keyState: KeyState)
      ensures this.keyState == keyState && remote == map[]
    {
      this.keyState, remote := keyState, map[];
    }

    /** nextProviderKey, with a frozen clock, whenever the search ends: SearchEndsIff says when. */
    method NextProviderKey(ask: Ask) returns (key: Option<Key>)
      requires exists n: nat :: Tries(keyState.View(), remote, ask, n).0 != Again
      modifies keyState
      ensures exists n :: Tries(old(keyState.View()), remote, ask, n) == (if key.Some? then Found(key.value) else NoKey, keyState.View())
    {
      hide Try;
      ghost var start, n := keyState.View(), 0;
      ghost var last: nat :| Tries(start, remote, ask, last).0 != Again;
      while true
        invariant Tries(start, remote, ask, n) == (Again, keyState.View()) && n >= 0
        decreases last - n
      {
        TriesStop(start, remote, ask, last, n);
        ghost var ring := keyState.View();
        OneMoreTry(start, remote, ask, n);
        key := keyState.Next(ask);
        TryMeans(ring, remote, ask);
        if key.None? {
          return;
        }
        var at := StorageKey(ask.target, key.value);
        if !(at in remote && ask.now <= remote[at].expires) {
          return;
        }
        keyState.TakeOver(ask.model, key.value, remote[at].expires, remote[at].rpdLike, ask.now);
        n := n + 1;
      }
    }

    /** markProviderKeyExhausted; `shared` says whether the shared store answers. */
    method MarkProviderKeyExhausted(ask: Ask, key: Key, jitter: nat, shared: bool)
      modifies this`remote, keyState
      ensures var ring := old(keyState.View());
              var (marked, expires, rpdLike) := MarkExhausted(ring, ask.model, key, ask.now, jitter);
              var there := MarkRemote(old(remote), StorageKey(ask.target, key), ring, ask.now);
              && remote == (if shared then there.0 else old(remote))
              && keyState.View() == MarkRedisExhausted(marked, ask.model, key, if shared then there.1 else expires,
                                                       if shared then there.2 else rpdLike, ask.now)
    {
      ghost var ring := keyState.View();
      var expires, rpdLike := keyState.MarkExhaustedUntil(ask.model, key, ask.now, jitter);
      if shared {
        var at := StorageKey(ask.target, key);
        var hits := (if at in remote then remote[at].hits else 0) + 1;
        rpdLike := (at in remote && remote[at].rpdLike) || hits >= 2;
        var cooldown := if keyState.cooldown <= 0 then MINUTE else keyState.cooldown;
        if rpdLike {
          cooldown := if keyState.rpdCooldown <= 0 then HOUR else keyState.rpdCooldown;
        }
        expires := ask.now + cooldown;
        remote := remote[at := Cooldown(expires / SECOND * SECOND, rpdLike, hits)];
      }
      keyState.TakeOver(ask.model, key, expires, rpdLike, ask.now);
    }

    /** markProviderKeyHealthy. */
    method MarkProviderKeyHealthy(ask: Ask, key: Key)
      modifies this`remote, keyState
      ensures keyState.View() == MarkHealthy(old(keyState.View()), ask.model, key)
      ensures remote == old(remote) - {StorageKey(ask.target, key)}
    {
      keyState.Heal(ask.model, key);
      remote := remote - {StorageKey(ask.target, key)};
    }
  }

  /** A key that is marked exhausted in both stores is not returned to any server while the
      shared entry lasts: the ring takes over the shared expiry, which is not before the stored one. */
  lemma MarkedInBoth(ring: Ring, remote: Remote, ask: Ask, key: Key, jitter: nat, later: int)
    requires Matches(key, ask.target)
    ensures var (remote', expires, rpdLike) := MarkRemote(remote, StorageKey(ask.target, key), ring, ask.now);
            var ring' := MarkRedisExhausted(MarkExhausted(ring, ask.model, key, ask.now, jitter).0, ask.model, key, expires, rpdLike, ask.now);
            var stored := remote'[StorageKey(ask.target, key)].expires;
            && stored <= expires < stored + SECOND
            && (expires > ask.now && ask.now <= later < expires ==> !EligibleKey(ring', key, ask.(now := later)))
            && (later <= stored ==> RemoteCools(remote', key, ask.(now := later)))
  {
    hide StorageKey;
  }

  lemma TryMeans(ring: Ring, remote: Remote, ask: Ask)
    ensures var (key, after) := NextFor(ring, ask);
            Try(ring, remote, ask) ==
            if key.None? then (NoKey, after)
            else var at := StorageKey(ask.target, key.value);
                 if at in remote && ask.now <= remote[at].expires
                 then (Again, MarkRedisExhausted(after, ask.model, key.value, remote[at].expires, remote[at].rpdLike, ask.now))
                 else (Found(key.value), after)
  {}
}
