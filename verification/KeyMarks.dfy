/** What marks do to the keys of a ring and to the shared store (internal/key_state.go:30-200;
    internal/key_cooldown.go:24-80; internal/runtime_cache.go:302-376), told by models, names,
    hits and times. */
module KeyMarks {
  import opened Canonical
  import opened KeyRing
  import opened KeySearch

  // ----- Which keys are eligible -----

  /** A key serves a target unless both name a provider, or both number one, and differ. */
  predicate Serves(key: Key, target: Target) {
    && (key.providerName == "" || target.providerName in {"", key.providerName})
    && (key.providerID == 0 || target.providerID in {0, key.providerID})
  }

  /** A key is eligible exactly when it serves the target and no cooldown of the model and its
      name lasts beyond the time asked: one that expires now is over. */
  lemma EligibleIff(ring: Ring, key: Key, ask: Ask)
    ensures EligibleKey(ring, key, ask) <==>
            && Serves(key, ask.target)
            && (ask.model + "::" + key.name in ring.exhausted ==> ring.exhausted[ask.model + "::" + key.name] <= ask.now)
  {}

  function Serving(keys: seq<Key>, target: Target): set<nat> {
    set p: nat | p < |keys| && Serves(keys[p], target)
  }

  lemma {:induction false} AvailableIs(keys: seq<Key>, target: Target)
    ensures AvailableFor(keys, target) == |Serving(keys, target)|
  {
    if keys == [] {
      assert Serving(keys, target) == {};
    } else {
      var n: nat := |keys| - 1;
      AvailableIs(keys[..n], target);
      assert forall p: nat | p < n :: keys[..n][p] == keys[p];
      assert Serving(keys, target) == Serving(keys[..n], target) + if Serves(keys[n], target) then {n} else {};
    }
  }

  /** A call drops the entry of the key it returns, which is over, and no other. */
  lemma NextDropsStale(ring: Ring, ask: Ask)
    ensures var (key, after) := NextFor(ring, ask);
            && (key.None? ==> after == ring)
            && (key.Some? ==>
                  && ask.model + "::" + key.value.name !in after.exhausted
                  && (forall id | id != ask.model + "::" + key.value.name ::
                        (id in after.exhausted <==> id in ring.exhausted) && (id in ring.exhausted ==> after.exhausted[id] == ring.exhausted[id]))
                  && after == ring.(next := after.next, exhausted := after.exhausted))
  {
    hide Turns;
    if Turns(ring, ask) != [] {
      TurnsAreEligible(ring, ask);
      assert Turns(ring, ask)[0] in Turns(ring, ask);
    }
  }

  // ----- Marks in a row -----

  /** A ring in which a key is marked at the given times, each with its random part. */
  function MarkedAt(ring: Ring, model: string, key: Key, times: seq<(int, nat)>): Ring {
    if times == [] then ring else
      var (now, jitter) := times[|times| - 1];
      MarkExhausted(MarkedAt(ring, model, key, times[..|times| - 1]), model, key, now, jitter).0
  }

  /** The first hit of a key cools it for the short time, every other for the long one, an hour
      if none is set; a mark forgets the error of the key and the model, and touches no
      entry of another. */
  lemma {:induction false} MarksInARow(ring: Ring, model: string, key: Key, times: seq<(int, nat)>)
    requires times != []
    ensures var id, (now, jitter) := model + "::" + key.name, times[|times| - 1];
            var marked, hits := MarkedAt(ring, model, key, times), |times| + if id in ring.hits then ring.hits[id] else 0;
            && id in marked.exhausted && id in marked.hits && marked.hits[id] == hits
            && marked.exhausted[id] == now + jitter +
                 (if hits == 1 then ring.cooldown else if ring.rpdCooldown > 0 then ring.rpdCooldown else 3600 * 1_000_000_000)
            && marked.rpdLike == (if hits == 1 then ring.rpdLike else ring.rpdLike + {id})
            && id !in marked.errors
            && marked.keys == ring.keys && marked.next == ring.next
            && marked.cooldown == ring.cooldown && marked.rpdCooldown == ring.rpdCooldown
            && (forall other | other != id ::
                  (other in marked.exhausted <==> other in ring.exhausted)
                  && (other in ring.exhausted ==> marked.exhausted[other] == ring.exhausted[other]))
  {
    if |times| > 1 {
      MarksInARow(ring, model, key, times[..|times| - 1]);
    } else {
      assert times[..0] == [];
    }
  }

  /** The entry of the shared store after marks at the given times. */
  function StoredAt(remote: Remote, at: string, ring: Ring, times: seq<int>): Remote {
    if times == [] then remote else
      MarkRemote(StoredAt(remote, at, ring, times[..|times| - 1]), at, ring, times[|times| - 1]).0
  }

  /** The same in the shared store, with a minute for the short time if none is set; the
      stored expiry is that of the mark, cut to the second. */
  lemma {:induction false} StoredInARow(remote: Remote, at: string, ring: Ring, times: seq<int>)
    requires times != []
    ensures var stored, before := StoredAt(remote, at, ring, times), if at in remote then remote[at] else Cooldown(0, false, 0);
            var often := before.rpdLike || |times| + before.hits > 1;
            var cooldown := if often then (if ring.rpdCooldown > 0 then ring.rpdCooldown else 3600 * 1_000_000_000)
                            else if ring.cooldown > 0 then ring.cooldown else 60 * 1_000_000_000;
            var (_, expires, long) := MarkRemote(StoredAt(remote, at, ring, times[..|times| - 1]), at, ring, times[|times| - 1]);
            && at in stored && stored[at].hits == |times| + before.hits && (stored[at].rpdLike <==> often)
            && expires == times[|times| - 1] + cooldown && (long <==> often)
            && stored[at].expires <= expires < stored[at].expires + 1_000_000_000 && stored[at].expires % 1_000_000_000 == 0
            && (forall other | other != at :: (other in stored <==> other in remote) && (other in remote ==> stored[other] == remote[other]))
  {
    if |times| > 1 {
      StoredInARow(remote, at, ring, times[..|times| - 1]);
    } else {
      assert times[..0] == [];
    }
  }

  /** A key that is marked exhausted is not returned before its expiry, and is again from then
      on; keys of other names, and other models, are as they were. */
  lemma ExhaustedIsSkipped(ring: Ring, model: string, key: Key, now: int, jitter: nat, other: Key, ask: Ask)
    ensures var (marked, expires, rpdLike) := MarkExhausted(ring, model, key, now, jitter);
            && (ask.model == model && other.name == key.name ==>
                  (EligibleKey(marked, other, ask) <==> Serves(other, ask.target) && expires <= ask.now))
            && (ask.model + "::" + other.name != model + "::" + key.name ==>
                  (EligibleKey(marked, other, ask) <==> EligibleKey(ring, other, ask)))
  {}

  /** A key that is marked healthy is eligible again, its next hit is a first hit, and no error
      of its name is kept, in whatever model; the entries of others are. */
  lemma HealthyIsEligible(ring: Ring, model: string, key: Key, ask: Ask)
    requires ask.model == model && Serves(key, ask.target)
    ensures var healed := MarkHealthy(ring, model, key);
            && EligibleKey(healed, key, ask) && model + "::" + key.name !in healed.hits && model + "::" + key.name !in healed.rpdLike
            && (forall id | id in healed.errors :: healed.errors[id].key != key.name)
            && (forall id | id in ring.errors && ring.errors[id].key != key.name :: id in healed.errors && healed.errors[id] == ring.errors[id])
            && (forall id | id in ring.exhausted && id != model + "::" + key.name ::
                  id in healed.exhausted && healed.exhausted[id] == ring.exhausted[id])
  {}

  // ----- Removal -----

  /** Two records of a key: by the provider's number if both have one, else by their own. */
  predicate IsSame(a: Key, b: Key) {
    (a.providerKeyID == b.providerKeyID && a.providerKeyID != 0)
    || (a.id == b.id && (a.providerKeyID == 0 || b.providerKeyID == 0))
  }

  /** Removal takes out the key and nothing else, in order. */
  lemma {:induction false} WithoutKeepsOthers(keys: seq<Key>, key: Key)
    ensures forall k :: k in Without(keys, key) <==> k in keys && !IsSame(k, key)
    ensures (forall k <- keys :: !IsSame(k, key)) ==> Without(keys, key) == keys
  {
    hide SameKey, IsSame;
    if keys != [] {
      var before, last := keys[..|keys| - 1], keys[|keys| - 1];
      WithoutKeepsOthers(before, key);
      assert keys == before + [last];
      assert SameKey(last, key) <==> IsSame(last, key) by { SameIff(last, key); }
    }
  }

  lemma SameIff(a: Key, b: Key)
    ensures SameKey(a, b) <==> IsSame(a, b)
  {}

  /** With the key go its cooldowns in every model, and no cooldown that could not be one of
      its name; the cursor stays where it is, taken round the smaller ring. */
  lemma RemoveForgets(ring: Ring, key: Key, model: string)
    ensures var rest := Remove(ring, key);
            && model + "::" + key.name !in rest.exhausted && model + "::" + key.name !in rest.hits
            && model + "::" + key.name !in rest.rpdLike
            && (forall id | id in ring.exhausted && (forall m: string :: id != m + "::" + key.name) ::
                  id in rest.exhausted && rest.exhausted[id] == ring.exhausted[id])
            && (forall id | id in ring.hits && (forall m: string :: id != m + "::" + key.name) ::
                  id in rest.hits && rest.hits[id] == ring.hits[id])
            && rest.keys == Without(ring.keys, key)
            && (rest.keys != [] ==> rest.next == ring.next % |rest.keys|)
  {
    hide Without, HasSuffix;
    CursorTurns(ring, key);
    SuffixMeans(model, key.name);
    NamesOfOthers(key.name);
  }

  lemma CursorTurns(ring: Ring, key: Key)
    ensures var rest := Remove(ring, key); rest.keys != [] ==> rest.next == ring.next % |rest.keys|
  {
    hide Without, HasSuffix;
    var n := |Without(ring.keys, key)|;
    if ring.next < n {
      assert ring.next % n == ring.next by { WrapSmall(ring.next, n); }
    }
  }

  lemma SuffixMeans(model: string, name: string)
    ensures HasSuffix(model + "::" + name, "::" + name)
  {
    var id, suffix := model + "::" + name, "::" + name;
    assert id == model + suffix && id[|id| - |suffix|..] == suffix;
  }

  lemma NamesOfOthers(name: string)
    ensures forall id: string | HasSuffix(id, "::" + name) :: exists m: string :: id == m + "::" + name
  {
    var suffix := "::" + name;
    forall id: string | HasSuffix(id, suffix) ensures exists m: string :: id == m + "::" + name {
      var m := id[..|id| - |suffix|];
      assert id == m + suffix && m + suffix == m + "::" + name;
    }
  }

  // ----- Storage keys -----

  /** Keys of one provider, for a target, have entries of their own: by the number of the
      provider key if both have one, by name if neither has, and at last by their own id. */
  lemma OwnEntries(target: Target, a: Key, b: Key)
    requires target.providerID != 0 || target.providerName != "" || (a.providerID == b.providerID && a.providerName == b.providerName)
    ensures var same := StorageKey(target, a) == StorageKey(target, b);
            && (a.providerKeyID != 0 && b.providerKeyID != 0 ==> (same <==> a.providerKeyID == b.providerKeyID))
            && (a.providerKeyID == b.providerKeyID == 0 && a.name != "" && b.name != "" ==> (same <==> a.name == b.name))
            && (a.providerKeyID == b.providerKeyID == 0 && a.name == b.name == "" && a.id != 0 && b.id != 0 ==> (same <==> a.id == b.id))
  {
    hide FormatInt;
    var provider := if target.providerID != 0 then FormatInt(target.providerID)
                    else if target.providerName != "" then target.providerName else StringID(a.providerID, a.providerName);
    FormatNotEmpty(target.providerID);
    FormatNotEmpty(a.providerKeyID);
    FormatNotEmpty(b.providerKeyID);
    var prefix := provider + "::" + target.upstreamModel + "::";
    assert StorageKey(target, a) == prefix + EntryName(a) && StorageKey(target, b) == prefix + EntryName(b);
    Between(prefix, EntryName(a), EntryName(b), "");
    assert forall s: string {:trigger s + ""} :: s + "" == s;
    FormatOwn(a.providerKeyID, b.providerKeyID);
    FormatOwn(a.id, b.id);
  }

  function EntryName(key: Key): string {
    if key.providerKeyID != 0 then FormatInt(key.providerKeyID)
    else if key.name != "" then key.name
    else if key.id != 0 then FormatInt(key.id) else ""
  }

  lemma FormatOwn(m: int, n: int)
    ensures FormatInt(m) == FormatInt(n) <==> m == n
  {
    if FormatInt(m) == FormatInt(n) {
      FormatInjective(m, n);
    }
  }

  /** For a target that names no provider, keys of different numbered providers have entries of
      their own. */
  lemma OwnProviders(target: Target, a: Key, b: Key)
    requires target.providerID == 0 && target.providerName == "" && a.providerID != 0 && b.providerID != 0
    requires StorageKey(target, a) == StorageKey(target, b)
    ensures a.providerID == b.providerID
  {
    hide FormatInt;
    var p, q := FormatInt(a.providerID), FormatInt(b.providerID);
    FormatHasNoColon(a.providerID);
    FormatHasNoColon(b.providerID);
    var at, bt := StorageKey(target, a), StorageKey(target, b);
    assert at[..|p|] == p && at[|p|] == ':';
    assert bt[..|q|] == q && bt[|q|] == ':';
    NotShorter(at, p, q);
    NotShorter(at, q, p);
    FormatInjective(a.providerID, b.providerID);
  }

  /** A prefix without a colon ends before the first colon. */
  lemma NotShorter(s: string, p: string, q: string)
    requires |p| < |s| && s[|p|] == ':' && q <= s && ':' !in q
    ensures |q| <= |p|
  {
    assert forall k | 0 <= k < |q| :: s[k] == q[k] && q[k] in q;
  }

  lemma FormatHasNoColon(n: int)
    ensures ':' !in FormatInt(n)
  {
    DecimalIsDigits(if n < 0 then -n else n);
  }

  lemma FormatNotEmpty(n: int)
    ensures FormatInt(n) != ""
  {
    if n >= 0 {
      DecimalIsDigits(n);
    }
  }

  /** A key has an entry of its own for every upstream model of a provider. */
  lemma OwnModels(target: Target, model: string, key: Key)
    ensures StorageKey(target, key) == StorageKey(target.(upstreamModel := model), key) <==> target.upstreamModel == model
  {
    var own := StringID(target.providerID, target.providerName);
    var provider := if own == "" then StringID(key.providerID, key.providerName) else own;
    var keyID := StringID(key.providerKeyID, key.name);
    var first, last := provider + "::", "::" + if keyID == "" then StringID(key.id, key.name) else keyID;
    assert StorageKey(target, key) == first + target.upstreamModel + last;
    assert StorageKey(target.(upstreamModel := model), key) == first + model + last;
    Between(first, target.upstreamModel, model, last);
  }

  lemma Between(first: string, a: string, b: string, last: string)
    ensures first + a + last == first + b + last <==> a == b
  {
    if first + a + last == first + b + last {
      assert |a| == |b|;
      assert (first + a + last)[|first|..|first| + |a|] == a && (first + b + last)[|first|..|first| + |b|] == b;
    }
  }
}
