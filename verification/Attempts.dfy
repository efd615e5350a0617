/** The two retry loops (internal/provider.go:380-548; internal/util.go:140-153;
    internal/route_session.go:11-34): keys of one target, targets of one request, and one budget
    for both. What the key search and the upstreams answer is given beforehand. */
module Attempts {
  import opened Canonical

  datatype Reply = NoReply | Response(status: int, keyInvalid: bool)

  datatype Link =
    | Failed(key: string, status: int)
    | KeyDisabled(key: string, status: int)
    | AllKeysCooling
    | ProviderNotFound
  {
    /** The links that stand for a target and not for an attempt. */
    predicate Barred() { AllKeysCooling? || ProviderNotFound? }
  }

  /** A route target: whether its provider is configured, and how many keys serve it. */
  datatype Target = Target(id: int, known: bool, keys: nat)

  /** The answers to come, and the requests sent so far. */
  datatype World = World(picks: seq<Option<string>>, replies: seq<Reply>, forwards: nat)

  datatype Result = Result(ok: bool, attempts: nat, chain: seq<Link>, status: int)

  function Pick(w: World): Option<string> {
    if w.picks == [] then None else w.picks[0]
  }

  function Picked(w: World): World {
    if w.picks == [] then w else w.(picks := w.picks[1..])
  }

  function Answer(w: World): Reply {
    if w.replies == [] then NoReply else w.replies[0]
  }

  function Forwarded(w: World): World {
    w.(replies := if w.replies == [] then [] else w.replies[1..], forwards := w.forwards + 1)
  }

  predicate ShouldRetry(status: int) {
    status == 429 || status >= 500
  }

  predicate DisablesKey(status: int, keyInvalid: bool) {
    status == 401 || status == 403 || (status == 400 && keyInvalid)
  }

  /** Whether a reply ends the loop with success. */
  predicate Settles(r: Reply) {
    r.Response? && !ShouldRetry(r.status) && !DisablesKey(r.status, r.keyInvalid)
  }

  function LinkOf(key: string, r: Reply): Link {
    match r
    case NoReply => Failed(key, 0)
    case Response(status, _) => if ShouldRetry(status) then Failed(key, status) else KeyDisabled(key, status)
  }

  function LastStatus(last: Option<int>, r: Reply): Option<int> {
    if r.Response? && r.status >= 400 then Some(r.status) else last
  }

  function StatusOf(last: Option<int>): int {
    if last.Some? then last.value else 429
  }

  /** The loop over the keys of one target. */
  function KeyLoop(w: World, limit: nat, attempts: nat, chain: seq<Link>, last: Option<int>): (World, Result)
    decreases if attempts < limit then limit - attempts else 0
  {
    if attempts >= limit then (w, Result(false, attempts, chain, StatusOf(last))) else
      match Pick(w)
      case None => (Picked(w), Result(false, attempts, chain + [AllKeysCooling], StatusOf(last)))
      case Some(key) =>
        var r, w' := Answer(Picked(w)), Forwarded(Picked(w));
        if Settles(r) then (w', Result(true, attempts + 1, chain, r.status))
        else KeyLoop(w', limit, attempts + 1, chain + [LinkOf(key, r)], LastStatus(last, r))
  }

  /** What one target may use of the budget. */
  function Limit(target: Target, budget: int): nat {
    var max := if 0 < target.keys < budget then target.keys else budget;
    if max <= 0 then 1 else max
  }

  function AttemptLoop(w: World, target: Target, budget: int): (World, Result) {
    if !target.known then (w, Result(false, 0, [ProviderNotFound], 502))
    else KeyLoop(w, Limit(target, budget), 0, [], None)
  }

  function Budget(maxAttempts: int): nat {
    if maxAttempts <= 0 then 1 else maxAttempts
  }

  /** The loop over targets. */
  function TargetLoop(w: World, targets: seq<Target>, max: nat, done: Result): (World, Result)
    decreases |targets|
  {
    if targets == [] || done.attempts >= max then (w, done) else
      var (w', r) := AttemptLoop(w, targets[0], max - done.attempts);
      var combined := Result(r.ok, done.attempts + r.attempts, done.chain + r.chain, r.status);
      if r.ok then (w', combined) else TargetLoop(w', targets[1..], max, combined)
  }

  const NOTHING_TRIED := Result(false, 0, [], 429)

  // ----- The methods -----

  class Proxy {
    var picks: seq<Option<string>>
    var replies: seq<Reply>
    var forwards: nat

    ghost function View(): World
      reads this
    {
      World(picks, replies, forwards)
    }

    constructor (picks: seq<Option<string>>, replies: seq<Reply>)
      ensures View() == World(picks, replies, 0)
    {
      this.picks, this.replies, forwards := picks, replies, 0;
    }

    method NextKey() returns (key: Option<string>)
      modifies this`picks
      ensures key == Pick(old(View())) && View() == Picked(old(View()))
    {
      key := None;
      if picks != [] {
        key, picks := picks[0], picks[1..];
      }
    }

    method Forward() returns (r: Reply)
      modifies this`replies, this`forwards
      ensures r == Answer(old(View())) && View() == Forwarded(old(View()))
    {
      r := NoReply;
      if replies != [] {
        r, replies := replies[0], replies[1..];
      }
      forwards := forwards + 1;
    }

    /** doProviderAttemptLoop. */
    method DoAttemptLoop(target: Target, budget: int) returns (result: Result)
      modifies this
      ensures (View(), result) == AttemptLoop(old(View()), target, budget)
    {
      var maxAttempts := budget;
      if target.keys > 0 && target.keys < maxAttempts {
        maxAttempts := target.keys;
      }
      if maxAttempts <= 0 {
        maxAttempts := 1;
      }
      if !target.known {
        return Result(false, 0, [ProviderNotFound], 502);
      }
      var chain: seq<Link>, last: Option<int>, attempts := [], None, 0;
      while attempts < maxAttempts
        invariant 0 <= attempts <= maxAttempts
        invariant AttemptLoop(old(View()), target, budget) == KeyLoop(View(), maxAttempts, attempts, chain, last)
      {
        var key := NextKey();
        if key.None? {
          return Result(false, attempts, chain + [AllKeysCooling], if last.Some? then last.value else 429);
        }
        attempts := attempts + 1;
        var r := Forward();
        if r.NoReply? {
          chain := chain + [Failed(key.value, 0)];
          continue;
        }
        if r.status >= 400 {
          last := Some(r.status);
        }
        if ShouldRetry(r.status) {
          chain := chain + [Failed(key.value, r.status)];
        } else if DisablesKey(r.status, r.keyInvalid) {
          chain := chain + [KeyDisabled(key.value, r.status)];
        } else {
          return Result(true, attempts, chain, r.status);
        }
      }
      result := Result(false, attempts, chain, if last.Some? then last.value else 429);
    }

    /** doProviderTargetLoop, on the targets in the order in which they are tried. */
    method DoTargetLoop(targets: seq<Target>, maxAttempts: int) returns (result: Result)
      modifies this
      ensures (View(), result) == TargetLoop(old(View()), targets, Budget(maxAttempts), NOTHING_TRIED)
    {
      hide AttemptLoop;
      var max := if maxAttempts <= 0 then 1 else maxAttempts;
      result := NOTHING_TRIED;
      for k := 0 to |targets|
        invariant TargetLoop(old(View()), targets, max, NOTHING_TRIED) == TargetLoop(View(), targets[k..], max, result)
      {
        var remaining := max - result.attempts;
        if remaining <= 0 {
          break;
        }
        assert targets[k..][0] == targets[k] && targets[k..][1..] == targets[k + 1..];
        var r := DoAttemptLoop(targets[k], remaining);
        result := Result(r.ok, result.attempts + r.attempts, result.chain + r.chain, r.status);
        if r.ok {
          return;
        }
      }
    }
  }

  // ----- Budget and accounting -----

  function Bars(chain: seq<Link>): nat {
    if chain == [] then 0 else Bars(chain[..|chain| - 1]) + if chain[|chain| - 1].Barred() then 1 else 0
  }

  lemma {:induction false} BarsAppend(a: seq<Link>, b: seq<Link>)
    ensures Bars(a + b) == Bars(a) + Bars(b)
  {
    if b == [] {
      assert a + b == a;
    } else {
      assert (a + b)[..|a + b| - 1] == a + b[..|b| - 1];
      BarsAppend(a, b[..|b| - 1]);
    }
  }

  lemma BarsOne(chain: seq<Link>, link: Link)
    ensures Bars(chain + [link]) == Bars(chain) + if link.Barred() then 1 else 0
  {
    assert (chain + [link])[..|chain|] == chain;
  }

  /** The chain has a link for every attempt that failed, and one for every bar. */
  predicate Accounted(r: Result) {
    |r.chain| == r.attempts - (if r.ok then 1 else 0) + Bars(r.chain)
  }

  lemma {:induction false} KeyLoopAccounts(w: World, limit: nat, attempts: nat, chain: seq<Link>, last: Option<int>)
    requires attempts <= limit && |chain| == attempts && Bars(chain) == 0
    ensures var (w', r) := KeyLoop(w, limit, attempts, chain, last);
            && r.attempts <= limit && w'.forwards - w.forwards == r.attempts - attempts
            && Accounted(r) && Bars(r.chain) <= 1
            && (r.ok ==> Bars(r.chain) == 0 && r.attempts > attempts)
            && (!r.ok && Bars(r.chain) == 0 ==> r.attempts == limit)
    decreases limit - attempts
  {
    if attempts < limit {
      match Pick(w)
      case None => BarsOne(chain, AllKeysCooling);
      case Some(key) =>
        var r, w' := Answer(Picked(w)), Forwarded(Picked(w));
        if !Settles(r) {
          BarsOne(chain, LinkOf(key, r));
          KeyLoopAccounts(w', limit, attempts + 1, chain + [LinkOf(key, r)], LastStatus(last, r));
        }
    }
  }

  /** One target: it uses no more than its share of the budget; if it fails, it has used it up,
      run out of keys, or has no provider. */
  lemma AttemptLoopAccounts(w: World, target: Target, budget: nat)
    requires budget > 0
    ensures var (w', r) := AttemptLoop(w, target, budget);
            var share := if target.keys == 0 || target.keys > budget then budget else target.keys;
            && r.attempts <= share && w'.forwards == w.forwards + r.attempts
            && Accounted(r) && Bars(r.chain) <= 1
            && (!r.ok && Bars(r.chain) == 0 ==> r.attempts == share)
  {
    if target.known {
      KeyLoopAccounts(w, Limit(target, budget), 0, [], None);
    } else {
      BarsOne([], ProviderNotFound);
      assert [] + [ProviderNotFound] == [ProviderNotFound];
    }
  }

  lemma {:induction false} TargetLoopAccounts(w: World, targets: seq<Target>, max: nat, done: Result)
    requires done.attempts <= max && !done.ok && Accounted(done)
    ensures var (w', r) := TargetLoop(w, targets, max, done);
            && r.attempts <= max && w'.forwards - w.forwards == r.attempts - done.attempts
            && Accounted(r) && Bars(r.chain) <= Bars(done.chain) + |targets|
    decreases |targets|
  {
    hide AttemptLoop, Bars;
    if targets != [] && done.attempts < max {
      AttemptLoopAccounts(w, targets[0], max - done.attempts);
      var (w', r) := AttemptLoop(w, targets[0], max - done.attempts);
      BarsAppend(done.chain, r.chain);
      if !r.ok {
        TargetLoopAccounts(w', targets[1..], max, Result(r.ok, done.attempts + r.attempts, done.chain + r.chain, r.status));
      }
    }
  }

  /** Over all targets and keys: no more requests are sent than the budget, every one is counted,
      and the chain has a link for each of them but a successful last one, and one for each target
      that ended with all keys cooling or no provider. */
  lemma SharedBudget(w: World, targets: seq<Target>, maxAttempts: int)
    ensures var (w', r) := TargetLoop(w, targets, Budget(maxAttempts), NOTHING_TRIED);
            && w'.forwards - w.forwards == r.attempts && (r.attempts <= 1 || r.attempts <= maxAttempts)
            && |r.chain| == r.attempts - (if r.ok then 1 else 0) + Bars(r.chain)
            && Bars(r.chain) <= |targets|
  {
    TargetLoopAccounts(w, targets, Budget(maxAttempts), NOTHING_TRIED);
  }

  // ----- Success -----

  /** The k-th reply to come; none when the list is at its end. */
  function ReplyAt(w: World, k: nat): Reply {
    if k < |w.replies| then w.replies[k] else NoReply
  }

  /** A reply that is handed to the client: neither rate limited nor a failure of the server,
      and one whose key was accepted. */
  predicate Accepted(r: Reply) {
    match r
    case NoReply => false
    case Response(status, keyInvalid) =>
      status != 429 && status < 500 && status != 401 && status != 403 && !(status == 400 && keyInvalid)
  }

  lemma SettlesIff(r: Reply)
    ensures Settles(r) <==> Accepted(r)
  {}

  /** A result after `n` requests: it is a success exactly when the last of the replies is accepted,
      none before it was, and the status of a success is that reply's. */
  predicate Told(w: World, n: nat, r: Result) {
    && (r.ok <==> n > 0 && Accepted(ReplyAt(w, n - 1)))
    && (forall k: nat | k + 1 < n :: !Accepted(ReplyAt(w, k)))
    && (r.ok ==> r.status == ReplyAt(w, n - 1).status)
  }

  /** The replies still to come after `n` requests. */
  ghost predicate Sent(w: World, w': World, n: nat) {
    w'.forwards == w.forwards + n && forall k: nat :: ReplyAt(w', k) == ReplyAt(w, n + k)
  }

  lemma SentMore(w: World, w1: World, w2: World, m: nat, n: nat)
    requires Sent(w, w1, m) && Sent(w1, w2, n)
    ensures Sent(w, w2, m + n)
  {
    forall k: nat ensures ReplyAt(w2, k) == ReplyAt(w, m + n + k) {
      assert ReplyAt(w2, k) == ReplyAt(w1, n + k) == ReplyAt(w, m + (n + k));
    }
  }

  /** Replies that were not accepted, and then a result on those after them. */
  lemma ToldMore(w: World, w': World, m: nat, n: nat, r: Result)
    requires Sent(w, w', m) && Told(w', n, r)
    requires forall k: nat | k < m :: !Accepted(ReplyAt(w, k))
    ensures Told(w, m + n, r)
  {
    hide Accepted;
    assert n > 0 ==> ReplyAt(w', n - 1) == ReplyAt(w, m + (n - 1));
    forall k: nat | k + 1 < m + n ensures !Accepted(ReplyAt(w, k)) {
      if k >= m {
        assert ReplyAt(w', k - m) == ReplyAt(w, m + (k - m));
      }
    }
  }

  lemma OneSent(w: World)
    ensures Sent(w, Forwarded(Picked(w)), 1) && Answer(Picked(w)) == ReplyAt(w, 0)
  {}

  lemma {:induction false} KeyLoopTells(w: World, limit: nat, attempts: nat, chain: seq<Link>, last: Option<int>)
    requires attempts <= limit
    ensures var (w', r) := KeyLoop(w, limit, attempts, chain, last);
            r.attempts >= attempts && Sent(w, w', r.attempts - attempts) && Told(w, r.attempts - attempts, r)
    decreases limit - attempts
  {
    hide Sent, Told;
    NoneSent(w);
    if attempts < limit && Pick(w).Some? {
      var r, w' := Answer(Picked(w)), Forwarded(Picked(w));
      OneSent(w);
      SettlesIff(r);
      if Settles(r) {
        SettledTells(w, Result(true, attempts + 1, chain, r.status));
      } else {
        KeyLoopTells(w', limit, attempts + 1, chain + [LinkOf(Pick(w).value, r)], LastStatus(last, r));
        var (w2, result) := KeyLoop(w', limit, attempts + 1, chain + [LinkOf(Pick(w).value, r)], LastStatus(last, r));
        SentMore(w, w', w2, 1, result.attempts - attempts - 1);
        ToldMore(w, w', 1, result.attempts - attempts - 1, result);
      }
    } else if attempts < limit {
      PickedSent(w);
      NothingTold(w, Result(false, attempts, chain + [AllKeysCooling], StatusOf(last)));
    } else {
      NothingTold(w, Result(false, attempts, chain, StatusOf(last)));
    }
  }

  lemma NoneSent(w: World)
    ensures Sent(w, w, 0)
  {}

  lemma PickedSent(w: World)
    ensures Sent(w, Picked(w), 0)
  {}

  lemma NothingTold(w: World, r: Result)
    requires !r.ok
    ensures Told(w, 0, r)
  {}

  lemma SettledTells(w: World, r: Result)
    requires r.ok && Accepted(ReplyAt(w, 0)) && r.status == ReplyAt(w, 0).status
    ensures Told(w, 1, r)
  {}

  lemma {:induction false} TargetLoopTells(w: World, targets: seq<Target>, max: nat, done: Result)
    requires done.attempts <= max && !done.ok
    ensures var (w', r) := TargetLoop(w, targets, max, done);
            r.attempts >= done.attempts && Sent(w, w', r.attempts - done.attempts) && Told(w, r.attempts - done.attempts, r)
    decreases |targets|
  {
    hide Accepted, Sent, Told, AttemptLoop;
    NoneSent(w);
    NothingTold(w, done);
    if targets != [] && done.attempts < max {
      AttemptLoopTells(w, targets[0], max - done.attempts);
      AttemptLoopAccounts(w, targets[0], max - done.attempts);
      var (w', r) := AttemptLoop(w, targets[0], max - done.attempts);
      var combined := Result(r.ok, done.attempts + r.attempts, done.chain + r.chain, r.status);
      SameTold(w, r.attempts, r, combined);
      if !r.ok {
        TargetLoopTells(w', targets[1..], max, combined);
        var (w2, result) := TargetLoop(w', targets[1..], max, combined);
        var n := result.attempts - combined.attempts;
        SentMore(w, w', w2, r.attempts, n);
        NoneSettled(w, r.attempts, r);
        ToldMore(w, w', r.attempts, n, result);
      }
    }
  }

  lemma AttemptLoopTells(w: World, target: Target, budget: nat)
    requires budget > 0
    ensures var (w', r) := AttemptLoop(w, target, budget); Sent(w, w', r.attempts) && Told(w, r.attempts, r)
  {
    hide Accepted, Sent, Told;
    if target.known {
      KeyLoopTells(w, Limit(target, budget), 0, [], None);
    } else {
      NoneSent(w);
      NothingTold(w, Result(false, 0, [ProviderNotFound], 502));
    }
  }

  lemma SameTold(w: World, n: nat, r: Result, s: Result)
    requires Told(w, n, r) && s.ok == r.ok && s.status == r.status
    ensures Told(w, n, s)
  {}

  lemma NoneSettled(w: World, n: nat, r: Result)
    requires Told(w, n, r) && !r.ok
    ensures forall k: nat | k < n :: !Accepted(ReplyAt(w, k))
  {
    hide Accepted;
  }

  /** Over all targets and keys: when `n` requests are sent, they take the first `n` replies; the
      result is a success exactly when the last of these is accepted, and none before it was. */
  lemma OkIsSettled(w: World, targets: seq<Target>, maxAttempts: int)
    ensures var (w', r) := TargetLoop(w, targets, Budget(maxAttempts), NOTHING_TRIED);
            Sent(w, w', r.attempts) && Told(w, r.attempts, r)
  {
    hide Sent, Told;
    TargetLoopTells(w, targets, Budget(maxAttempts), NOTHING_TRIED);
  }

  // ----- Failure -----

  function PickAt(w: World, k: nat): Option<string> {
    if k < |w.picks| then w.picks[k] else None
  }

  /** What the chain says of an attempt that failed. */
  function Trouble(key: Option<string>, r: Reply): Link {
    var name := if key.Some? then key.value else "";
    match r
    case NoReply => Failed(name, 0)
    case Response(status, _) => if status == 429 || 500 <= status then Failed(name, status) else KeyDisabled(name, status)
  }

  function Troubles(w: World, n: nat): seq<Link> {
    seq(n, k requires 0 <= k < n => Trouble(PickAt(w, k), ReplyAt(w, k)))
  }

  /** The status of the last of the first `n` replies that is an error, if one is. */
  function LastError(w: World, from: nat, n: nat): Option<int>
    requires from <= n
    decreases n
  {
    if n == from then None else
      match ReplyAt(w, n - 1)
      case Response(status, _) => if status >= 400 then Some(status) else LastError(w, from, n - 1)
      case NoReply => LastError(w, from, n - 1)
  }

  function OrElse(a: Option<int>, b: Option<int>): Option<int> {
    if a.Some? then a else b
  }

  lemma NextWorld(w: World, n: nat)
    requires Pick(w).Some?
    ensures var w' := Forwarded(Picked(w));
            && (forall k: nat :: PickAt(w', k) == PickAt(w, k + 1) && ReplyAt(w', k) == ReplyAt(w, k + 1))
            && PickAt(w, 0) == Pick(w) && ReplyAt(w, 0) == Answer(Picked(w))
  {}

  lemma {:induction false} NextError(w: World, w': World, n: nat)
    requires forall k: nat :: ReplyAt(w', k) == ReplyAt(w, k + 1)
    ensures LastError(w, 0, n + 1) == OrElse(LastError(w', 0, n), LastError(w, 0, 1))
  {
    hide ReplyAt;
    if n > 0 {
      NextError(w, w', n - 1);
      assert ReplyAt(w', n - 1) == ReplyAt(w, n);
    }
  }

  lemma LinkIs(key: string, r: Reply)
    ensures LinkOf(key, r) == Trouble(Some(key), r)
  {}

  lemma NextTroubles(w: World, w': World, n: nat)
    requires forall k: nat :: PickAt(w', k) == PickAt(w, k + 1) && ReplyAt(w', k) == ReplyAt(w, k + 1)
    ensures Troubles(w, n + 1) == [Trouble(PickAt(w, 0), ReplyAt(w, 0))] + Troubles(w', n)
  {}

  /** A result after `n` requests to one target with a share of `limit`: a link for each failure,
      and one more if it ran out of keys; and for a failure the status of the last error. */
  ghost predicate Explained(w: World, limit: nat, n: nat, r: Result, chain: seq<Link>, last: Option<int>) {
    && n <= limit && (r.ok ==> n > 0) && (forall k: nat | k < n :: PickAt(w, k).Some?)
    && r.chain == chain + Troubles(w, if r.ok then n - 1 else n) + (if !r.ok && n < limit then [AllKeysCooling] else [])
    && (!r.ok && n < limit ==> PickAt(w, n).None?)
    && (!r.ok ==> r.status == match OrElse(LastError(w, 0, n), last) case Some(status) => status case None => 429)
  }

  lemma {:induction false} KeyLoopExplained(w: World, limit: nat, attempts: nat, chain: seq<Link>, last: Option<int>)
    requires attempts <= limit
    ensures var (w', r) := KeyLoop(w, limit, attempts, chain, last);
            r.attempts >= attempts && Explained(w, limit - attempts, r.attempts - attempts, r, chain, last)
    decreases limit - attempts
  {
    hide Explained, Troubles;
    if attempts >= limit {
      EndExplained(w, 0, Result(false, attempts, chain, StatusOf(last)), chain, last);
    } else if Pick(w).None? {
      EndExplained(w, limit - attempts, Result(false, attempts, chain + [AllKeysCooling], StatusOf(last)), chain, last);
    } else {
      var key, r, w' := Pick(w).value, Answer(Picked(w)), Forwarded(Picked(w));
      if Settles(r) {
        SettledExplained(w, limit - attempts, Result(true, attempts + 1, chain, r.status), chain, last);
      } else {
        KeyLoopExplained(w', limit, attempts + 1, chain + [LinkOf(key, r)], LastStatus(last, r));
        var (w2, result) := KeyLoop(w', limit, attempts + 1, chain + [LinkOf(key, r)], LastStatus(last, r));
        MoreExplained(w, limit - attempts, result.attempts - attempts - 1, result, chain, last);
      }
    }
  }

  lemma EndExplained(w: World, limit: nat, r: Result, chain: seq<Link>, last: Option<int>)
    requires !r.ok && r.status == StatusOf(last) && (limit > 0 ==> Pick(w).None?)
    requires r.chain == chain + if limit > 0 then [AllKeysCooling] else []
    ensures Explained(w, limit, 0, r, chain, last)
  {
    assert Troubles(w, 0) == [];
    assert chain + [] == chain;
  }

  lemma SettledExplained(w: World, limit: nat, r: Result, chain: seq<Link>, last: Option<int>)
    requires limit > 0 && Pick(w).Some? && r.ok && r.chain == chain
    ensures Explained(w, limit, 1, r, chain, last)
  {
    assert Troubles(w, 0) == [];
    assert chain + [] + [] == chain;
  }

  lemma MoreExplained(w: World, limit: nat, n: nat, r: Result, chain: seq<Link>, last: Option<int>)
    requires limit > 0 && Pick(w).Some?
    requires var reply := Answer(Picked(w));
             Explained(Forwarded(Picked(w)), limit - 1, n, r, chain + [LinkOf(Pick(w).value, reply)], LastStatus(last, reply))
    ensures Explained(w, limit, n + 1, r, chain, last)
  {
    hide LinkOf, Troubles, Trouble, PickAt, ReplyAt, Picked, Forwarded;
    var w', reply := Forwarded(Picked(w)), Answer(Picked(w));
    NextWorld(w, n);
    NextError(w, w', n);
    LinkIs(Pick(w).value, reply);
    assert LastError(w, 0, 0) == None;
    assert LastStatus(last, reply) == OrElse(LastError(w, 0, 1), last);
    var m := if r.ok then n - 1 else n;
    NextTroubles(w, w', m);
    var end := if !r.ok && n < limit - 1 then [AllKeysCooling] else [];
    assert chain + [LinkOf(Pick(w).value, reply)] + Troubles(w', m) + end == chain + Troubles(w, m + 1) + end;
    forall k: nat | k < n + 1 ensures PickAt(w, k).Some? {
      assert k > 0 ==> PickAt(w', k - 1) == PickAt(w, k);
    }
    assert PickAt(w', n) == PickAt(w, n + 1);
  }

  /** What one target comes to: how its chain reads, and what a failure looks like. */
  lemma AttemptLoopExplained(w: World, target: Target, budget: nat)
    requires budget > 0
    ensures var (w', r) := AttemptLoop(w, target, budget);
            var share := if target.keys == 0 || target.keys > budget then budget else target.keys;
            if target.known then Explained(w, share, r.attempts, r, [], None)
            else r == Result(false, 0, [ProviderNotFound], 502)
  {
    if target.known {
      KeyLoopExplained(w, Limit(target, budget), 0, [], None);
    }
  }

  // ----- Failure of a request -----

  /** Target `j` is the last one tried, with all but `from` of the requests: none is left to try or no
      request is left to send. */
  ghost predicate LastTried(w: World, targets: seq<Target>, max: nat, done: Result, j: nat, from: nat, r: Result) {
    && j < |targets|
    && var before := TargetLoop(w, targets[..j], max, done).1;
    && !before.ok && before.attempts == done.attempts + from < max && done.attempts + from <= r.attempts
    && (j + 1 == |targets| || r.attempts >= max)
  }

  /** The status of a target's failure, after the replies from the one number to the other. */
  predicate IsStatus(status: int, target: Target, w: World, from: nat, n: nat)
    requires from <= n
  {
    if !target.known then status == 502
    else match LastError(w, from, n)
         case Some(error) => status == error
         case None => status == 429
  }

  lemma {:induction false} FailsByLast(w: World, targets: seq<Target>, max: nat, done: Result) returns (j: nat, from: nat)
    requires targets != [] && done.attempts < max && !done.ok && !TargetLoop(w, targets, max, done).1.ok
    ensures var r := TargetLoop(w, targets, max, done).1;
            && LastTried(w, targets, max, done, j, from, r)
            && IsStatus(r.status, targets[j], w, from, r.attempts - done.attempts)
    decreases |targets|
  {
    hide AttemptLoop, Sent, Told, Explained, Bars, Accepted, Accounted;
    AttemptLoopExplained(w, targets[0], max - done.attempts);
    AttemptLoopTells(w, targets[0], max - done.attempts);
    AttemptLoopAccounts(w, targets[0], max - done.attempts);
    var (w', r) := AttemptLoop(w, targets[0], max - done.attempts);
    var combined := Result(r.ok, done.attempts + r.attempts, done.chain + r.chain, r.status);
    if |targets| == 1 || combined.attempts >= max {
      j, from := 0, 0;
      assert targets[..0] == [];
      StatusExplained(w, r, targets[0].known);
    } else {
      var rest := targets[1..];
      var k, m := FailsByLast(w', rest, max, combined);
      j, from := k + 1, m + r.attempts;
      assert targets[..j][1..] == rest[..k] && targets[..j][0] == targets[0];
      var end := TargetLoop(w, targets, max, done).1;
      LaterError(w, w', r.attempts, m, end.attempts - combined.attempts);
    }
  }

  lemma StatusExplained(w: World, r: Result, known: bool)
    requires !r.ok
    requires if known then exists limit: nat :: Explained(w, limit, r.attempts, r, [], None)
             else r == Result(false, 0, [ProviderNotFound], 502)
    ensures r.status == if !known then 502 else match LastError(w, 0, r.attempts) case Some(status) => status case None => 429
  {}

  /** The replies of a target that follow those of others. */
  lemma {:induction false} LaterError(w: World, w': World, sent: nat, from: nat, n: nat)
    requires Sent(w, w', sent) && from <= n
    ensures LastError(w, sent + from, sent + n) == LastError(w', from, n)
  {
    hide ReplyAt;
    if n > from {
      LaterError(w, w', sent, from, n - 1);
      assert ReplyAt(w', n - 1) == ReplyAt(w, sent + (n - 1));
    }
  }

  /** A request that fails does so with the status of the last error its last target answered,
      429 if it answered none, 502 if it has no provider; and then no target is left to try or
      no request to send. */
  lemma FailureStatus(w: World, targets: seq<Target>, maxAttempts: int)
    ensures var max := if maxAttempts < 1 then 1 else maxAttempts;
            var r := TargetLoop(w, targets, Budget(maxAttempts), NOTHING_TRIED).1;
            && (targets == [] ==> r == Result(false, 0, [], 429))
            && (targets != [] && !r.ok ==>
                  exists j: nat, from: nat ::
                    && LastTried(w, targets, max, NOTHING_TRIED, j, from, r)
                    && IsStatus(r.status, targets[j], w, from, r.attempts))
  {
    if targets != [] && !TargetLoop(w, targets, Budget(maxAttempts), NOTHING_TRIED).1.ok {
      var j, from := FailsByLast(w, targets, Budget(maxAttempts), NOTHING_TRIED);
      var r := TargetLoop(w, targets, Budget(maxAttempts), NOTHING_TRIED).1;
      assert IsStatus(r.status, targets[j], w, from, r.attempts);
      assert LastTried(w, targets, if maxAttempts < 1 then 1 else maxAttempts, NOTHING_TRIED, j, from, r);
    }
  }

  // ----- The session's target first -----

  function IndexOf(targets: seq<Target>, id: int): (i: nat)
    ensures i <= |targets| && (i < |targets| ==> targets[i].id == id)
  {
    if targets == [] then 0 else
      var n := |targets| - 1;
      var i := IndexOf(targets[..n], id);
      if i < n || targets[n].id == id then i else n + 1
  }

  /** preferRouteSessionTarget: the target of the session, if it is still there, goes first. */
  function Prefer(targets: seq<Target>, session: Option<int>): seq<Target> {
    if |targets| <= 1 || session.None? || session.value == 0 then targets else
      var i := IndexOf(targets, session.value);
      if i == |targets| then targets else [targets[i]] + targets[..i] + targets[i + 1..]
  }

  method PreferRouteSessionTarget(targets: seq<Target>, session: Option<int>) returns (out: seq<Target>)
    ensures out == Prefer(targets, session)
    ensures multiset(out) == multiset(targets)
    ensures IsFirst(targets, session, out)
  {
    PreferReorders(targets, session);
    PreferLeads(targets, session);
    if |targets| <= 1 || session.None? || session.value == 0 {
      return targets;
    }
    for i := 0 to |targets|
      invariant IndexOf(targets[..i], session.value) == i
    {
      assert targets[..i + 1][..i] == targets[..i];
      if targets[i].id == session.value {
        IndexStays(targets, session.value, i);
        if i == 0 {
          assert [targets[0]] + targets[..0] + targets[1..] == targets;
          return targets;
        }
        return [targets[i]] + targets[..i] + targets[i + 1..];
      }
    }
    assert targets[..|targets|] == targets;
    out := targets;
  }

  lemma {:induction false} IndexStays(targets: seq<Target>, id: int, i: nat)
    requires i < |targets| && IndexOf(targets[..i], id) == i && targets[i].id == id
    ensures IndexOf(targets, id) == i
    decreases |targets|
  {
    var n := |targets| - 1;
    if i < n {
      assert targets[..n][..i] == targets[..i];
      IndexStays(targets[..n], id, i);
    }
  }

  /** Target `i` is the first with the session's id; it comes first, the others as they were. */
  predicate Leads(targets: seq<Target>, id: int, out: seq<Target>, i: nat) {
    && i < |targets| && targets[i].id == id && (forall k | 0 <= k < i :: targets[k].id != id)
    && |out| == |targets| && out[0] == targets[i]
    && (forall k | 0 <= k < i :: out[k + 1] == targets[k]) && (forall k :: i < k < |targets| ==> out[k] == targets[k])
  }

  /** The session's target leads if there is a session, with a target, and that target is still
      there; and otherwise nothing moves. */
  ghost predicate IsFirst(targets: seq<Target>, session: Option<int>, out: seq<Target>) {
    if session.Some? && session.value != 0 && (exists k :: 0 <= k < |targets| && targets[k].id == session.value)
    then exists i: nat :: Leads(targets, session.value, out, i)
    else out == targets
  }

  lemma PreferLeads(targets: seq<Target>, session: Option<int>)
    ensures IsFirst(targets, session, Prefer(targets, session))
  {
    if session.Some? && session.value != 0 {
      var i := IndexOf(targets, session.value);
      IndexIsFirst(targets, session.value);
      if i < |targets| {
        assert Leads(targets, session.value, Prefer(targets, session), i);
      }
    }
  }

  lemma {:induction false} IndexIsFirst(targets: seq<Target>, id: int)
    ensures forall k | 0 <= k < IndexOf(targets, id) :: targets[k].id != id
  {
    if targets != [] {
      var n := |targets| - 1;
      IndexIsFirst(targets[..n], id);
      forall k | 0 <= k < IndexOf(targets, id) ensures targets[k].id != id {
        assert k < n ==> targets[..n][k] == targets[k];
      }
    }
  }

  lemma PreferReorders(targets: seq<Target>, session: Option<int>)
    ensures multiset(Prefer(targets, session)) == multiset(targets)
  {
    if !(|targets| <= 1 || session.None? || session.value == 0) {
      var i := IndexOf(targets, session.value);
      if i < |targets| {
        assert targets == targets[..i] + [targets[i]] + targets[i + 1..];
      }
    }
  }
}
