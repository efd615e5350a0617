/** Quota periods, the quota status, the admission test and what a request costs
    (internal/store_quota.go:9-67; internal/quota.go:8-22; internal/usage.go:48-147). */
module Quota {
  import opened Canonical
  import opened Ledger

  const CREDIT := 1_000_000

  // ----- Periods -----

  /** Time.Sub, which saturates. */
  function Elapsed(anchor: int, at: int): int {
    var d := at - anchor;
    if d > MAX_INT64 then MAX_INT64 else if d < -MAX_INT64 - 1 then -MAX_INT64 - 1 else d
  }

  /** weeklyQuotaPeriod: start and end of the week that holds `at`, counted from the anchor. */
  function WeeklyPeriod(anchor: int, at: int): (int, int) {
    var start := if at < anchor then anchor else anchor + Elapsed(anchor, at) / WEEK * WEEK;
    (start, start + WEEK)
  }

  predicate InPeriod(at: int, period: (int, int)) {
    period.0 <= at < period.1
  }

  /** The period holds the time it is asked for from the anchor on, until the duration between
      the two no longer fits the source's: 292 years. */
  lemma PeriodHoldsIff(anchor: int, at: int)
    ensures InPeriod(at, WeeklyPeriod(anchor, at)) <==> 0 <= at - anchor < (MAX_INT64 / WEEK + 1) * WEEK
    ensures var (start, end) := WeeklyPeriod(anchor, at);
            && end - start == 7 * 24 * 3600 * 1_000_000_000
            && start >= anchor && (at < anchor ==> start == anchor)
  {}

  /** Periods tile the time from the anchor on: two times get the same period exactly when one
      lies in the other's. */
  lemma PeriodsTile(anchor: int, a: int, b: int)
    requires InPeriod(a, WeeklyPeriod(anchor, a)) && InPeriod(b, WeeklyPeriod(anchor, b))
    ensures WeeklyPeriod(anchor, a) == WeeklyPeriod(anchor, b) <==> InPeriod(a, WeeklyPeriod(anchor, b))
  {
    var i := WeekOf(anchor, a);
    var j := WeekOf(anchor, b);
    hide WeeklyPeriod, Elapsed;
    if i < j {
      assert (i + 1) * WEEK <= j * WEEK;
    } else if j < i {
      assert (j + 1) * WEEK <= i * WEEK;
    }
  }

  /** Which week after the anchor a time is in. */
  lemma WeekOf(anchor: int, at: int) returns (week: int)
    requires InPeriod(at, WeeklyPeriod(anchor, at))
    ensures WeeklyPeriod(anchor, at) == (anchor + week * WEEK, anchor + week * WEEK + WEEK)
    ensures week * WEEK <= at - anchor < (week + 1) * WEEK
  {
    week := Elapsed(anchor, at) / WEEK;
  }

  // ----- Status -----

  datatype Status = Status(weeklyUsed: int, weeklyRemaining: int, lifetimeUsed: int, lifetimeRemaining: int,
                           start: int, end: int, unlimited: bool)

  function Max(a: int, b: int): int {
    if a < b then b else a
  }

  function Min(a: int, b: int): int {
    if a < b then a else b
  }

  /** UserQuotaStatus; None when there is no such user. */
  function StatusOf(t: Tables, userID: int, at: int): Option<Status> {
    if userID !in t.users then None else
      var user := t.users[userID];
      var (start, end) := WeeklyPeriod(user.anchor, at);
      var weeklyLimit := user.weeklyCredits * CREDIT;
      var weeklyUsed := Min(UsedIn(t.periods, PeriodKey(userID, start)), weeklyLimit);
      Some(Status(weeklyUsed, weeklyLimit - weeklyUsed, user.lifetimeUsed,
                  Max(user.lifetimeCredits * CREDIT - user.lifetimeUsed, 0), start, end,
                  user.weeklyCredits == 0 && user.lifetimeCredits == 0))
  }

  /** AuthToken: what a request knows of its user. */
  datatype Token = Token(userID: int, weeklyCredits: int, lifetimeCredits: int, anchor: Option<int>) {
    predicate Limited() { userID > 0 && (weeklyCredits != 0 || lifetimeCredits != 0) }
  }

  datatype Verdict = Admitted | CheckFailed | QuotaExceeded

  /** enforceUserQuota. */
  function Enforce(t: Tables, token: Token, at: int): Verdict {
    if !token.Limited() then Admitted else
      match StatusOf(t, token.userID, at)
      case None => CheckFailed
      case Some(status) =>
        if status.weeklyRemaining <= 0 && status.lifetimeRemaining <= 0 then QuotaExceeded else Admitted
  }

  /** A request is let in unless its user has a quota; then exactly while the period or the
      lifetime pool has something left. Only a user who is not there fails the check. */
  lemma AdmittedIff(t: Tables, token: Token, at: int)
    ensures var limited := token.userID > 0 && !(token.weeklyCredits == 0 && token.lifetimeCredits == 0);
            && (Enforce(t, token, at) == CheckFailed <==> limited && token.userID !in t.users)
            && (!limited ==> Enforce(t, token, at) == Admitted)
            && (limited && token.userID in t.users ==>
                  var user := t.users[token.userID];
                  var key := PeriodKey(token.userID, WeeklyPeriod(user.anchor, at).0);
                  Enforce(t, token, at) == Admitted
                  <==> UsedIn(t.periods, key) < user.weeklyCredits * CREDIT || user.lifetimeUsed < user.lifetimeCredits * CREDIT)
  {}

  /** The status of a user splits both quotas: what is used of the period and what is left of
      it are the weekly limit, and nothing beyond it counts as used; of the lifetime pool
      nothing less than zero is left. */
  lemma StatusSplits(t: Tables, userID: int, at: int)
    requires userID in t.users
    ensures var user, key := t.users[userID], PeriodKey(userID, WeeklyPeriod(t.users[userID].anchor, at).0);
            var s := StatusOf(t, userID, at).value;
            && s.weeklyUsed + s.weeklyRemaining == user.weeklyCredits * 1_000_000
            && s.weeklyUsed == (if UsedIn(t.periods, key) > user.weeklyCredits * 1_000_000 then user.weeklyCredits * 1_000_000
                                else UsedIn(t.periods, key))
            && s.lifetimeUsed == user.lifetimeUsed && s.lifetimeRemaining >= 0
            && (user.lifetimeUsed <= user.lifetimeCredits * 1_000_000 ==>
                  s.lifetimeUsed + s.lifetimeRemaining == user.lifetimeCredits * 1_000_000)
            && (user.lifetimeUsed >= user.lifetimeCredits * 1_000_000 ==> s.lifetimeRemaining == 0)
            && (s.unlimited <==> user.weeklyCredits == 0 && user.lifetimeCredits == 0)
  {}

  // ----- Cost -----

  datatype Rates = Rates(uncached: real, cached: real, output: real)

  datatype Tokens = Tokens(prompt: int, completion: int, total: int, cached: int)

  /** math.Round of a number above zero. */
  function Round(x: real): int {
    (x + 0.5).Floor
  }

  /** quotaComponent. */
  function AddComponent(total: int, tokens: int, rate: real): int {
    if total < 0 || tokens <= 0 || rate <= 0.0 then Max(total, 0) else
      var component := Round(tokens as real * rate);
      if component >= MAX_INT64 - total then MAX_INT64 else total + component
  }

  /** quotaMicrocreditsForUsage. */
  method QuotaMicrocredits(u: Tokens, rates: Rates) returns (total: int)
    ensures total == Cost(u, rates)
  {
    hide AddComponent, Price, AddCapped;
    var uncachedInput := u.prompt - u.cached;
    if uncachedInput < 0 {
      uncachedInput := 0;
    }
    total := AddComponent(0, uncachedInput, rates.uncached);
    total := AddComponent(total, u.cached, rates.cached);
    var outputTokens, totalOutput := u.completion, u.total - u.prompt;
    if totalOutput > outputTokens {
      outputTokens := totalOutput;
    }
    total := AddComponent(total, outputTokens, rates.output);
    ghost var a, b, c := Price(uncachedInput, rates.uncached), Price(u.cached, rates.cached), Price(outputTokens, rates.output);
    ComponentIsCapped(0, uncachedInput, rates.uncached);
    ComponentIsCapped(AddCapped(0, a), u.cached, rates.cached);
    ComponentIsCapped(AddCapped(AddCapped(0, a), b), outputTokens, rates.output);
    CostIsCapped(a, b, c);
  }

  /** What tokens cost at a rate, on their own. */
  function Price(tokens: int, rate: real): (p: int)
    ensures p >= 0
  {
    if tokens <= 0 || rate <= 0.0 then 0 else
      assert tokens as real * rate >= 0.0;
      Round(tokens as real * rate)
  }

  /** The cost of a request: the three prices together, capped once. Output is what the
      upstream says, or what it leaves unsaid between total and prompt. */
  function Cost(u: Tokens, rates: Rates): int {
    Min(MAX_INT64, Price(Max(u.prompt - u.cached, 0), rates.uncached) + Price(u.cached, rates.cached)
                   + Price(Max(u.completion, u.total - u.prompt), rates.output))
  }

  function AddCapped(total: int, price: int): int {
    if price >= MAX_INT64 - total then MAX_INT64 else total + price
  }

  lemma ComponentIsCapped(total: int, tokens: int, rate: real)
    requires 0 <= total <= MAX_INT64
    ensures AddComponent(total, tokens, rate) == AddCapped(total, Price(tokens, rate))
    ensures 0 <= AddCapped(total, Price(tokens, rate)) <= MAX_INT64
  {
    if tokens > 0 && rate > 0.0 {
      assert tokens as real * rate >= 0.0;
    }
  }

  /** Capping at every step is capping the sum. */
  lemma CostIsCapped(a: nat, b: nat, c: nat)
    ensures AddCapped(AddCapped(AddCapped(0, a), b), c) == Min(MAX_INT64, a + b + c)
  {}

  /** The whole number nearest to a price. */
  predicate Nearest(n: int, x: real) {
    -0.5 <= n as real - x <= 0.5
  }

  /** Which rate is for what: input that was not cached, input that was, and output. */
  lemma CostByKind(u: Tokens, rates: Rates)
    requires u.prompt >= 0 && u.cached >= 0 && u.completion >= 0 && u.total >= 0 && Cost(u, rates) < MAX_INT64
    requires rates.uncached >= 0.0 && rates.cached >= 0.0 && rates.output >= 0.0
    ensures u.cached == 0 && u.completion == 0 && u.total <= u.prompt ==> Nearest(Cost(u, rates), u.prompt as real * rates.uncached)
    ensures u.cached >= u.prompt && u.completion == 0 && u.total <= u.prompt ==> Nearest(Cost(u, rates), u.cached as real * rates.cached)
    ensures u.prompt == 0 && u.cached == 0 && u.total <= u.completion ==> Nearest(Cost(u, rates), u.completion as real * rates.output)
    ensures u.prompt == 0 && u.cached == 0 && u.completion <= u.total ==> Nearest(Cost(u, rates), u.total as real * rates.output)
  {
    hide Price;
    PriceIsNearest(u.prompt, rates.uncached);
    PriceIsNearest(u.cached, rates.cached);
    PriceIsNearest(u.completion, rates.output);
    PriceIsNearest(u.total, rates.output);
    NothingIsFree(rates.uncached);
    NothingIsFree(rates.cached);
    NothingIsFree(rates.output);
    FreeIfNone(u.total - u.prompt, rates.output);
  }

  lemma PriceIsNearest(tokens: int, rate: real)
    requires tokens >= 0 && rate >= 0.0
    ensures Nearest(Price(tokens, rate), tokens as real * rate)
  {
    if tokens > 0 && rate > 0.0 {
      assert tokens as real * rate >= 0.0;
    }
  }

  lemma NothingIsFree(rate: real)
    ensures Price(0, rate) == 0
  {}

  lemma FreeIfNone(tokens: int, rate: real)
    ensures tokens <= 0 ==> Price(tokens, rate) == 0
  {}

  // ----- The record of a request -----

  /** The quota fields recordUsage sets. */
  function Stamp(r: Record, token: Token, now: int): Record {
    var base := r.(userID := token.userID, createdAt := Some(now));
    if token.userID > 0 && token.anchor.Some? && (token.weeklyCredits > 0 || token.lifetimeCredits > 0) then
      var (start, end) := WeeklyPeriod(token.anchor.value, now);
      base.(periodStart := Some(start), periodEnd := Some(end), weeklyLimit := token.weeklyCredits * CREDIT,
            usesLifetime := token.lifetimeCredits > 0)
    else base.(periodStart := None, periodEnd := None, weeklyLimit := 0, usesLifetime := false)
  }

  /** A request of a limited user is charged to the period it was admitted against, on the
      terms it was admitted on; that of any other is charged to none. */
  lemma ChargedWhereAdmitted(r: Record, token: Token, now: int)
    requires token.weeklyCredits >= 0 && token.lifetimeCredits >= 0
    ensures var s := Stamp(r, token, now);
            && s.userID == token.userID && s.createdAt == Some(now) && s.cost == r.cost
            && (token.userID > 0 && token.anchor.Some? && token.weeklyCredits + token.lifetimeCredits > 0 ==>
                  && s.periodStart == Some(WeeklyPeriod(token.anchor.value, now).0)
                  && s.periodEnd == Some(WeeklyPeriod(token.anchor.value, now).1)
                  && s.weeklyLimit == token.weeklyCredits * 1_000_000 && (s.usesLifetime <==> token.lifetimeCredits > 0))
            && (!(token.userID > 0 && token.anchor.Some? && token.weeklyCredits + token.lifetimeCredits > 0) ==> !Charges(s))
  {}
}
