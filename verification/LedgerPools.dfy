/** The two quota pools (internal/store_usage.go:126-162): what a period does not cover is
    paid by the lifetime pool, once, however the records are ordered and batched. */
module LedgerPools {
  import opened Canonical
  import opened Ledger
  import opened Sums
  import LedgerSummary
  import Quota

  /** What the records of one period agree on. */
  datatype Terms = Terms(limit: int, usesLifetime: bool)

  /** Every charge of a run goes by the same terms as the others of its period. */
  predicate GoBy(rows: seq<Row>, terms: PeriodKey -> Terms) {
    forall row <- rows :: GoesBy(row.record, terms)
  }

  predicate GoesBy(r: Record, terms: PeriodKey -> Terms) {
    r.periodStart.Some? ==>
      var key := PeriodKey(r.userID, r.periodStart.value);
      IsChargedTo(r, key) ==> terms(key) == Terms(r.weeklyLimit, r.usesLifetime)
  }

  /** A record of a known user that costs something is charged to the period it names. */
  predicate IsChargedTo(r: Record, key: PeriodKey) {
    r.userID > 0 && r.cost > 0 && r.userID == key.userID && r.periodStart == Some(key.start)
  }

  /** Quotas are set to zero credits or more (internal/store_users.go:238-243). */
  ghost predicate LimitsNotNegative(userID: int, terms: PeriodKey -> Terms) {
    forall key: PeriodKey | key.userID == userID :: terms(key).limit >= 0
  }

  function LifetimeOf(t: Tables, userID: int): int {
    if userID in t.users then t.users[userID].lifetimeUsed else 0
  }

  function OverPart(periods: map<PeriodKey, Period>, userID: int, terms: PeriodKey -> Terms): PeriodKey -> int {
    (key: PeriodKey) =>
      if key in periods && key.userID == userID && terms(key).usesLifetime && terms(key).limit < periods[key].used
      then periods[key].used - terms(key).limit else 0
  }

  function WithinPart(periods: map<PeriodKey, Period>, userID: int, terms: PeriodKey -> Terms): PeriodKey -> int {
    (key: PeriodKey) =>
      if key in periods && key.userID == userID && terms(key).usesLifetime
      then if periods[key].used <= terms(key).limit then periods[key].used else terms(key).limit else 0
  }

  /** What a user has used beyond the limits of the periods. */
  ghost function Over(t: Tables, userID: int, terms: PeriodKey -> Terms): int {
    Sum(t.periods.Keys, OverPart(t.periods, userID, terms))
  }

  /** What a user has used within them: the weekly pool. */
  ghost function Within(t: Tables, userID: int, terms: PeriodKey -> Terms): int {
    Sum(t.periods.Keys, WithinPart(t.periods, userID, terms))
  }

  /** The cost a row puts on a user's two pools. */
  function PoolCost(userID: int, terms: PeriodKey -> Terms): Row -> int {
    (row: Row) =>
      var r := row.record;
      if r.periodStart.Some? && IsChargedTo(r, PeriodKey(userID, r.periodStart.value))
         && terms(PeriodKey(userID, r.periodStart.value)).usesLifetime
      then r.cost else 0
  }

  /** The cost a row puts on one period. */
  function PeriodCost(key: PeriodKey): Row -> int {
    (row: Row) => if IsChargedTo(row.record, key) then row.record.cost else 0
  }

  // ----- One row -----

  /** What a row does to the quota tables. */
  lemma ApplyQuota(t: Tables, row: Row)
    requires Apply(t, row).Some?
    ensures var u, r := Apply(t, row).value, row.record;
            && (!Charges(r) ==> u.periods == t.periods && u.users == t.users)
            && (Charges(r) ==>
                  && r.userID in t.users
                  && u.periods == t.periods[PeriodOf(r) := Period(r.periodEnd, UsedIn(t.periods, PeriodOf(r)) + r.cost, row.at)]
                  && u.users == t.users[r.userID := t.users[r.userID].(lifetimeUsed := t.users[r.userID].lifetimeUsed + LifetimePart(t.periods, r))])
  {
    hide Upsert, StatsOf, KeyOf, Fits;
  }

  lemma OverMoves(t: Tables, u: Tables, key: PeriodKey, userID: int, terms: PeriodKey -> Terms)
    requires key in u.periods && u.periods == t.periods[key := u.periods[key]]
    ensures Over(u, userID, terms) - Over(t, userID, terms)
         == OverPart(u.periods, userID, terms)(key) - OverPart(t.periods, userID, terms)(key)
    ensures Within(u, userID, terms) - Within(t, userID, terms)
         == WithinPart(u.periods, userID, terms)(key) - WithinPart(t.periods, userID, terms)(key)
  {
    SumUpdate(t.periods.Keys, key, OverPart(t.periods, userID, terms), OverPart(u.periods, userID, terms));
    SumUpdate(t.periods.Keys, key, WithinPart(t.periods, userID, terms), WithinPart(u.periods, userID, terms));
    assert u.periods.Keys == t.periods.Keys + {key};
  }

  lemma StepSplits(t: Tables, row: Row, userID: int, terms: PeriodKey -> Terms)
    requires Apply(t, row).Some? && GoesBy(row.record, terms)
    requires LimitsNotNegative(userID, terms)
    ensures var u := Apply(t, row).value;
            && LifetimeOf(u, userID) - LifetimeOf(t, userID) == Over(u, userID, terms) - Over(t, userID, terms)
            && PoolCost(userID, terms)(row) == Within(u, userID, terms) - Within(t, userID, terms)
                                             + LifetimeOf(u, userID) - LifetimeOf(t, userID)
  {
    hide Apply, Over, Within;
    ApplyQuota(t, row);
    var u, r := Apply(t, row).value, row.record;
    if Charges(r) {
      OverMoves(t, u, PeriodOf(r), userID, terms);
    } else {
      SameQuota(t, u, userID, terms);
    }
  }

  lemma SameQuota(t: Tables, u: Tables, userID: int, terms: PeriodKey -> Terms)
    requires u.periods == t.periods
    ensures Over(u, userID, terms) == Over(t, userID, terms) && Within(u, userID, terms) == Within(t, userID, terms)
  {}

  // ----- A run -----

  lemma GoByPrefix(rows: seq<Row>, terms: PeriodKey -> Terms)
    requires GoBy(rows, terms) && rows != []
    ensures GoBy(rows[..|rows| - 1], terms) && GoesBy(rows[|rows| - 1].record, terms)
  {}

  /** Conservation. Over any run of batches, a user's lifetime usage grows by exactly the
      growth of the overage of the periods; and every microcredit that is charged on terms
      that use the lifetime pool is found in exactly one of the two pools. */
  lemma {:induction false} PoolsConserve(t: Tables, rows: seq<Row>, userID: int, terms: PeriodKey -> Terms)
    requires ApplyAll(t, rows).Some? && GoBy(rows, terms)
    requires LimitsNotNegative(userID, terms)
    ensures var u := ApplyAll(t, rows).value;
            && LifetimeOf(u, userID) - LifetimeOf(t, userID) == Over(u, userID, terms) - Over(t, userID, terms)
            && SumSeq(rows, PoolCost(userID, terms)) == Within(u, userID, terms) - Within(t, userID, terms)
                                                      + LifetimeOf(u, userID) - LifetimeOf(t, userID)
  {
    hide Apply, Over, Within, LifetimeOf, PoolCost, GoBy, GoesBy;
    if rows != [] {
      GoByPrefix(rows, terms);
      PoolsConserve(t, rows[..|rows| - 1], userID, terms);
      StepSplits(ApplyAll(t, rows[..|rows| - 1]).value, rows[|rows| - 1], userID, terms);
    }
  }

  /** A period's usage is the sum of the charges to it; it exists once it has one. */
  lemma {:induction false} PeriodIsSum(t: Tables, rows: seq<Row>, key: PeriodKey)
    requires ApplyAll(t, rows).Some?
    ensures var u := ApplyAll(t, rows).value;
            && UsedIn(u.periods, key) == UsedIn(t.periods, key) + SumSeq(rows, PeriodCost(key))
            && (key in u.periods <==> key in t.periods || Touches(rows, key))
            && u.users.Keys == t.users.Keys
  {
    hide Apply, UsedIn, PeriodCost;
    if rows != [] {
      var before, row := rows[..|rows| - 1], rows[|rows| - 1];
      PeriodIsSum(t, before, key);
      PeriodStep(ApplyAll(t, before).value, row, key);
      assert rows == before + [row];
      TouchesMore(before, row, key);
    }
  }

  lemma PeriodStep(t: Tables, row: Row, key: PeriodKey)
    requires Apply(t, row).Some?
    ensures var u := Apply(t, row).value;
            && UsedIn(u.periods, key) == UsedIn(t.periods, key) + PeriodCost(key)(row)
            && (key in u.periods <==> key in t.periods || IsChargedTo(row.record, key))
            && u.users.Keys == t.users.Keys
  {
    hide Apply, LifetimePart;
    ApplyQuota(t, row);
  }

  predicate Touches(rows: seq<Row>, key: PeriodKey) {
    exists row <- rows :: IsChargedTo(row.record, key)
  }

  lemma TouchesMore(rows: seq<Row>, row: Row, key: PeriodKey)
    ensures Touches(rows + [row], key) <==> Touches(rows, key) || IsChargedTo(row.record, key)
  {
    assert forall r :: r in rows + [row] <==> r in rows || r == row;
    if Touches(rows, key) {
      var r :| r in rows && IsChargedTo(r.record, key);
      assert r in rows + [row];
    }
    assert row in rows + [row];
  }

  lemma TouchesSame(a: seq<Row>, b: seq<Row>, key: PeriodKey)
    requires multiset(a) == multiset(b)
    ensures Touches(a, key) <==> Touches(b, key)
  {
    assert forall row :: row in a <==> row in multiset(a);
    assert forall row :: row in b <==> row in multiset(b);
  }

  /** The balances do not depend on the order of the records. */
  lemma OrderDoesNotMatter(t: Tables, a: seq<Row>, b: seq<Row>, userID: int, terms: PeriodKey -> Terms)
    requires multiset(a) == multiset(b) && ApplyAll(t, a).Some? && ApplyAll(t, b).Some? && GoBy(a, terms)
    requires LimitsNotNegative(userID, terms)
    ensures var u, v := ApplyAll(t, a).value, ApplyAll(t, b).value;
            && LifetimeOf(u, userID) == LifetimeOf(v, userID)
            && u.periods.Keys == v.periods.Keys
            && forall key | key in u.periods :: u.periods[key].used == v.periods[key].used
  {
    hide ApplyAll, LifetimeOf, Within, PoolCost;
    var u, v := ApplyAll(t, a).value, ApplyAll(t, b).value;
    forall key
      ensures key in u.periods <==> key in v.periods
      ensures key in u.periods ==> u.periods[key].used == v.periods[key].used
    {
      PeriodIsSum(t, a, key);
      PeriodIsSum(t, b, key);
      SumSeqUnordered(a, b, PeriodCost(key));
      TouchesSame(a, b, key);
    }
    assert forall row :: row in a <==> row in multiset(a);
    assert forall row :: row in b <==> row in multiset(b);
    PoolsConserve(t, a, userID, terms);
    PoolsConserve(t, b, userID, terms);
    assert u.periods.Keys == v.periods.Keys;
    SumSame(u.periods.Keys, OverPart(u.periods, userID, terms), OverPart(v.periods, userID, terms));
  }

  // ----- Why the terms must stay -----

  /** When the terms change between two runs, the lifetime pool still is what the terms in
      force say exactly when the change itself moves no overage. */
  lemma TermsChange(t: Tables, first: seq<Row>, second: seq<Row>, userID: int, was: PeriodKey -> Terms, now: PeriodKey -> Terms)
    requires ApplyAll(t, first).Some? && ApplyAll(ApplyAll(t, first).value, second).Some?
    requires GoBy(first, was) && GoBy(second, now)
    requires LimitsNotNegative(userID, was) && LimitsNotNegative(userID, now)
    requires LifetimeOf(t, userID) == Over(t, userID, was)
    ensures var u := ApplyAll(t, first).value;
            var v := ApplyAll(u, second).value;
            LifetimeOf(v, userID) == Over(v, userID, now) <==> Over(u, userID, was) == Over(u, userID, now)
  {
    hide ApplyAll, LifetimeOf, Over, Within, PoolCost;
    PoolsConserve(t, first, userID, was);
    PoolsConserve(ApplyAll(t, first).value, second, userID, now);
  }

  /** A change of the weekly limit opens a new period (internal/store_users.go:251-254); turning
      the lifetime pool on does not. For one, in a period with 15 credits used of 10, with no
      lifetime pool so far: the next 5 go to the lifetime pool, the 5 before them to neither; of
      10 over the limit it has paid 5. */
  lemma LateLifetimePool(t: Tables, userID: int, anchor: int, now: int)
    requires userID > 0 && userID in t.users && t.users[userID].lifetimeUsed == 0
    requires t.hourly == map[] && t.daily == map[] && t.periods == map[]
    ensures var key := PeriodKey(userID, Quota.WeeklyPeriod(anchor, now).0);
            var spent := Record(userID, "", 1, "", "m", 200, 0, 0, 0, 0, 0, 0, 15 * Quota.CREDIT, 0, false, None, None, None);
            var before := Row(Quota.Stamp(spent, Quota.Token(userID, 10, 0, Some(anchor)), now), now);
            var after := Row(Quota.Stamp(spent.(cost := 5 * Quota.CREDIT), Quota.Token(userID, 10, 20, Some(anchor)), now), now);
            && ApplyAll(t, [before, after]).Some?
            && var u := ApplyAll(t, [before, after]).value;
            && LifetimeOf(u, userID) == 5 * Quota.CREDIT
            && UsedIn(u.periods, key) == 20 * Quota.CREDIT
  {
    hide Upsert, StatsOf, KeyOf, Quota.WeeklyPeriod;
    var spent := Record(userID, "", 1, "", "m", 200, 0, 0, 0, 0, 0, 0, 15 * Quota.CREDIT, 0, false, None, None, None);
    var before := Row(Quota.Stamp(spent, Quota.Token(userID, 10, 0, Some(anchor)), now), now);
    var after := Row(Quota.Stamp(spent.(cost := 5 * Quota.CREDIT), Quota.Token(userID, 10, 20, Some(anchor)), now), now);
    TwoFit(before, after);
    assert [before, after][..1] == [before] && [before][..0] == [];
    assert ApplyAll(t, [before]) == Apply(t, before);
  }

  lemma TwoFit(low: Row, high: Row)
    requires low.record.latency == low.record.prompt == low.record.completion == low.record.total == 0
    requires low.record.cached == low.record.reasoning == 0
    requires high == Row(low.record.(cost := high.record.cost, usesLifetime := high.record.usesLifetime), low.at)
    ensures forall width | width > 0 ::
              var one := Upsert(map[], KeyOf(low, width), StatsOf(low));
              var two := Upsert(one, KeyOf(high, width), StatsOf(high));
              && KeyOf(low, width) in one && one[KeyOf(low, width)].AllFit()
              && KeyOf(high, width) in two && two[KeyOf(high, width)].AllFit()
  {}

  // ----- What is refused -----

  /** A number of 64 bits. */
  predicate In64(n: int) {
    -0x8000_0000_0000_0000 <= n < 0x8000_0000_0000_0000
  }

  /** With the row in the log, every counter of its bucket still is a number of 64 bits. */
  ghost predicate CountersHold(log: seq<Row>, row: Row, width: int)
    requires width > 0
  {
    var key := StatKey(row.at / width * width, row.record.userID, row.record.keyID, row.record.model);
    forall m: Metric :: In64(LedgerSummary.SumOf(log + [row], LedgerSummary.Under(key, width), LedgerSummary.FieldOf(m)))
  }

  /** A charge finds its user, and both pools can hold it. */
  predicate PoolsHold(t: Tables, r: Record) {
    r.userID > 0 && r.cost > 0 && r.periodStart.Some? ==>
      && r.userID in t.users
      && var used := UsedIn(t.periods, PeriodKey(r.userID, r.periodStart.value));
         && In64(used + r.cost)
         && (r.usesLifetime && used + r.cost > r.weeklyLimit ==>
               In64(t.users[r.userID].lifetimeUsed + if used > r.weeklyLimit then r.cost else used + r.cost - r.weeklyLimit))
  }

  lemma CountersFit(log: seq<Row>, row: Row, width: int)
    requires width > 0
    ensures KeyOf(row, width) in LedgerSummary.Aggregate(log + [row], width)
    ensures LedgerSummary.Aggregate(log + [row], width)[KeyOf(row, width)].AllFit() <==> CountersHold(log, row, width)
  {
    hide LedgerSummary.SumOf, LedgerSummary.FieldOf, LedgerSummary.Last, Upsert;
    LedgerSummary.AggregateSnoc(log, row, width);
    UpsertHas(LedgerSummary.Aggregate(log, width), KeyOf(row, width), StatsOf(row));
    LedgerSummary.AggregateIsSums(log + [row], width, KeyOf(row, width));
    forall m: Metric
      ensures LedgerSummary.Aggregate(log + [row], width)[KeyOf(row, width)].Of(m) ==
              LedgerSummary.SumOf(log + [row], LedgerSummary.Under(KeyOf(row, width), width), LedgerSummary.FieldOf(m)) {}
    var stats := LedgerSummary.Aggregate(log + [row], width)[KeyOf(row, width)];
    assert stats.AllFit() <==> forall m: Metric :: In64(stats.Of(m)) by { EachFits(stats); }
  }

  lemma UpsertHas(table: map<StatKey, Stats>, key: StatKey, stats: Stats)
    ensures key in Upsert(table, key, stats)
  {}

  lemma EachFits(stats: Stats)
    ensures stats.AllFit() <==> forall m: Metric :: In64(stats.Of(m))
  {
    if forall m: Metric :: In64(stats.Of(m)) {
      assert In64(stats.Of(Requests)) && In64(stats.Of(Errors)) && In64(stats.Of(Latency)) && In64(stats.Of(Prompt));
      assert In64(stats.Of(Completion)) && In64(stats.Of(Total)) && In64(stats.Of(Cached)) && In64(stats.Of(Reasoning));
    }
  }

  /** A record is taken exactly when the counters of its hour and its day can hold it and, if it
      is charged, its user is there and both pools can hold the charge. */
  lemma TakenIff(t: Tables, row: Row)
    requires LedgerSummary.AggregatesAgree(t)
    ensures Apply(t, row).Some? <==>
            CountersHold(t.log, row, 3600 * 1_000_000_000) && CountersHold(t.log, row, 24 * 3600 * 1_000_000_000) && PoolsHold(t, row.record)
  {
    hide CountersHold, LedgerSummary.Aggregate, Upsert, KeyOf, StatsOf;
    CountersFit(t.log, row, HOUR);
    CountersFit(t.log, row, DAY);
    LedgerSummary.AggregateSnoc(t.log, row, HOUR);
    LedgerSummary.AggregateSnoc(t.log, row, DAY);
  }

  /** And so a run from tables that agree with their log: each record, after those before it. */
  lemma {:induction false} RunTakenIff(t: Tables, rows: seq<Row>)
    requires LedgerSummary.AggregatesAgree(t)
    ensures ApplyAll(t, rows).Some? <==> forall k | 0 <= k < |rows| :: TakenAt(t, rows, k)
  {
    hide Apply, LedgerSummary.AggregatesAgree, CountersHold, PoolsHold;
    if rows != [] {
      var before, row := rows[..|rows| - 1], rows[|rows| - 1];
      RunTakenIff(t, before);
      forall k | 0 <= k < |before| ensures TakenAt(t, before, k) <==> TakenAt(t, rows, k) {
        assert before[..k] == rows[..k];
      }
      if ApplyAll(t, before).Some? {
        LedgerSummary.RunKeepsAggregates(t, before);
        TakenIff(ApplyAll(t, before).value, row);
        assert TakenAt(t, rows, |before|) <==> Apply(ApplyAll(t, before).value, row).Some?;
      }
    }
  }

  /** Record `k` of a run can be taken, with the log as it then is. */
  ghost predicate TakenAt(t: Tables, rows: seq<Row>, k: nat)
    requires k < |rows|
  {
    ApplyAll(t, rows[..k]).Some? ==>
      && CountersHold(t.log + rows[..k], rows[k], 3600 * 1_000_000_000)
      && CountersHold(t.log + rows[..k], rows[k], 24 * 3600 * 1_000_000_000)
      && PoolsHold(ApplyAll(t, rows[..k]).value, rows[k].record)
  }
}
