/** The tables of the usage ledger and what one usage record does to them
    (internal/store_usage.go:86-217, 549-587, 649-656; internal/store_schema.go:19-235). Times are
    nanoseconds since the Unix epoch, in UTC. */
module Ledger {
  import opened Canonical

  const MINUTE := 60_000_000_000
  const HOUR := 60 * MINUTE
  const DAY := 24 * HOUR
  const WEEK := 7 * DAY

  const MAX_INT64 := 0x7fff_ffff_ffff_ffff

  /** Whether a BIGINT column can hold `n`. */
  predicate Fits(n: int) {
    -MAX_INT64 - 1 <= n <= MAX_INT64
  }

  /** UsageRecord. `periodStart` is None when the source leaves it zero. */
  datatype Record = Record(
    userID: int, userName: string, keyID: int, keyName: string, model: string,
    status: int, latency: int, prompt: int, completion: int, total: int, cached: int, reasoning: int,
    cost: int, weeklyLimit: int, usesLifetime: bool, periodStart: Option<int>, periodEnd: Option<int>,
    createdAt: Option<int>)

  /** A row of usage_logs. */
  datatype Row = Row(record: Record, at: int)

  datatype StatKey = StatKey(bucket: int, userID: int, keyID: int, model: string)

  datatype Metric = Requests | Errors | Latency | Prompt | Completion | Total | Cached | Reasoning

  /** A row of usage_stats_hourly or usage_stats_daily. */
  datatype Stats = Stats(userName: string, keyName: string,
                         requests: int, errors: int, latency: int, prompt: int, completion: int,
                         total: int, cached: int, reasoning: int)
  {
    function Of(m: Metric): int {
      match m
      case Requests => requests
      case Errors => errors
      case Latency => latency
      case Prompt => prompt
      case Completion => completion
      case Total => total
      case Cached => cached
      case Reasoning => reasoning
    }

    predicate AllFit() {
      && Fits(requests) && Fits(errors) && Fits(latency) && Fits(prompt)
      && Fits(completion) && Fits(total) && Fits(cached) && Fits(reasoning)
    }
  }

  datatype PeriodKey = PeriodKey(userID: int, start: int)

  /** A row of user_quota_usage. */
  datatype Period = Period(end: Option<int>, used: int, updatedAt: int)

  datatype User = User(weeklyCredits: int, lifetimeCredits: int, lifetimeUsed: int, anchor: int)

  datatype Tables = Tables(
    log: seq<Row>, hourly: map<StatKey, Stats>, daily: map<StatKey, Stats>,
    periods: map<PeriodKey, Period>, users: map<int, User>)

  const EMPTY_TABLES := Tables([], map[], map[], map[], map[])

  // ----- Buckets -----

  /** floorUsageBucketInLocation in UTC. */
  function FloorBucket(value: int, bucketMinutes: int): int {
    if bucketMinutes >= 1440 then value - value % DAY else
      var step := if bucketMinutes < 1 then 1 else bucketMinutes;
      var minutes := value / MINUTE;
      (minutes - minutes % 60 % step) * MINUTE
  }

  /** ceilUsageBucketInLocation in UTC. */
  function CeilBucket(value: int, bucketMinutes: int): int {
    var floor := FloorBucket(value, bucketMinutes);
    if value == floor then floor else floor + (if bucketMinutes < 1 then 1 else bucketMinutes) * MINUTE
  }

  /** The multiple of the width at or below a value. */
  function Floor(value: int, width: int): int
    requires width > 0
  {
    value / width * width
  }

  /** The multiple of the width at or above a value. */
  function Ceil(value: int, width: int): int
    requires width > 0
  {
    if Floor(value, width) == value then value else Floor(value, width) + width
  }

  /** On the widths the tables and the series use, the source's floor and ceiling are the
      nearest multiples. */
  lemma BucketsAreMultiples(value: int)
    ensures FloorBucket(value, 1) == Floor(value, MINUTE) && FloorBucket(value, 5) == Floor(value, 5 * MINUTE)
    ensures FloorBucket(value, 60) == Floor(value, HOUR) && FloorBucket(value, 1440) == Floor(value, DAY)
    ensures CeilBucket(value, 60) == Ceil(value, HOUR) && CeilBucket(value, 1440) == Ceil(value, DAY)
  {
    hide FloorBucket, Floor;
    MinuteFloors(value);
    HourFloors(value);
    DayFloors(value);
  }

  lemma MinuteFloors(value: int)
    ensures FloorBucket(value, 1) == Floor(value, MINUTE) && FloorBucket(value, 5) == Floor(value, 5 * MINUTE)
  {
    hide Floor;
    var fives := Fives(value);
    OfFive(fives, value / MINUTE - fives * 5);
    assert Floor(value, MINUTE) == value / MINUTE * MINUTE && Floor(value, 5 * MINUTE) == fives * 5 * MINUTE by {
      FloorIs(value, MINUTE);
      FloorIs(value, 5 * MINUTE);
    }
  }

  lemma Fives(value: int) returns (fives: int)
    ensures fives == value / (5 * MINUTE) && fives * 5 <= value / MINUTE < fives * 5 + 5
  {
    fives := value / (5 * MINUTE);
    assert fives * (5 * MINUTE) <= value < (fives + 1) * (5 * MINUTE);
  }

  lemma OfFive(fives: int, rest: int)
    requires 0 <= rest < 5
    ensures (fives * 5 + rest) % 60 % 5 == rest
  {
    var hours, more := fives / 12, fives % 12;
    assert fives * 5 + rest == hours * 60 + (more * 5 + rest);
  }

  lemma FloorIs(value: int, width: int)
    requires width > 0
    ensures Floor(value, width) == value / width * width
  {}

  lemma HourFloors(value: int)
    ensures FloorBucket(value, 60) == Floor(value, HOUR)
  {
    var hours, minutes := value / HOUR, value % HOUR / MINUTE;
    assert 0 <= minutes < 60;
    assert value / MINUTE == hours * 60 + minutes;
    assert (hours * 60 + minutes) % 60 == minutes;
  }

  lemma DayFloors(value: int)
    ensures FloorBucket(value, 1440) == Floor(value, DAY)
  {}

  /** The floor of a value is at an edge or above exactly when the value is at the edge's
      ceiling or above. */
  lemma FloorReaches(value: int, width: int, edge: int)
    requires width > 0
    ensures edge <= Floor(value, width) <==> Ceil(edge, width) <= value
  {
    hide Floor;
    FloorIsBelow(value, width);
    FloorIsBelow(edge, width);
    FloorsAreApart(value, edge, width);
  }

  /** Two floors are the same or a width apart at least. */
  lemma FloorsAreApart(a: int, b: int, width: int)
    requires width > 0
    ensures var p, q := Floor(a, width), Floor(b, width); p == q || p + width <= q || q + width <= p
  {
    var p, q := a / width, b / width;
    if p < q {
      Ordered(p + 1, q, width);
    } else if q < p {
      Ordered(q + 1, p, width);
    }
  }

  lemma FloorIsBelow(value: int, width: int)
    requires width > 0
    ensures Floor(value, width) <= value < Floor(value, width) + width
  {}

  lemma Ordered(a: int, b: int, width: int)
    requires a <= b && width > 0
    ensures a * width <= b * width
  {}

  /** A bucket starts in a window exactly when its members lie between the ceilings of the ends. */
  lemma InWindow(value: int, width: int, lo: int, hi: int)
    requires width > 0
    ensures lo <= Floor(value, width) < hi <==> Ceil(lo, width) <= value < Ceil(hi, width)
  {
    FloorReaches(value, width, lo);
    FloorReaches(value, width, hi);
  }

  // ----- One record -----

  function RowOf(record: Record, now: int): Row {
    Row(record, if record.createdAt.Some? then record.createdAt.value else now)
  }

  /** The log has a row in both aggregates. */
  function StatsOf(row: Row): Stats {
    var r := row.record;
    Stats(r.userName, r.keyName, 1, if r.status >= 400 then 1 else 0, r.latency, r.prompt, r.completion, r.total, r.cached, r.reasoning)
  }

  function KeyOf(row: Row, width: int): StatKey
    requires width > 0
  {
    StatKey(Floor(row.at, width), row.record.userID, row.record.keyID, row.record.model)
  }

  /** The counters add up; the names are the latest. */
  function AddStats(s: Stats, more: Stats): Stats {
    Stats(more.userName, more.keyName, s.requests + more.requests, s.errors + more.errors, s.latency + more.latency,
          s.prompt + more.prompt, s.completion + more.completion, s.total + more.total, s.cached + more.cached,
          s.reasoning + more.reasoning)
  }

  function Upsert(table: map<StatKey, Stats>, key: StatKey, stats: Stats): map<StatKey, Stats> {
    table[key := if key in table then AddStats(table[key], stats) else stats]
  }

  function Overage(used: int, limit: int): int {
    if used <= limit then 0 else used - limit
  }

  /** The records that are charged to a quota period. */
  predicate Charges(r: Record) {
    r.userID > 0 && r.cost > 0 && r.periodStart.Some?
  }

  function PeriodOf(r: Record): PeriodKey
    requires r.periodStart.Some?
  {
    PeriodKey(r.userID, r.periodStart.value)
  }

  function UsedIn(periods: map<PeriodKey, Period>, key: PeriodKey): int {
    if key in periods then periods[key].used else 0
  }

  /** What the lifetime pool pays for a record. */
  function LifetimePart(periods: map<PeriodKey, Period>, r: Record): int
    requires Charges(r)
  {
    var used := UsedIn(periods, PeriodOf(r));
    if r.usesLifetime then Overage(used + r.cost, r.weeklyLimit) - Overage(used, r.weeklyLimit) else 0
  }

  /** The quota statements of a record: the period grows by the cost, the user's lifetime
      usage by the growth of the overage. None: a constraint stops the transaction. */
  function Charge(t: Tables, r: Record, at: int): Option<Tables>
    requires Charges(r)
  {
    var key := PeriodOf(r);
    var used := UsedIn(t.periods, key) + r.cost;
    var part := LifetimePart(t.periods, r);
    if r.userID !in t.users || !Fits(used) then None
    else if part > 0 && !Fits(t.users[r.userID].lifetimeUsed + part) then None
    else Some(t.(periods := t.periods[key := Period(r.periodEnd, used, at)],
                 users := t.users[r.userID := t.users[r.userID].(lifetimeUsed := t.users[r.userID].lifetimeUsed + part)]))
  }

  /** The whole of a record: a row of the log, both aggregates, the quota. */
  function Apply(t: Tables, row: Row): Option<Tables> {
    var hourly := Upsert(t.hourly, KeyOf(row, HOUR), StatsOf(row));
    var daily := Upsert(t.daily, KeyOf(row, DAY), StatsOf(row));
    if !hourly[KeyOf(row, HOUR)].AllFit() || !daily[KeyOf(row, DAY)].AllFit() then None else
      var logged := t.(log := t.log + [row], hourly := hourly, daily := daily);
      if Charges(row.record) then Charge(logged, row.record, row.at) else Some(logged)
  }

  /** A batch, record by record. */
  function ApplyAll(t: Tables, rows: seq<Row>): Option<Tables> {
    if rows == [] then Some(t) else
      match ApplyAll(t, rows[..|rows| - 1])
      case None => None
      case Some(before) => Apply(before, rows[|rows| - 1])
  }

  lemma {:induction false} ApplyAllStops(t: Tables, rows: seq<Row>, k: nat)
    requires k <= |rows| && ApplyAll(t, rows[..k]).None?
    ensures ApplyAll(t, rows).None?
    decreases |rows|
  {
    if k < |rows| {
      assert rows[..|rows| - 1][..k] == rows[..k];
      ApplyAllStops(t, rows[..|rows| - 1], k);
    } else {
      assert rows[..k] == rows;
    }
  }

  /** How a run is cut into batches does not matter. */
  lemma {:induction false} BatchesJoin(t: Tables, a: seq<Row>, b: seq<Row>)
    requires ApplyAll(t, a).Some?
    ensures ApplyAll(t, a + b) == ApplyAll(ApplyAll(t, a).value, b)
  {
    hide Apply;
    if b == [] {
      assert a + b == a;
    } else {
      assert (a + b)[..|a + b| - 1] == a + b[..|b| - 1];
      BatchesJoin(t, a, b[..|b| - 1]);
    }
  }
}
