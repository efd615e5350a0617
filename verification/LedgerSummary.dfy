/** The aggregate tables against the log they summarise, and the summaries read from them
    against a scan of the log (internal/store_usage.go:219-316, 378-480, 495-587, 649-656). */
module LedgerSummary {
  import opened Canonical
  import opened Ledger
  import opened Sums

  /** The table that sums a log by bucket, user, key and model. */
  function Aggregate(log: seq<Row>, width: int): map<StatKey, Stats>
    requires width > 0
  {
    if log == [] then map[] else
      var row := log[|log| - 1];
      Upsert(Aggregate(log[..|log| - 1], width), KeyOf(row, width), StatsOf(row))
  }

  lemma AggregateSnoc(log: seq<Row>, row: Row, width: int)
    requires width > 0
    ensures Aggregate(log + [row], width) == Upsert(Aggregate(log, width), KeyOf(row, width), StatsOf(row))
  {
    assert (log + [row])[..|log|] == log;
  }

  ghost predicate AggregatesAgree(t: Tables) {
    t.hourly == Aggregate(t.log, HOUR) && t.daily == Aggregate(t.log, DAY)
  }

  /** No run of batches sets the aggregates and the log apart. */
  lemma {:induction false} RunKeepsAggregates(t: Tables, rows: seq<Row>)
    requires AggregatesAgree(t) && ApplyAll(t, rows).Some?
    ensures AggregatesAgree(ApplyAll(t, rows).value)
    ensures ApplyAll(t, rows).value.log == t.log + rows
  {
    hide Upsert, Charge, Aggregate, StatsOf, KeyOf;
    if rows == [] {
      assert t.log + [] == t.log;
    } else {
      var before, row := rows[..|rows| - 1], rows[|rows| - 1];
      RunKeepsAggregates(t, before);
      var u := ApplyAll(t, before).value;
      AggregateSnoc(u.log, row, HOUR);
      AggregateSnoc(u.log, row, DAY);
      if Charges(row.record) {
        ChargeKeepsLog(u.(log := u.log + [row], hourly := Upsert(u.hourly, KeyOf(row, HOUR), StatsOf(row)),
                          daily := Upsert(u.daily, KeyOf(row, DAY), StatsOf(row))), row.record, row.at);
      }
      assert t.log + before + [row] == t.log + rows;
    }
  }

  lemma ChargeKeepsLog(t: Tables, r: Record, at: int)
    requires Charges(r) && Charge(t, r, at).Some?
    ensures var u := Charge(t, r, at).value; u.log == t.log && u.hourly == t.hourly && u.daily == t.daily
  {}

  // ----- What a row of an aggregate says -----

  /** What a record counts for. */
  function FieldOf(m: Metric): Record -> int {
    (r: Record) =>
      match m
      case Requests => 1
      case Errors => if r.status >= 400 then 1 else 0
      case Latency => r.latency
      case Prompt => r.prompt
      case Completion => r.completion
      case Total => r.total
      case Cached => r.cached
      case Reasoning => r.reasoning
  }

  /** The sum of a field over the rows of which `holds` holds. */
  function SumOf(log: seq<Row>, holds: Row -> bool, f: Record -> int): int {
    SumSeq(log, (row: Row) => if holds(row) then f(row.record) else 0)
  }

  /** The rows of one user, key and model in one bucket. */
  function Under(key: StatKey, width: int): Row -> bool {
    (row: Row) =>
      && row.record.userID == key.userID && row.record.keyID == key.keyID && row.record.model == key.model
      && key.bucket <= row.at < key.bucket + width
  }

  ghost predicate SumsUp(stats: Stats, log: seq<Row>, holds: Row -> bool) {
    && stats.requests == SumOf(log, holds, FieldOf(Requests)) && stats.errors == SumOf(log, holds, FieldOf(Errors))
    && stats.latency == SumOf(log, holds, FieldOf(Latency)) && stats.prompt == SumOf(log, holds, FieldOf(Prompt))
    && stats.completion == SumOf(log, holds, FieldOf(Completion)) && stats.total == SumOf(log, holds, FieldOf(Total))
    && stats.cached == SumOf(log, holds, FieldOf(Cached)) && stats.reasoning == SumOf(log, holds, FieldOf(Reasoning))
  }

  /** The last row of which `holds` holds. */
  function Last(log: seq<Row>, holds: Row -> bool): Option<Row> {
    if log == [] then None
    else if holds(log[|log| - 1]) then Some(log[|log| - 1]) else Last(log[..|log| - 1], holds)
  }

  /** Buckets start at the multiples of their width. */
  lemma KeyIs(row: Row, key: StatKey, width: int)
    requires width > 0
    ensures KeyOf(row, width) == key <==> Floor(key.bucket, width) == key.bucket && Under(key, width)(row)
  {
    hide Floor;
    FloorIsBelow(row.at, width);
    FloorIsBelow(key.bucket, width);
    FloorsAreApart(row.at, key.bucket, width);
    FloorOfFloor(row.at, width);
  }

  lemma FloorOfFloor(value: int, width: int)
    requires width > 0
    ensures Floor(Floor(value, width), width) == Floor(value, width)
  {
    hide Floor;
    var floor := Floor(value, width);
    FloorIsBelow(value, width);
    FloorIsBelow(floor, width);
    FloorsAreApart(floor, value, width);
  }

  lemma SumOfSnoc(log: seq<Row>, row: Row, holds: Row -> bool, f: Record -> int)
    ensures SumOf(log + [row], holds, f) == SumOf(log, holds, f) + if holds(row) then f(row.record) else 0
  {
    SumSeqSnoc(log, row, (r: Row) => if holds(r) then f(r.record) else 0);
  }

  lemma StatsSumUp(stats: Stats, log: seq<Row>, row: Row, holds: Row -> bool)
    requires SumsUp(stats, log, holds)
    ensures holds(row) ==> SumsUp(AddStats(stats, StatsOf(row)), log + [row], holds)
    ensures !holds(row) ==> SumsUp(stats, log + [row], holds)
  {
    hide SumOf;
    SumOfSnoc(log, row, holds, FieldOf(Requests));
    SumOfSnoc(log, row, holds, FieldOf(Errors));
    SumOfSnoc(log, row, holds, FieldOf(Latency));
    SumOfSnoc(log, row, holds, FieldOf(Prompt));
    SumOfSnoc(log, row, holds, FieldOf(Completion));
    SumOfSnoc(log, row, holds, FieldOf(Total));
    SumOfSnoc(log, row, holds, FieldOf(Cached));
    SumOfSnoc(log, row, holds, FieldOf(Reasoning));
  }

  lemma {:induction false} NoneSumUp(log: seq<Row>, holds: Row -> bool)
    requires Last(log, holds).None?
    ensures SumsUp(Stats("", "", 0, 0, 0, 0, 0, 0, 0, 0), log, holds)
  {
    hide FieldOf;
    if log != [] {
      var before, row := log[..|log| - 1], log[|log| - 1];
      NoneSumUp(before, holds);
      assert log == before + [row];
      StatsSumUp(Stats("", "", 0, 0, 0, 0, 0, 0, 0, 0), before, row, holds);
    }
  }

  /** Every aggregate row counts the rows of the log in its bucket, field by field, with the
      names of the latest; there is none without a row of the log. */
  lemma {:induction false} AggregateIsSums(log: seq<Row>, width: int, key: StatKey)
    requires width > 0
    ensures key in Aggregate(log, width) <==> Floor(key.bucket, width) == key.bucket && Last(log, Under(key, width)).Some?
    ensures key in Aggregate(log, width) ==>
              var stats, last := Aggregate(log, width)[key], Last(log, Under(key, width)).value;
              && SumsUp(stats, log, Under(key, width))
              && stats.userName == last.record.userName && stats.keyName == last.record.keyName
  {
    hide SumsUp, KeyOf, StatsOf, AddStats, Floor, Under;
    if log != [] {
      var before, row := log[..|log| - 1], log[|log| - 1];
      AggregateIsSums(before, width, key);
      KeyIs(row, key, width);
      assert log == before + [row];
      var holds, table := Under(key, width), Aggregate(before, width);
      if key in table {
        StatsSumUp(table[key], before, row, holds);
      } else if KeyOf(row, width) == key {
        FirstSumsUp(before, row, holds);
      }
      NamesAre(row, if key in table then table[key] else StatsOf(row));
    }
  }

  lemma FirstSumsUp(log: seq<Row>, row: Row, holds: Row -> bool)
    requires Last(log, holds).None? && holds(row)
    ensures SumsUp(StatsOf(row), log + [row], holds)
  {
    var none := Stats("", "", 0, 0, 0, 0, 0, 0, 0, 0);
    NoneSumUp(log, holds);
    StatsSumUp(none, log, row, holds);
    assert SumsUp(AddStats(none, StatsOf(row)), log + [row], holds);
  }

  lemma NamesAre(row: Row, stats: Stats)
    ensures StatsOf(row).userName == row.record.userName && StatsOf(row).keyName == row.record.keyName
    ensures AddStats(stats, StatsOf(row)).userName == row.record.userName && AddStats(stats, StatsOf(row)).keyName == row.record.keyName
  {}

  // ----- Summaries -----

  /** UsageQuery, its ends as given. */
  datatype Query = Query(userID: int, keyID: int, model: string, from: Option<int>, until: Option<int>)

  predicate Selects(q: Query, userID: int, keyID: int, model: string) {
    && userID == q.userID
    && (q.keyID != 0 ==> keyID == q.keyID)
    && (Trim(q.model) != "" ==> model == Trim(q.model))
  }

  predicate AtOrAfter(at: int, from: Option<int>) {
    from.Some? ==> from.value <= at
  }

  predicate Before(at: int, until: Option<int>) {
    until.Some? ==> at < until.value
  }

  datatype Source = RawLog | Hourly | Daily

  /** usageStatsSource. */
  function SourceOf(q: Query): Source {
    if q.from.None? || q.until.None? || q.from.value >= q.until.value then RawLog else
      var span := q.until.value - q.from.value;
      if span <= 5 * HOUR then RawLog else if span <= 4 * DAY then Hourly else Daily
  }

  function RowPart(q: Query, m: Metric): Row -> int {
    (row: Row) =>
      var r := row.record;
      if Selects(q, r.userID, r.keyID, r.model) && AtOrAfter(row.at, q.from) && Before(row.at, q.until)
      then StatsOf(row).Of(m) else 0
  }

  /** The rows a query asks for: of its user, and of its key and model if it names them, from
      the one time on and before the other, if they are given. */
  function Wanted(q: Query, from: Option<int>, until: Option<int>): Row -> bool {
    (row: Row) =>
      && row.record.userID == q.userID
      && (q.keyID == 0 || row.record.keyID == q.keyID)
      && (IsBlank(q.model) || row.record.model == Trim(q.model))
      && (from.None? || from.value <= row.at)
      && (until.None? || row.at < until.value)
  }

  /** A scan of the log over a window. */
  function Scan(log: seq<Row>, q: Query, from: Option<int>, until: Option<int>, m: Metric): int {
    SumOf(log, Wanted(q, from, until), FieldOf(m))
  }

  function StatPart(table: map<StatKey, Stats>, q: Query, lo: int, hi: int, m: Metric): StatKey -> int {
    (key: StatKey) =>
      if key in table && Selects(q, key.userID, key.keyID, key.model) && lo <= key.bucket < hi then table[key].Of(m) else 0
  }

  /** usageSummaryFromStats: the buckets that start in the window, by the hour at both ends
      whichever table is read. */
  ghost function StatsSummary(table: map<StatKey, Stats>, q: Query, m: Metric): int
    requires q.from.Some? && q.until.Some?
  {
    Sum(table.Keys, StatPart(table, q, FloorBucket(q.from.value, 60), CeilBucket(q.until.value, 60), m))
  }

  /** UsageSummary, one counter of it. */
  ghost function UsageSummary(t: Tables, q: Query, m: Metric): int {
    match SourceOf(q)
    case RawLog => SumSeq(t.log, RowPart(q, m))
    case Hourly => StatsSummary(t.hourly, q, m)
    case Daily => StatsSummary(t.daily, q, m)
  }

  lemma AddStatsOf(a: Stats, b: Stats, m: Metric)
    ensures AddStats(a, b).Of(m) == a.Of(m) + b.Of(m)
  {}

  lemma UpsertSum(table: map<StatKey, Stats>, key: StatKey, stats: Stats, q: Query, lo: int, hi: int, m: Metric)
    ensures var longer := Upsert(table, key, stats);
            Sum(longer.Keys, StatPart(longer, q, lo, hi, m)) == Sum(table.Keys, StatPart(table, q, lo, hi, m)) +
              if Selects(q, key.userID, key.keyID, key.model) && lo <= key.bucket < hi then stats.Of(m) else 0
  {
    hide Selects, Stats.Of, AddStats;
    var longer := Upsert(table, key, stats);
    SumUpdate(table.Keys, key, StatPart(table, q, lo, hi, m), StatPart(longer, q, lo, hi, m));
    assert longer.Keys == table.Keys + {key};
    if key in table {
      AddStatsOf(table[key], stats, m);
    }
  }

  lemma FieldIs(row: Row, m: Metric)
    ensures StatsOf(row).Of(m) == FieldOf(m)(row.record)
  {}

  lemma SelectsWanted(q: Query, row: Row, from: Option<int>, until: Option<int>)
    ensures Wanted(q, from, until)(row) <==>
            && Selects(q, row.record.userID, row.record.keyID, row.record.model)
            && AtOrAfter(row.at, from) && Before(row.at, until)
  {
    TrimShape(q.model);
  }

  /** Summing the buckets that start in a window is scanning the log between the ceilings of
      the window's ends. */
  lemma {:induction false} WindowIsScan(log: seq<Row>, width: int, q: Query, lo: int, hi: int, m: Metric)
    requires width > 0
    ensures var table := Aggregate(log, width);
            Sum(table.Keys, StatPart(table, q, lo, hi, m)) == Scan(log, q, Some(Ceil(lo, width)), Some(Ceil(hi, width)), m)
  {
    hide Ceil, Floor, Selects, StatsOf, Upsert, Stats.Of, StatPart, FieldOf, Wanted;
    if log != [] {
      var before, row := log[..|log| - 1], log[|log| - 1];
      WindowIsScan(before, width, q, lo, hi, m);
      UpsertSum(Aggregate(before, width), KeyOf(row, width), StatsOf(row), q, lo, hi, m);
      InWindow(row.at, width, lo, hi);
      FieldIs(row, m);
      SelectsWanted(q, row, Some(Ceil(lo, width)), Some(Ceil(hi, width)));
    }
  }

  lemma RawIsScan(log: seq<Row>, q: Query, m: Metric)
    ensures SumSeq(log, RowPart(q, m)) == Scan(log, q, q.from, q.until, m)
  {
    var wanted := (row: Row) => if Wanted(q, q.from, q.until)(row) then FieldOf(m)(row.record) else 0;
    forall row <- log ensures RowPart(q, m)(row) == wanted(row) {
      SelectsWanted(q, row, q.from, q.until);
      FieldIs(row, m);
    }
    SumSeqSame(log, RowPart(q, m), wanted);
  }

  /** The window a summary really covers: as asked for up to five hours, or with an end open;
      by whole hours up to four days; by the days that start in these hours beyond. */
  function Covers(q: Query): (Option<int>, Option<int>) {
    if q.from.None? || q.until.None? || q.until.value <= q.from.value + 5 * HOUR then (q.from, q.until)
    else
      var from, until := Floor(q.from.value, HOUR), Ceil(q.until.value, HOUR);
      if q.until.value <= q.from.value + 4 * DAY then (Some(from), Some(until)) else (Some(Ceil(from, DAY)), Some(Ceil(until, DAY)))
  }

  /** Whichever table a summary is read from, each counter is a scan of the log over a fixed
      window: a sum over the fields of the records that the query asks for. */
  lemma SummaryIsScan(t: Tables, q: Query, m: Metric)
    requires AggregatesAgree(t)
    ensures UsageSummary(t, q, m) == Scan(t.log, q, Covers(q).0, Covers(q).1, m)
  {
    hide Scan, StatPart, Aggregate, Floor, Ceil, FloorBucket, CeilBucket, RowPart;
    if SourceOf(q) == RawLog {
      RawIsScan(t.log, q, m);
    } else {
      var lo, hi := FloorBucket(q.from.value, 60), CeilBucket(q.until.value, 60);
      BucketsAreMultiples(q.from.value);
      BucketsAreMultiples(q.until.value);
      WindowIsScan(t.log, if SourceOf(q) == Hourly then HOUR else DAY, q, lo, hi, m);
      CeilOfMultiple(q.from.value, HOUR);
      CeilOfMultiple(q.until.value, HOUR);
    }
  }

  lemma CeilOfMultiple(value: int, width: int)
    requires width == HOUR || width == DAY
    ensures Ceil(Floor(value, width), width) == Floor(value, width)
    ensures Ceil(Ceil(value, width), width) == Ceil(value, width)
  {}

  /** The hourly window: both ends widened to the hour. */
  function ByTheHour(q: Query): (Option<int>, Option<int>)
    requires q.from.Some? && q.until.Some?
  {
    (Some(Floor(q.from.value, HOUR)), Some(Ceil(q.until.value, HOUR)))
  }

  ghost predicate SameOnEveryLog(q: Query, a: (Option<int>, Option<int>), b: (Option<int>, Option<int>)) {
    forall log: seq<Row>, m: Metric :: Scan(log, q, a.0, a.1, m) == Scan(log, q, b.0, b.1, m)
  }

  /** The daily table is filtered by the hour. Its summary is the scan from hour to hour, on
      every log, exactly when both hours are midnights: otherwise it misses the rest of the
      first day, or takes in the rest of the last. */
  lemma DailyIsExactIff(q: Query)
    requires SourceOf(q) == Daily
    ensures SameOnEveryLog(q, Covers(q), ByTheHour(q))
            <==> Floor(q.from.value, HOUR) % DAY == 0 && Ceil(q.until.value, HOUR) % DAY == 0
  {
    var lo, hi := Floor(q.from.value, HOUR), Ceil(q.until.value, HOUR);
    assert lo % DAY == 0 <==> Ceil(lo, DAY) == lo;
    assert hi % DAY == 0 <==> Ceil(hi, DAY) == hi;
    assert Ceil(lo, DAY) <= hi;
    if lo % DAY != 0 {
      OneRowTells(q, lo, Covers(q), ByTheHour(q));
    } else if hi % DAY != 0 {
      OneRowTells(q, hi, Covers(q), ByTheHour(q));
    }
  }

  /** A log of one row at `at` tells two windows apart that differ there. */
  lemma OneRowTells(q: Query, at: int, a: (Option<int>, Option<int>), b: (Option<int>, Option<int>))
    requires !((AtOrAfter(at, a.0) && Before(at, a.1)) <==> (AtOrAfter(at, b.0) && Before(at, b.1)))
    ensures !SameOnEveryLog(q, a, b)
  {
    var row := Row(Record(q.userID, "", q.keyID, "", Trim(q.model), 200, 0, 0, 0, 0, 0, 0, 0, 0, false, None, None, None), at);
    ScanOne(q, row, a);
    ScanOne(q, row, b);
    assert Scan([row], q, a.0, a.1, Requests) != Scan([row], q, b.0, b.1, Requests);
  }

  lemma ScanOne(q: Query, row: Row, window: (Option<int>, Option<int>))
    ensures Scan([row], q, window.0, window.1, Requests) == if Wanted(q, window.0, window.1)(row) then 1 else 0
  {
    assert [] + [row] == [row];
    SumSeqSnoc([], row, (row: Row) => if Wanted(q, window.0, window.1)(row) then FieldOf(Requests)(row.record) else 0);
  }

  // ----- Series -----

  /** usageBucketAgg: the counters without the names. */
  function Nameless(s: Stats): Stats {
    s.(userName := "", keyName := "")
  }

  datatype Point = Point(at: int, stats: Stats)

  function Series(points: seq<Point>, bucketMinutes: int): map<int, Stats> {
    if points == [] then map[] else
      var buckets, p := Series(points[..|points| - 1], bucketMinutes), points[|points| - 1];
      var key := FloorBucket(p.at, bucketMinutes);
      buckets[key := if key in buckets then AddStats(buckets[key], Nameless(p.stats)) else Nameless(p.stats)]
  }

  /** usageSeries and usageSeriesFromStats, on the rows their query returns. */
  method BuildSeries(points: seq<Point>, bucketMinutes: int) returns (buckets: map<int, Stats>)
    ensures buckets == Series(points, bucketMinutes)
  {
    buckets := map[];
    for k := 0 to |points|
      invariant buckets == Series(points[..k], bucketMinutes)
    {
      assert points[..k + 1][..k] == points[..k];
      var key := FloorBucket(points[k].at, bucketMinutes);
      var agg := if key in buckets then buckets[key] else Stats("", "", 0, 0, 0, 0, 0, 0, 0, 0);
      buckets := buckets[key := AddStats(agg, Nameless(points[k].stats))];
    }
    assert points[..|points|] == points;
  }

  function PointPart(m: Metric): Point -> int {
    (p: Point) => p.stats.Of(m)
  }

  function BucketPart(bucket: int, bucketMinutes: int, m: Metric): Point -> int {
    (p: Point) => if FloorBucket(p.at, bucketMinutes) == bucket then p.stats.Of(m) else 0
  }

  function SeriesPart(buckets: map<int, Stats>, m: Metric): int -> int {
    (key: int) => if key in buckets then buckets[key].Of(m) else 0
  }

  lemma {:induction false} SeriesAt(points: seq<Point>, bucketMinutes: int, bucket: int, m: Metric)
    ensures SeriesPart(Series(points, bucketMinutes), m)(bucket) == SumSeq(points, BucketPart(bucket, bucketMinutes, m))
  {
    hide FloorBucket;
    if points != [] {
      SeriesAt(points[..|points| - 1], bucketMinutes, bucket, m);
    }
  }

  lemma {:induction false} SeriesAll(points: seq<Point>, bucketMinutes: int, m: Metric)
    ensures var buckets := Series(points, bucketMinutes);
            Sum(buckets.Keys, SeriesPart(buckets, m)) == SumSeq(points, PointPart(m))
  {
    hide FloorBucket;
    if points != [] {
      var before, p := points[..|points| - 1], points[|points| - 1];
      SeriesAll(before, bucketMinutes, m);
      var fewer, buckets := Series(before, bucketMinutes), Series(points, bucketMinutes);
      var key := FloorBucket(p.at, bucketMinutes);
      SumUpdate(fewer.Keys, key, SeriesPart(fewer, m), SeriesPart(buckets, m));
      assert buckets.Keys == fewer.Keys + {key};
    }
  }

  /** A series splits its rows: each bucket sums its own, and together they sum to all. */
  lemma SeriesSplits(points: seq<Point>, bucketMinutes: int, m: Metric)
    ensures var buckets := Series(points, bucketMinutes);
            && (forall bucket | bucket in buckets :: buckets[bucket].Of(m) == SumSeq(points, BucketPart(bucket, bucketMinutes, m)))
            && Sum(buckets.Keys, SeriesPart(buckets, m)) == SumSeq(points, PointPart(m))
  {
    SeriesAll(points, bucketMinutes, m);
    forall bucket | bucket in Series(points, bucketMinutes)
      ensures Series(points, bucketMinutes)[bucket].Of(m) == SumSeq(points, BucketPart(bucket, bucketMinutes, m))
    {
      SeriesAt(points, bucketMinutes, bucket, m);
    }
  }
}
