/** InsertUsageBatch (internal/store_usage.go:10-155): one transaction over the tables, whose
    statements may fail. The tables are the store's fields; a rollback puts back what the
    transaction found. */
module LedgerStore {
  import opened Canonical
  import opened Ledger

  predicate NoFaults(faults: seq<bool>) {
    forall fault <- faults :: !fault
  }

  class Store {
    var log: seq<Row>
    var hourly: map<StatKey, Stats>
    var daily: map<StatKey, Stats>
    var periods: map<PeriodKey, Period>
    var users: map<int, User>
    /** The coming failures of the connection, one entry a statement. */
    var faults: seq<bool>

    ghost function View(): Tables
      reads this
    {
      Tables(log, hourly, daily, periods, users)
    }

    constructor (users: map<int, User>)
      ensures View() == EMPTY_TABLES.(users := users) && faults == []
    {
      log, hourly, daily, periods, this.users, faults := [], map[], map[], map[], users, [];
    }

    /** Whether the connection fails now. */
    method Fails() returns (hit: bool)
      modifies this`faults
      ensures NoFaults(old(faults)) ==> !hit && NoFaults(faults)
    {
      if faults == [] {
        hit := false;
      } else {
        assert faults[0] in faults && forall fault :: fault in faults[1..] ==> fault in faults;
        hit, faults := faults[0], faults[1..];
      }
    }

    /** INSERT INTO usage_logs. */
    method InsertLog(row: Row) returns (ok: bool)
      modifies this`log, this`faults
      ensures log == if ok then old(log) + [row] else old(log)
      ensures NoFaults(old(faults)) ==> ok && NoFaults(faults)
    {
      var hit := Fails();
      ok := !hit;
      if ok {
        log := log + [row];
      }
    }

    /** insertUsageStats into usage_stats_hourly. */
    method UpsertHourly(key: StatKey, stats: Stats) returns (ok: bool)
      modifies this`hourly, this`faults
      ensures ok ==> hourly == Upsert(old(hourly), key, stats) && hourly[key].AllFit()
      ensures NoFaults(old(faults)) && Upsert(old(hourly), key, stats)[key].AllFit() ==> ok
      ensures NoFaults(old(faults)) ==> NoFaults(faults)
    {
      var hit := Fails();
      var table := Upsert(hourly, key, stats);
      ok := !hit && table[key].AllFit();
      if ok {
        hourly := table;
      }
    }

    /** insertUsageStats into usage_stats_daily. */
    method UpsertDaily(key: StatKey, stats: Stats) returns (ok: bool)
      modifies this`daily, this`faults
      ensures ok ==> daily == Upsert(old(daily), key, stats) && daily[key].AllFit()
      ensures NoFaults(old(faults)) && Upsert(old(daily), key, stats)[key].AllFit() ==> ok
      ensures NoFaults(old(faults)) ==> NoFaults(faults)
    {
      var hit := Fails();
      var table := Upsert(daily, key, stats);
      ok := !hit && table[key].AllFit();
      if ok {
        daily := table;
      }
    }

    /** INSERT INTO user_quota_usage ... ON CONFLICT ... RETURNING used_microcredits. */
    method UpsertPeriod(key: PeriodKey, end: Option<int>, cost: int, at: int) returns (ok: bool, used: int)
      modifies this`periods, this`faults
      ensures used == UsedIn(old(periods), key) + cost
      ensures ok ==> key.userID in users && Fits(used) && periods == old(periods)[key := Period(end, used, at)]
      ensures NoFaults(old(faults)) && key.userID in users && Fits(used) ==> ok
      ensures NoFaults(old(faults)) ==> NoFaults(faults)
    {
      var hit := Fails();
      used := (if key in periods then periods[key].used else 0) + cost;
      ok := !hit && key.userID in users && Fits(used);
      if ok {
        periods := periods[key := Period(end, used, at)];
      }
    }

    /** UPDATE users SET lifetime_quota_used_microcredits = ... + ? WHERE id = ?: a user who is
        not there is not an error. */
    method ChargeLifetime(userID: int, amount: int) returns (ok: bool)
      modifies this`users, this`faults
      ensures ok && userID in old(users) ==>
                && Fits(old(users)[userID].lifetimeUsed + amount)
                && users == old(users)[userID := old(users)[userID].(lifetimeUsed := old(users)[userID].lifetimeUsed + amount)]
      ensures ok && userID !in old(users) ==> users == old(users)
      ensures NoFaults(old(faults)) && (userID in old(users) ==> Fits(old(users)[userID].lifetimeUsed + amount)) ==> ok
      ensures NoFaults(old(faults)) ==> NoFaults(faults)
    {
      var hit := Fails();
      ok := !hit && (userID in users ==> Fits(users[userID].lifetimeUsed + amount));
      if ok && userID in users {
        users := users[userID := users[userID].(lifetimeUsed := users[userID].lifetimeUsed + amount)];
      }
    }

    /** The quota statements of a record. */
    method ChargeRecord(record: Record, at: int) returns (ok: bool)
      requires Charges(record)
      modifies this`periods, this`users, this`faults
      ensures ok ==> Charge(old(View()), record, at) == Some(View())
      ensures NoFaults(old(faults)) ==> NoFaults(faults) && (Charge(old(View()), record, at).Some? ==> ok)
    {
      var used;
      assert forall id | id in users :: users == users[id := users[id].(lifetimeUsed := users[id].lifetimeUsed + 0)];
      ok, used := UpsertPeriod(PeriodOf(record), record.periodEnd, record.cost, at);
      if ok && record.usesLifetime {
        var previousUsed := used - record.cost;
        var lifetimeUsed := Overage(used, record.weeklyLimit) - Overage(previousUsed, record.weeklyLimit);
        if lifetimeUsed > 0 {
          ok := ChargeLifetime(record.userID, lifetimeUsed);
        }
      }
    }

    /** The statements for one record, up to the first that fails. */
    method InsertRecord(row: Row) returns (ok: bool)
      modifies this
      ensures ok ==> Apply(old(View()), row) == Some(View())
      ensures NoFaults(old(faults)) ==> NoFaults(faults) && (Apply(old(View()), row).Some? ==> ok)
    {
      hide Charge, StatsOf, Upsert;
      ok := InsertLog(row);
      if ok {
        ok := UpsertHourly(KeyOf(row, HOUR), StatsOf(row));
      }
      if ok {
        ok := UpsertDaily(KeyOf(row, DAY), StatsOf(row));
      }
      if ok && row.record.userID > 0 && row.record.cost > 0 && row.record.periodStart.Some? {
        ok := ChargeRecord(row.record, row.at);
      }
    }

    /** All of the batch or nothing of it, and all of it unless a statement fails. */
    method InsertUsageBatch(records: seq<Record>, clock: seq<int>) returns (ok: bool)
      requires |clock| == |records|
      modifies this
      ensures ok ==> ApplyAll(old(View()), Rows(records, clock)) == Some(View())
      ensures !ok ==> View() == old(View())
      ensures NoFaults(old(faults)) ==> (ok <==> ApplyAll(old(View()), Rows(records, clock)).Some?)
    {
      hide Apply;
      if |records| == 0 {
        return true;
      }
      ghost var rows := Rows(records, clock);
      var hit := Fails();
      if hit {
        return false;
      }
      var savedLog, savedHourly, savedDaily, savedPeriods, savedUsers := log, hourly, daily, periods, users;
      for k := 0 to |records|
        invariant ApplyAll(old(View()), rows[..k]) == Some(View())
        invariant NoFaults(old(faults)) ==> NoFaults(faults)
      {
        assert rows[..k + 1][..k] == rows[..k];
        var inserted := InsertRecord(RowOf(records[k], clock[k]));
        if !inserted {
          ghost var failed := NoFaults(old(faults));
          if failed {
            ApplyAllStops(old(View()), rows, k + 1);
          }
          log, hourly, daily, periods, users := savedLog, savedHourly, savedDaily, savedPeriods, savedUsers;
          return false;
        }
      }
      assert rows[..|records|] == rows;
      hit := Fails();
      if hit {
        log, hourly, daily, periods, users := savedLog, savedHourly, savedDaily, savedPeriods, savedUsers;
      }
      ok := !hit;
    }
  }

  /** The rows a batch logs; a record without a time gets the clock's. */
  function Rows(records: seq<Record>, clock: seq<int>): (rows: seq<Row>)
    requires |clock| == |records|
    ensures |rows| == |records|
    ensures forall k | 0 <= k < |records| ::
              rows[k].record == records[k] && rows[k].at == match records[k].createdAt case Some(at) => at case None => clock[k]
  {
    seq(|records|, k requires 0 <= k < |records| => RowOf(records[k], clock[k]))
  }
}
