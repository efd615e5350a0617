/** Check, then charge: requests are admitted on what the tables say at the time and charged
    when they end (internal/quota.go:8-22; internal/usage.go:55-128; internal/store_quota.go:15-56;
    internal/store_usage.go:126-151). How far a period can be overdrawn in between, whatever the
    interleaving. */
module Admission {
  import opened Canonical
  import opened Ledger
  import LedgerPools
  import Quota

  /** One limited user in one quota period. Each request costs at most `most`; at most `width`
      requests of the user are under way at a time. */
  datatype Setting = Setting(userID: int, weekly: nat, lifetime: nat, anchor: int, start: int, most: nat, width: nat) {
    function Token(): Quota.Token { Quota.Token(userID, weekly, lifetime, Some(anchor)) }
    function Key(): PeriodKey { PeriodKey(userID, start) }
    function WeeklyLimit(): nat { weekly * Quota.CREDIT }
    function LifetimeLimit(): nat { lifetime * Quota.CREDIT }

    /** What the two pools can still give when the period starts. */
    function Budget(lifetimeUsed: nat): nat {
      WeeklyLimit() + Quota.Max(LifetimeLimit() - lifetimeUsed, 0)
    }
  }

  /** The tables, and the number of the user's requests between check and charge. */
  datatype State = State(tables: Tables, pending: nat)

  datatype Move =
    | Check(at: int)
    | Settle(row: Row)
    | Abandon
    | Elsewhere(row: Row)

  ghost predicate KnowsUser(c: Setting, t: Tables) {
    && c.userID > 0 && c.weekly + c.lifetime > 0
    && c.userID in t.users
    && t.users[c.userID].weeklyCredits == c.weekly && t.users[c.userID].lifetimeCredits == c.lifetime
    && t.users[c.userID].anchor == c.anchor && t.users[c.userID].lifetimeUsed >= 0
  }

  /** The moves of the protocol. A request settles with a record stamped from its token, in this
      period or in another; it may also end without a charge. */
  predicate Allowed(c: Setting, s: State, m: Move) {
    match m
    case Check(at) =>
      && s.pending < c.width && Quota.WeeklyPeriod(c.anchor, at).0 == c.start
      && Quota.Enforce(s.tables, c.Token(), at) == Quota.Admitted
    case Settle(row) =>
      && s.pending > 0 && row.record.cost <= c.most
      && row.record == Quota.Stamp(row.record, c.Token(), row.at) && Apply(s.tables, row).Some?
    case Abandon => s.pending > 0
    case Elsewhere(row) => row.record.userID != c.userID && Apply(s.tables, row).Some?
  }

  function Step(c: Setting, s: State, m: Move): State
    requires Allowed(c, s, m)
  {
    match m
    case Check(_) => s.(pending := s.pending + 1)
    case Settle(row) => State(Apply(s.tables, row).value, s.pending - 1)
    case Abandon => s.(pending := s.pending - 1)
    case Elsewhere(row) => s.(tables := Apply(s.tables, row).value)
  }

  /** The state after a run, if every move of it is allowed. */
  function Run(c: Setting, s: State, moves: seq<Move>): Option<State> {
    if moves == [] then Some(s) else
      match Run(c, s, moves[..|moves| - 1])
      case None => None
      case Some(before) =>
        var m := moves[|moves| - 1];
        if Allowed(c, before, m) then Some(Step(c, before, m)) else None
  }

  function Used(c: Setting, t: Tables): int {
    UsedIn(t.periods, c.Key())
  }

  /** Within the period: everything used beyond the weekly limit is on the lifetime pool, and the
      requests under way cannot take the usage past the budget by more than `width` of them. */
  ghost predicate Bounded(c: Setting, s: State, lifetimeUsed: nat) {
    && KnowsUser(c, s.tables) && s.pending <= c.width
    && LedgerPools.LifetimeOf(s.tables, c.userID) >=
         lifetimeUsed + (if c.lifetime > 0 then Overage(Used(c, s.tables), c.WeeklyLimit()) else 0)
    && Used(c, s.tables) + s.pending * c.most < Quota.Max(c.Budget(lifetimeUsed), 1) + c.width * c.most
  }

  lemma Fewer(a: nat, b: nat, most: nat)
    requires a <= b
    ensures a * most <= b * most
  {
    assert b * most == a * most + (b - a) * most;
    assert (b - a) * most >= 0;
  }

  /** An admission means the budget is not used up. */
  lemma AdmissionHasRoom(c: Setting, s: State, lifetimeUsed: nat, at: int)
    requires Bounded(c, s, lifetimeUsed) && Allowed(c, s, Check(at))
    ensures Used(c, s.tables) < c.Budget(lifetimeUsed)
  {
    hide UsedIn, Quota.Enforce, Quota.WeeklyPeriod;
    Quota.AdmittedIff(s.tables, c.Token(), at);
  }

  lemma CheckKeeps(c: Setting, s: State, lifetimeUsed: nat, at: int)
    requires Bounded(c, s, lifetimeUsed) && Allowed(c, s, Check(at))
    ensures Bounded(c, Step(c, s, Check(at)), lifetimeUsed)
  {
    hide UsedIn, Quota.Enforce, Quota.WeeklyPeriod;
    AdmissionHasRoom(c, s, lifetimeUsed, at);
    Fewer(s.pending + 1, c.width, c.most);
  }

  /** A row of the user's: at most its cost more is used, and what goes beyond the limit is
      charged to the lifetime pool. */
  lemma SettleMoves(c: Setting, s: State, row: Row)
    requires KnowsUser(c, s.tables) && Allowed(c, s, Settle(row))
    ensures var u := Apply(s.tables, row).value;
            && KnowsUser(c, u)
            && Used(c, s.tables) <= Used(c, u) <= Used(c, s.tables) + c.most
            && LedgerPools.LifetimeOf(u, c.userID) - LedgerPools.LifetimeOf(s.tables, c.userID) >=
                 (if c.lifetime > 0 then Overage(Used(c, u), c.WeeklyLimit()) - Overage(Used(c, s.tables), c.WeeklyLimit()) else 0)
  {
    hide Apply, Quota.WeeklyPeriod;
    LedgerPools.ApplyQuota(s.tables, row);
  }

  lemma ElsewhereMoves(c: Setting, s: State, row: Row)
    requires KnowsUser(c, s.tables) && Allowed(c, s, Elsewhere(row))
    ensures var u := Apply(s.tables, row).value;
            && KnowsUser(c, u) && Used(c, u) == Used(c, s.tables)
            && LedgerPools.LifetimeOf(u, c.userID) == LedgerPools.LifetimeOf(s.tables, c.userID)
  {
    hide Apply, LifetimePart;
    LedgerPools.ApplyQuota(s.tables, row);
  }

  lemma OneLess(pending: nat, most: nat)
    requires pending > 0
    ensures (pending - 1) * most == pending * most - most
  {}

  lemma StepKeeps(c: Setting, s: State, lifetimeUsed: nat, m: Move)
    requires Bounded(c, s, lifetimeUsed) && Allowed(c, s, m)
    ensures Bounded(c, Step(c, s, m), lifetimeUsed)
  {
    hide Apply, UsedIn, Quota.Enforce, Quota.WeeklyPeriod, Quota.Stamp, LedgerPools.LifetimeOf;
    match m {
      case Check(at) => CheckKeeps(c, s, lifetimeUsed, at);
      case Settle(row) =>
        SettleMoves(c, s, row);
        OneLess(s.pending, c.most);
      case Abandon => OneLess(s.pending, c.most);
      case Elsewhere(row) => ElsewhereMoves(c, s, row);
    }
  }

  /** The overdraft bound: from the start of a period, with up to `width` requests already under
      way, no interleaving takes the usage of the period, with all that is under way still to be
      charged, to the budget plus `width` requests. */
  lemma {:induction false} OverdraftBound(c: Setting, s: State, moves: seq<Move>)
    requires KnowsUser(c, s.tables) && s.pending <= c.width && Used(c, s.tables) == 0
    requires Run(c, s, moves).Some?
    ensures var end := Run(c, s, moves).value;
            var before := s.tables.users[c.userID].lifetimeUsed;
            && Bounded(c, end, before)
            && Used(c, end.tables) + end.pending * c.most < Quota.Max(c.Budget(before), 1) + c.width * c.most
  {
    hide Step, Allowed, Apply;
    var before := s.tables.users[c.userID].lifetimeUsed;
    if moves == [] {
      Fewer(s.pending, c.width, c.most);
    } else {
      OverdraftBound(c, s, moves[..|moves| - 1]);
      StepKeeps(c, Run(c, s, moves[..|moves| - 1]).value, before, moves[|moves| - 1]);
    }
  }

  // ----- The bound is exact -----

  function Copies<T>(x: T, n: nat): seq<T> {
    if n == 0 then [] else Copies(x, n - 1) + [x]
  }

  lemma RunSnoc(c: Setting, s: State, moves: seq<Move>, m: Move)
    requires Run(c, s, moves).Some? && Allowed(c, Run(c, s, moves).value, m)
    ensures Run(c, s, moves + [m]) == Some(Step(c, Run(c, s, moves).value, m))
  {
    assert (moves + [m])[..|moves|] == moves;
  }

  lemma {:induction false} ManyChecks(c: Setting, s: State, at: int, n: nat)
    requires s.pending == 0 && n <= c.width
    requires c.width > 0 ==> Allowed(c, s, Check(at))
    ensures Run(c, s, Copies(Check(at), n)) == Some(s.(pending := n))
  {
    hide Quota.Enforce, Quota.WeeklyPeriod;
    if n > 0 {
      ManyChecks(c, s, at, n - 1);
      RunSnoc(c, s, Copies(Check(at), n - 1), Check(at));
    }
  }

  lemma SettleOnce(c: Setting, s: State, row: Row)
    requires KnowsUser(c, s.tables) && s.pending > 0 && Apply(s.tables, row).Some?
    requires row.record.cost == c.most > 0 && row.record == Quota.Stamp(row.record, c.Token(), row.at)
    requires Quota.WeeklyPeriod(c.anchor, row.at).0 == c.start
    ensures Allowed(c, s, Settle(row))
    ensures Used(c, Apply(s.tables, row).value) == Used(c, s.tables) + c.most
    ensures KnowsUser(c, Apply(s.tables, row).value)
  {
    hide Apply, Quota.WeeklyPeriod;
    LedgerPools.ApplyQuota(s.tables, row);
  }

  lemma {:induction false} ManySettles(c: Setting, s: State, moves: seq<Move>, row: Row, n: nat)
    requires Run(c, s, moves) == Some(s.(pending := c.width)) && n <= c.width
    requires row.record.cost == c.most > 0 && row.record == Quota.Stamp(row.record, c.Token(), row.at)
    requires Quota.WeeklyPeriod(c.anchor, row.at).0 == c.start
    requires KnowsUser(c, s.tables) && ApplyAll(s.tables, Copies(row, c.width)).Some?
    ensures ApplyAll(s.tables, Copies(row, n)).Some?
    ensures var u := ApplyAll(s.tables, Copies(row, n)).value;
            && Run(c, s, moves + Copies(Settle(row), n)) == Some(State(u, c.width - n))
            && Used(c, u) == Used(c, s.tables) + n * c.most && KnowsUser(c, u)
  {
    hide *;
    CopiesFit(s.tables, row, c.width, n);
    CopiesStep(row, n);
    CopiesStep(Settle(row), n);
    if n == 0 {
      assert moves + [] == moves;
      ApplyNone(s.tables);
    } else {
      ManySettles(c, s, moves, row, n - 1);
      var u := ApplyAll(s.tables, Copies(row, n - 1)).value;
      ApplyCopies(s.tables, row, n);
      SettleOnce(c, State(u, c.width - (n - 1)), row);
      RunSnoc(c, s, moves + Copies(Settle(row), n - 1), Settle(row));
      assert moves + Copies(Settle(row), n) == moves + Copies(Settle(row), n - 1) + [Settle(row)];
      SettleStep(c, State(u, c.width - (n - 1)), row);
      OneLess(n, c.most);
    }
  }

  lemma SettleStep(c: Setting, s: State, row: Row)
    requires Allowed(c, s, Settle(row))
    ensures Apply(s.tables, row).Some? && Step(c, s, Settle(row)) == State(Apply(s.tables, row).value, s.pending - 1)
  {
    hide Apply, Quota.Stamp;
  }

  lemma ApplyNone(t: Tables)
    ensures ApplyAll(t, []) == Some(t)
  {}

  lemma CopiesFit(t: Tables, row: Row, n: nat, k: nat)
    requires k <= n && ApplyAll(t, Copies(row, n)).Some?
    ensures ApplyAll(t, Copies(row, k)).Some?
  {
    hide Apply, ApplyAll;
    CopiesPrefix(row, n, k);
    if ApplyAll(t, Copies(row, k)).None? {
      ApplyAllStops(t, Copies(row, n), k);
    }
  }

  lemma CopiesStep<T>(x: T, n: nat)
    ensures Copies(x, n) == if n == 0 then [] else Copies(x, n - 1) + [x]
  {}

  lemma ApplyCopies(t: Tables, row: Row, n: nat)
    requires n > 0 && ApplyAll(t, Copies(row, n - 1)).Some?
    ensures ApplyAll(t, Copies(row, n)) == Apply(ApplyAll(t, Copies(row, n - 1)).value, row)
  {
    hide Apply;
    assert Copies(row, n)[..|Copies(row, n)| - 1] == Copies(row, n - 1);
  }

  lemma {:induction false} CopiesPrefix<T>(x: T, n: nat, k: nat)
    requires k <= n
    ensures |Copies(x, n)| == n && Copies(x, n)[..k] == Copies(x, k)
  {
    if k == n {
      CopiesLength(x, n);
    } else {
      CopiesPrefix(x, n - 1, k);
    }
  }

  lemma {:induction false} CopiesLength<T>(x: T, n: nat)
    ensures |Copies(x, n)| == n
  {
    if n > 0 {
      CopiesLength(x, n - 1);
    }
  }

  /** No smaller bound would do: one microcredit before the budget is used up, `width` requests
      can be admitted together, and charged in full. */
  lemma BoundIsReached(c: Setting, s: State, lifetimeUsed: nat, at: int, row: Row)
    requires KnowsUser(c, s.tables) && s.pending == 0 && c.width > 0
    requires 0 <= Used(c, s.tables) == c.Budget(lifetimeUsed) - 1
    requires LedgerPools.LifetimeOf(s.tables, c.userID) ==
               lifetimeUsed + if c.lifetime > 0 then Overage(Used(c, s.tables), c.WeeklyLimit()) else 0
    requires Quota.WeeklyPeriod(c.anchor, at).0 == c.start == Quota.WeeklyPeriod(c.anchor, row.at).0
    requires row.record.cost == c.most > 0 && row.record == Quota.Stamp(row.record, c.Token(), row.at)
    requires ApplyAll(s.tables, Copies(row, c.width)).Some?
    ensures exists moves ::
              && Run(c, s, moves).Some? && Run(c, s, moves).value.pending == 0
              && Used(c, Run(c, s, moves).value.tables) == Used(c, s.tables) + c.width * c.most
  {
    hide Apply, Quota.WeeklyPeriod, Quota.Enforce, ApplyAll, Quota.Stamp, Copies, Run, UsedIn;
    Quota.AdmittedIff(s.tables, c.Token(), at);
    ManyChecks(c, s, at, c.width);
    ManySettles(c, s, Copies(Check(at), c.width), row, c.width);
    var moves := Copies(Check(at), c.width) + Copies(Settle(row), c.width);
    assert Run(c, s, moves).Some?;
  }
}
