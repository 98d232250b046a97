// The capacity rows as the requests change them: jobs/control_service.py:530-641
// and 713-727, one loop over the job's scopes at a time.

module CapacityLedger {
  import opened Outcomes
  import opened JobRegistry
  import opened JobRows
  import opened Capacity

  // No scope twice, as in every list _capacity_scopes makes.
  ghost predicate EachOnce(scopes: seq<Scope>) {
    forall i, j :: 0 <= i < j < |scopes| ==> scopes[i] != scopes[j]
  }

  lemma ScopesAreDistinct(spec: JobSpec)
    ensures EachOnce(Scopes(spec))
  {
    forall i, j | 0 <= i < j < |Scopes(spec)|
      ensures Scopes(spec)[i] != Scopes(spec)[j]
    {
      assert Rank(Scopes(spec)[i]) < Rank(Scopes(spec)[j]);
    }
  }

  // ---- one more scope ----

  lemma OneMoreOpened(c: Counters, scopes: seq<Scope>, i: nat)
    requires i < |scopes|
    ensures Ensure(c, scopes[..i + 1]) == Ensure(c, scopes[..i])[scopes[i] := Get(c, scopes[i])]
  {
    assert scopes[..i + 1] == scopes[..i] + [scopes[i]];
  }

  lemma NotYet(scopes: seq<Scope>, i: nat)
    requires EachOnce(scopes) && i < |scopes|
    ensures scopes[i] !in scopes[..i]
    ensures forall k :: k in scopes[..i + 1] <==> k == scopes[i] || k in scopes[..i]
  {
    assert scopes[..i + 1] == scopes[..i] + [scopes[i]];
  }

  lemma ShiftOfPrefix(c: Counters, scopes: seq<Scope>, i: nat, pending: int, running: int)
    requires EachOnce(scopes) && i < |scopes| && scopes[i] in c
    requires forall k :: k in scopes[..i] ==> Get(c, k).pending + pending >= 0 && Get(c, k).running + running >= 0
    requires forall k :: k in scopes[..i + 1] ==> Get(c, k).pending + pending >= 0 && Get(c, k).running + running >= 0
    ensures var before, row := Shift(c, scopes[..i], pending, running), c[scopes[i]];
            && scopes[i] in before && before[scopes[i]] == row
            && row.pending + pending >= 0 && row.running + running >= 0
            && Shift(c, scopes[..i + 1], pending, running) ==
               before[scopes[i] := row.(pending := row.pending + pending, running := row.running + running)]
  {
    NotYet(scopes, i);
  }

  lemma OneMoreShifted(c: Counters, scopes: seq<Scope>, i: nat, pending: int, running: int)
    requires EachOnce(scopes) && i < |scopes|
    requires forall k :: k in scopes ==> k in c
    requires forall k :: k in scopes[..i + 1] ==> Get(c, k).pending + pending >= 0 && Get(c, k).running + running >= 0
    ensures forall k :: k in scopes[..i] ==> Get(c, k).pending + pending >= 0 && Get(c, k).running + running >= 0
    ensures var before := Shift(c, scopes[..i], pending, running);
            && scopes[i] in before && before[scopes[i]] == c[scopes[i]]
            && Shift(c, scopes[..i + 1], pending, running) ==
               before[scopes[i] := c[scopes[i]].(pending := c[scopes[i]].pending + pending, running := c[scopes[i]].running + running)]
  {
    NotYet(scopes, i);
    ShiftOfPrefix(c, scopes, i, pending, running);
  }

  lemma ShiftOfOpened(c: Counters, scopes: seq<Scope>, pending: int, running: int)
    requires forall k :: k in scopes ==> Get(c, k).pending + pending >= 0 && Get(c, k).running + running >= 0
    ensures Shift(Ensure(c, scopes), scopes, pending, running) == Shift(c, scopes, pending, running)
  {
    assert forall k :: Get(Ensure(c, scopes), k) == Get(c, k);
  }

  lemma PrefixIsStocked(c: Counters, scopes: seq<Scope>, n: nat)
    requires n <= Stocked(c, scopes)
    ensures forall k :: k in scopes[..n] ==> Get(c, k).pending > 0
  {
  }

  // The first n rows moved.
  ghost function MovedTo(c: Counters, scopes: seq<Scope>, n: nat): Counters
    requires n <= Stocked(c, scopes)
  {
    PrefixIsStocked(c, scopes, n);
    Shift(c, scopes[..n], -1, 1)
  }

  lemma NextIsUnmoved(c: Counters, scopes: seq<Scope>, i: nat)
    requires EachOnce(scopes) && i < |scopes| && i <= Stocked(c, scopes) && scopes[i] in c
    ensures scopes[i] in MovedTo(c, scopes, i) && MovedTo(c, scopes, i)[scopes[i]] == c[scopes[i]]
    ensures i < Stocked(c, scopes) <==> c[scopes[i]].pending > 0
  {
    NotYet(scopes, i);
  }

  lemma OneMoreMoved(c: Counters, scopes: seq<Scope>, i: nat)
    requires EachOnce(scopes) && i < Stocked(c, scopes)
    requires scopes[i] in c && c[scopes[i]].pending > 0
    ensures MovedTo(c, scopes, i + 1) ==
            MovedTo(c, scopes, i)[scopes[i] := c[scopes[i]].(pending := c[scopes[i]].pending - 1, running := c[scopes[i]].running + 1)]
  {
    PrefixIsStocked(c, scopes, i);
    PrefixIsStocked(c, scopes, i + 1);
    ShiftOfPrefix(c, scopes, i, -1, 1);
  }

  lemma StockedOfOpened(c: Counters, scopes: seq<Scope>)
    ensures Stocked(Ensure(c, scopes), scopes) == Stocked(c, scopes)
  {
    SameReadingsSameStock(c, Ensure(c, scopes), scopes);
  }

  lemma {:induction false} SameReadingsSameStock(c: Counters, c': Counters, scopes: seq<Scope>)
    requires forall k :: Get(c', k) == Get(c, k)
    ensures Stocked(c', scopes) == Stocked(c, scopes)
  {
    if scopes != [] {
      SameReadingsSameStock(c, c', scopes[1..]);
    }
  }

  lemma ReleaseOfOpened(c: Counters, scopes: seq<Scope>)
    ensures ReleaseRunningAll(Ensure(c, scopes), scopes) == ReleaseRunningAll(c, scopes)
  {
  }

  lemma OneMoreReleased(c: Counters, scopes: seq<Scope>, i: nat)
    requires EachOnce(scopes) && i < |scopes| && scopes[i] in c
    ensures var before, row := ReleaseRunningAll(c, scopes[..i]), c[scopes[i]];
            && scopes[i] in before && before[scopes[i]] == row
            && ReleaseRunningAll(c, scopes[..i + 1]) ==
               if row.running > 0 then before[scopes[i] := row.(running := row.running - 1)] else before
  {
    NotYet(scopes, i);
  }

  lemma OneMoreGivenBack(c: Counters, scopes: seq<Scope>, i: nat)
    requires EachOnce(scopes) && i < |scopes|
    ensures var before, k := ReleasePendingAll(c, scopes[..i]), scopes[i];
            && (k in before <==> k in c) && (k in c ==> before[k] == c[k])
            && ReleasePendingAll(c, scopes[..i + 1]) ==
               if k in c && c[k].pending > 0 then before[k := c[k].(pending := c[k].pending - 1)] else before
  {
    NotYet(scopes, i);
  }

  class Ledger {
    var rows: Counters

    constructor ()
      ensures rows == map[]
    {
      rows := map[];
    }

    // _get_capacity_record for each scope in turn.
    method Open(scopes: seq<Scope>)
      modifies this
      ensures rows == Ensure(old(rows), scopes)
    {
      assert rows == Ensure(rows, scopes[..0]);
      for i := 0 to |scopes|
        invariant rows == Ensure(old(rows), scopes[..i])
      {
        OneMoreOpened(old(rows), scopes, i);
        if scopes[i] !in rows {
          rows := rows[scopes[i] := ZERO];
        }
      }
      assert scopes[..|scopes|] == scopes;
    }

    // The second loop of every capacity change: each row, already open, goes up
    // or down.
    method Add(scopes: seq<Scope>, pending: int, running: int)
      requires EachOnce(scopes) && forall k :: k in scopes ==> k in rows
      requires forall k :: k in scopes ==> Get(rows, k).pending + pending >= 0 && Get(rows, k).running + running >= 0
      modifies this
      ensures rows == Shift(old(rows), scopes, pending, running)
    {
      ghost var start := rows;
      assert rows == Shift(rows, scopes[..0], pending, running);
      for i := 0 to |scopes|
        invariant forall k :: k in scopes[..i] ==> k in scopes
        invariant rows == Shift(start, scopes[..i], pending, running)
      {
        NotYet(scopes, i);
        OneMoreShifted(start, scopes, i, pending, running);
        var row := rows[scopes[i]];
        rows := rows[scopes[i] := row.(pending := row.pending + pending, running := row.running + running)];
      }
      assert scopes[..|scopes|] == scopes;
    }

    // _reserve_capacity. The code is that of the exception raised, if any.
    method Reserve(cfg: Settings, scopes: seq<Scope>) returns (code: Option<nat>)
      requires EachOnce(scopes)
      modifies this
      ensures match ReservePending(cfg, old(rows), scopes)
              case Ok(c) => code.None? && rows == c
              case Raised(n) => code == Some(n)
    {
      Open(scopes);
      for i := 0 to |scopes|
        invariant forall j :: 0 <= j < i ==> Get(old(rows), scopes[j]).pending < PendingLimit(cfg, scopes[j])
      {
        if rows[scopes[i]].pending >= PendingLimit(cfg, scopes[i]) {
          assert scopes[i] in scopes;
          return Some(429);
        }
      }
      ShiftOfOpened(old(rows), scopes, 1, 0);
      Add(scopes, 1, 0);
      code := None;
    }

    // The updating loop of move_pending_capacity_to_running. It tests each row
    // as it goes, so it stops with the rows before the first empty one moved.
    method MoveStocked(scopes: seq<Scope>) returns (all: bool)
      requires EachOnce(scopes) && forall k :: k in scopes ==> k in rows
      modifies this
      ensures all <==> Stocked(old(rows), scopes) == |scopes|
      ensures rows == MovedTo(old(rows), scopes, Stocked(old(rows), scopes))
    {
      ghost var start := rows;
      assert rows == MovedTo(start, scopes, 0);
      for i := 0 to |scopes|
        invariant i <= Stocked(start, scopes) && rows == MovedTo(start, scopes, i)
      {
        NextIsUnmoved(start, scopes, i);
        var row := rows[scopes[i]];
        if row.pending == 0 {
          return false;
        }
        OneMoreMoved(start, scopes, i);
        rows := rows[scopes[i] := row.(pending := row.pending - 1, running := row.running + 1)];
      }
      all := true;
    }

    // move_pending_capacity_to_running
    method TakeRunning(cfg: Settings, scopes: seq<Scope>) returns (code: Option<nat>)
      requires EachOnce(scopes)
      modifies this
      ensures match MoveToRunning(cfg, old(rows), scopes)
              case SlotsTaken(c) => code.None? && rows == c
              case SlotsRefused(c, n) => code == Some(n) && rows == c
    {
      Open(scopes);
      for i := 0 to |scopes|
        invariant forall j :: 0 <= j < i ==> Get(old(rows), scopes[j]).running < RunningLimit(cfg, scopes[j])
      {
        if rows[scopes[i]].running >= RunningLimit(cfg, scopes[i]) {
          assert scopes[i] in scopes;
          return Some(429);
        }
      }
      assert HasRunningRoom(cfg, old(rows), scopes);
      StockedOfOpened(old(rows), scopes);
      var all := MoveStocked(scopes);
      assert scopes[..|scopes|] == scopes;
      if all {
        StockedMembers(old(rows), scopes);
        ShiftOfOpened(old(rows), scopes, -1, 1);
        return None;
      }
      code := Some(409);
    }

    // move_running_capacity_to_pending
    method TakePending(cfg: Settings, scopes: seq<Scope>) returns (code: Option<nat>)
      requires EachOnce(scopes)
      modifies this
      ensures match MoveToPending(cfg, old(rows), scopes)
              case Ok(c) => code.None? && rows == c
              case Raised(n) => code == Some(n)
    {
      Open(scopes);
      for i := 0 to |scopes|
        invariant PendingRefusal(cfg, old(rows), scopes) == PendingRefusal(cfg, old(rows), scopes[i..])
      {
        if rows[scopes[i]].running == 0 {
          return Some(409);
        }
        if rows[scopes[i]].pending >= PendingLimit(cfg, scopes[i]) {
          return Some(429);
        }
        assert scopes[i..][1..] == scopes[i + 1..];
      }
      ShiftOfOpened(old(rows), scopes, 1, -1);
      Add(scopes, 1, -1);
      code := None;
    }

    // The loop of release_running_capacity, over open rows.
    method LowerRunning(scopes: seq<Scope>)
      requires EachOnce(scopes) && forall k :: k in scopes ==> k in rows
      modifies this
      ensures rows == ReleaseRunningAll(old(rows), scopes)
    {
      ghost var start := rows;
      assert start == ReleaseRunningAll(start, scopes[..0]);
      for i := 0 to |scopes|
        invariant rows == ReleaseRunningAll(start, scopes[..i])
      {
        OneMoreReleased(start, scopes, i);
        var row := rows[scopes[i]];
        if row.running > 0 {
          rows := rows[scopes[i] := row.(running := row.running - 1)];
        }
      }
      assert scopes[..|scopes|] == scopes;
    }

    // release_running_capacity
    method GiveBackRunning(scopes: seq<Scope>)
      requires EachOnce(scopes)
      modifies this
      ensures rows == ReleaseRunningAll(old(rows), scopes)
    {
      Open(scopes);
      LowerRunning(scopes);
      ReleaseOfOpened(old(rows), scopes);
    }

    // The first part of _release_capacity: rows that do not exist stay absent.
    method GiveBackPending(scopes: seq<Scope>)
      requires EachOnce(scopes)
      modifies this
      ensures rows == ReleasePendingAll(old(rows), scopes)
    {
      assert rows == ReleasePendingAll(rows, scopes[..0]);
      for i := 0 to |scopes|
        invariant rows == ReleasePendingAll(old(rows), scopes[..i])
      {
        OneMoreGivenBack(old(rows), scopes, i);
        if scopes[i] in rows && rows[scopes[i]].pending > 0 {
          rows := rows[scopes[i] := rows[scopes[i]].(pending := rows[scopes[i]].pending - 1)];
        }
      }
      assert scopes[..|scopes|] == scopes;
    }

    // One capacity step of a request after another.
    method Move(cfg: Settings, scopes: seq<Scope>, moves: seq<Move>) returns (code: Option<nat>)
      requires EachOnce(scopes)
      modifies this
      ensures match ApplyMoves(cfg, old(rows), scopes, moves)
              case Ok(c) => code.None? && rows == c
              case Raised(n) => code == Some(n)
    {
      for i := 0 to |moves|
        invariant ApplyMoves(cfg, old(rows), scopes, moves) == ApplyMoves(cfg, rows, scopes, moves[i..])
      {
        assert moves[i..][1..] == moves[i + 1..];
        match moves[i]
        case ToRunning =>
          code := TakeRunning(cfg, scopes);
          if code.Some? { return; }
        case ToPending =>
          code := TakePending(cfg, scopes);
          if code.Some? { return; }
        case ReleasePending => GiveBackPending(scopes);
        case ReleaseRunning => GiveBackRunning(scopes);
      }
      code := None;
    }

    // _reserve_daily_cost
    method ReserveDailyCost(cfg: Settings, today: int, estimate: nat) returns (code: Option<nat>)
      modifies this
      ensures match ReserveCost(cfg, old(rows), today, estimate)
              case Ok(c) => code.None? && rows == c
              case Raised(n) => code == Some(n)
    {
      Open([GlobalScope]);
      if rows[GlobalScope].period != Some(today) {
        rows := rows[GlobalScope := rows[GlobalScope].(period := Some(today), cost := 0)];
      }
      var row := rows[GlobalScope];
      if cfg.dailyBudget != 0 && row.cost + estimate > cfg.dailyBudget {
        return Some(429);
      }
      rows := rows[GlobalScope := row.(cost := row.cost + estimate)];
      code := None;
    }

    // The global row's part of a refund.
    method GiveBackCost(refund: Refund, today: int)
      modifies this
      ensures rows == ApplyRefund(old(rows), refund, today)
    {
      match refund
      case NoRefund =>
      case IfPeriodIsToday(amount) =>
        Open([GlobalScope]);
        var row := rows[GlobalScope];
        if row.period == Some(today) {
          rows := rows[GlobalScope := row.(cost := if row.cost > amount then row.cost - amount else 0)];
        }
      case Always(amount) =>
        if GlobalScope in rows {
          var row := rows[GlobalScope];
          rows := rows[GlobalScope := row.(cost := if row.cost > amount then row.cost - amount else 0)];
        }
    }
  }
}
