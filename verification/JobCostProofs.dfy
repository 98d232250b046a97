// The daily provider budget over whole runs, and the effect of a reconciliation
// on the cost columns.

module JobCostProofs {
  import opened Outcomes
  import opened JobRegistry
  import opened JobStatusMachine
  import opened JobRows
  import opened JobRowProofs
  import opened Capacity
  import opened JobProtocol
  import opened JobInvariants
  import opened JobTraces
  import opened JobCapacityProofs

  // ---- sums over the jobs ----

  lemma {:induction false} SpendWithout(jobs: map<nat, Record>, id: nat, day: int)
    requires id in jobs
    ensures Spend(jobs, day) == Contribution(jobs[id], day) + Spend(jobs - {id}, day)
    decreases |jobs|
  {
    var first :| first in jobs && Spend(jobs, day) == Contribution(jobs[first], day) + Spend(jobs - {first}, day);
    if first != id {
      SpendWithout(jobs - {first}, id, day);
      SpendWithout(jobs - {id}, first, day);
      assert jobs - {first} - {id} == jobs - {id} - {first};
    }
  }

  lemma SpendReplaced(jobs: map<nat, Record>, id: nat, r': Record, day: int)
    requires id in jobs
    ensures Spend(jobs[id := r'], day) == Spend(jobs, day) - Contribution(jobs[id], day) + Contribution(r', day)
  {
    SpendWithout(jobs, id, day);
    SpendWithout(jobs[id := r'], id, day);
    assert jobs[id := r'] - {id} == jobs - {id};
  }

  lemma SpendAdded(jobs: map<nat, Record>, id: nat, r: Record, day: int)
    requires id !in jobs
    ensures Spend(jobs[id := r], day) == Spend(jobs, day) + Contribution(r, day)
  {
    SpendWithout(jobs[id := r], id, day);
    assert jobs[id := r] - {id} == jobs;
  }

  // ---- the invariant of one day ----

  ghost predicate OneDay(jobs: map<nat, Record>, day: int) {
    forall id :: id in jobs && jobs[id].cost.Some? ==> jobs[id].cost.value.period == day
  }

  // Live reservations plus the settled price of finished sessions never exceed
  // the global reserved cost, and that never exceeds a positive budget.
  ghost predicate MoneyKept(cfg: Settings, s: State, day: int) {
    && OneDay(s.jobs, day)
    && Spend(s.jobs, day) <= Get(s.counters, GlobalScope).cost
    && (cfg.dailyBudget > 0 ==> Get(s.counters, GlobalScope).cost <= cfg.dailyBudget)
    && (Get(s.counters, GlobalScope).cost == 0 || Get(s.counters, GlobalScope).period == Some(day))
  }

  // Capacity moves leave the cost columns alone.
  lemma MovesKeepCost(cfg: Settings, c: Counters, scopes: seq<Scope>, move: Move, k: Scope)
    ensures var c' := ApplyMove(cfg, c, scopes, move);
            c'.Ok? ==> Get(c'.value, k).cost == Get(c, k).cost && Get(c'.value, k).period == Get(c, k).period
  {
  }

  lemma {:induction false} AllMovesKeepCost(cfg: Settings, c: Counters, scopes: seq<Scope>, moves: seq<Move>, k: Scope)
    requires ApplyMoves(cfg, c, scopes, moves).Ok?
    ensures var c' := ApplyMoves(cfg, c, scopes, moves).value;
            Get(c', k).cost == Get(c, k).cost && Get(c', k).period == Get(c, k).period
    decreases |moves|
  {
    if moves != [] {
      MovesKeepCost(cfg, c, scopes, moves[0], k);
      AllMovesKeepCost(cfg, ApplyMove(cfg, c, scopes, moves[0]).value, scopes, moves[1..], k);
    }
  }

  // A refund no larger than the cost is taken off in full: it is never clamped.
  ghost predicate RefundIsWhole(c: Counters, refund: Refund, day: int) {
    Get(ApplyRefund(c, refund, day), GlobalScope).cost == Get(c, GlobalScope).cost - RefundAmount(refund)
  }

  lemma RefundsAreWhole(c: Counters, refund: Refund, day: int)
    requires RefundAmount(refund) <= Get(c, GlobalScope).cost
    requires Get(c, GlobalScope).cost == 0 || Get(c, GlobalScope).period == Some(day)
    ensures RefundIsWhole(c, refund, day)
    ensures Get(ApplyRefund(c, refund, day), GlobalScope).period == Get(c, GlobalScope).period
  {
  }

  // What one change does to the two sides of the balance.
  lemma ChangeKeepsMoney(cfg: Settings, s: State, s': State, id: nat, e: Effect, c: Counters, day: int, exactly: bool)
    requires MoneyKept(cfg, s, day) && id in s.jobs && s'.jobs == s.jobs[id := e.record]
    requires Get(c, GlobalScope).cost == Get(s.counters, GlobalScope).cost
    requires Get(c, GlobalScope).period == Get(s.counters, GlobalScope).period
    requires s'.counters == ApplyRefund(c, e.refund, day)
    requires RefundMatches(s.jobs[id], e, day, exactly)
    ensures MoneyKept(cfg, s', day) && RefundIsWhole(c, e.refund, day)
  {
    SpendReplaced(s.jobs, id, e.record, day);
    SpendWithout(s.jobs, id, day);
    RefundsAreWhole(c, e.refund, day);
  }

  lemma OpKeepsMoney(cfg: Settings, s: State, id: nat, op: RowOp, now: int)
    requires AllSound(s) && MoneyKept(cfg, s, Day(now))
    requires id in s.jobs && Fits(s.jobs[id], op) && ApplyOp(cfg, s, id, op, now).Ok?
    ensures MoneyKept(cfg, ApplyOp(cfg, s, id, op, now).value, Day(now))
  {
    var r := s.jobs[id];
    assert Sound(r);
    var e := ApplyRow(cfg, r, op, now).value;
    RefundMatchesContribution(cfg, r, op, now, Day(now));
    AllMovesKeepCost(cfg, s.counters, Scopes(r.spec), e.moves, GlobalScope);
    ChangeKeepsMoney(cfg, s, ApplyOp(cfg, s, id, op, now).value, id, e,
                     ApplyMoves(cfg, s.counters, Scopes(r.spec), e.moves).value, Day(now), !op.Complete?);
  }

  // A submission reserves exactly what its job will count for.
  lemma CreateReserves(cfg: Settings, s: State, id: nat, q: Submission, now: int)
    requires CreateJob(cfg, s, id, q, now).Ok?
    requires Get(s.counters, GlobalScope).cost == 0 || Get(s.counters, GlobalScope).period == Some(Day(now))
    ensures var s' := CreateJob(cfg, s, id, q, now).value;
            && id in s'.jobs && s'.jobs == s.jobs[id := s'.jobs[id]]
            && Get(s'.counters, GlobalScope).cost == Get(s.counters, GlobalScope).cost + Contribution(s'.jobs[id], Day(now))
            && (cfg.dailyBudget > 0 ==> Get(s'.counters, GlobalScope).cost <= cfg.dailyBudget)
            && Get(s'.counters, GlobalScope).period == Some(Day(now))
            && (s'.jobs[id].cost.Some? ==> s'.jobs[id].cost.value.period == Day(now))
  {
  }

  lemma CreateKeepsMoney(cfg: Settings, s: State, id: nat, q: Submission, now: int)
    requires MoneyKept(cfg, s, Day(now)) && id !in s.jobs && CreateJob(cfg, s, id, q, now).Ok?
    ensures MoneyKept(cfg, CreateJob(cfg, s, id, q, now).value, Day(now))
  {
    var s' := CreateJob(cfg, s, id, q, now).value;
    CreateReserves(cfg, s, id, q, now);
    SpendAdded(s.jobs, id, s'.jobs[id], Day(now));
  }

  // ---- reconciliation ----

  // From arbitrary counters, the global row holds exactly the day's spend, and
  // no other row's cost is written.
  lemma ReconcileMakesCostExact(s: State, now: int)
    requires AllSound(s)
    ensures Get(Reconcile(s, now).counters, GlobalScope).cost == Spend(s.jobs, Day(now))
    ensures Get(Reconcile(s, now).counters, GlobalScope).period == Some(Day(now))
    ensures forall k :: k != GlobalScope ==> Get(Reconcile(s, now).counters, k).cost == Get(s.counters, k).cost
  {
    NothingToRebuild(s, now);
    var s' := Reconcile(s, now);
    assert GlobalScope in s.counters.Keys + UsedScopes(s.jobs);
    forall k | k != GlobalScope
      ensures Get(s'.counters, k).cost == Get(s.counters, k).cost
    {
    }
  }

  lemma ReconcileKeepsMoney(cfg: Settings, s: State, now: int)
    requires AllSound(s) && MoneyKept(cfg, s, Day(now))
    ensures MoneyKept(cfg, Reconcile(s, now), Day(now))
  {
    ReconcileMakesExact(s, now);
    ReconcileMakesCostExact(s, now);
  }

  // After one reconciliation the only rows another one would adjust are the
  // rows of other scopes that carry a cost, which it compares but never writes.
  lemma StillNeedsAdjusting(s: State, now: int, k: Scope)
    requires AllSound(s)
    requires k in Reconcile(s, now).counters
    ensures var s1 := Reconcile(s, now);
            NeedsAdjusting(s1.jobs, k, s1.counters[k], now) <==> k != GlobalScope && Get(s1.counters, k).cost != 0
  {
    var s1 := Reconcile(s, now);
    ReconcileMakesExact(s, now);
    ReconcileMakesCostExact(s, now);
    RecountIsSlots(s, k);
    assert Get(s1.counters, k).pending == |SlotIds(s.jobs, k, PendingSlot)|;
  }

  // A second reconciliation at the same time reports no adjustment exactly when
  // every row but the global one has a cost of zero.
  lemma SecondReconcileAdjustsNothingIff(s: State, now: int)
    requires AllSound(s)
    ensures Adjusted(Reconcile(s, now), now) == 0 <==>
            forall k :: k in s.counters && k != GlobalScope ==> Get(s.counters, k).cost == 0
  {
    var s1 := Reconcile(s, now);
    NothingToRebuild(s, now);
    ReconcileMakesExact(s, now);
    ReconcileMakesCostExact(s, now);
    ReconciledKeys(s, now);
    var off := set k | k in s1.counters.Keys + UsedScopes(s1.jobs) && NeedsAdjusting(s1.jobs, k, FoundRow(s1.counters, k, now), now);
    assert Adjusted(s1, now) == |off| by {
      NothingToRebuild(s1, now);
    }
    forall k | k in s1.counters
      ensures k in off <==> k != GlobalScope && Get(s.counters, k).cost != 0
    {
      StillNeedsAdjusting(s, now, k);
    }
    if k :| k in s.counters && k != GlobalScope && Get(s.counters, k).cost != 0 {
      assert k in off;
    } else {
      assert off == {};
    }
  }

  // A user row that carries a cost is adjusted again and again.
  lemma ReconcileRepeatsHere(now: int)
    ensures var s := State(map[], map[UserScope("ann") := Counter(0, 0, 5, None)], map[], map[]);
            Adjusted(Reconcile(s, now), now) != 0
  {
    var s := State(map[], map[UserScope("ann") := Counter(0, 0, 5, None)], map[], map[]);
    SecondReconcileAdjustsNothingIff(s, now);
    assert Get(s.counters, UserScope("ann")).cost == 5;
  }

  lemma ReconciledKeys(s: State, now: int)
    requires AllSound(s)
    ensures Reconcile(s, now).counters.Keys == s.counters.Keys + UsedScopes(s.jobs)
    ensures UsedScopes(Reconcile(s, now).jobs) <= Reconcile(s, now).counters.Keys
  {
    NothingToRebuild(s, now);
  }

  // ---- runs ----

  lemma MicroKeepsMoney(cfg: Settings, s: State, m: Micro, now: int)
    requires AllSound(s) && MoneyKept(cfg, s, Day(now)) && MicroFits(cfg, s, m, now)
    ensures MoneyKept(cfg, MicroResult(cfg, s, m, now), Day(now))
  {
    match m
    case Change(id, op) => OpKeepsMoney(cfg, s, id, op, now);
    case Create(id, q) => CreateKeepsMoney(cfg, s, id, q, now);
    case TryMove(id) => TryMoveKeepsCost(cfg, s.counters, Scopes(s.jobs[id].spec), GlobalScope);
    case Recount => ReconcileKeepsMoney(cfg, s, now);
    case _ =>
  }

  lemma TryMoveKeepsCost(cfg: Settings, c: Counters, scopes: seq<Scope>, k: Scope)
    ensures Get(MoveToRunning(cfg, c, scopes).counters, k).cost == Get(c, k).cost
    ensures Get(MoveToRunning(cfg, c, scopes).counters, k).period == Get(c, k).period
  {
  }

  lemma {:induction false} TraceKeepsMoney(cfg: Settings, s: State, t: seq<Micro>, now: int, s': State)
    requires ValidSettings(cfg) && AllSound(s) && MoneyKept(cfg, s, Day(now)) && Traces(cfg, s, t, now, s')
    ensures AllSound(s') && MoneyKept(cfg, s', Day(now))
    decreases |t|
  {
    if t != [] {
      MicroKeepsSound(cfg, s, t[0], now);
      MicroKeepsMoney(cfg, s, t[0], now);
      TraceKeepsMoney(cfg, MicroResult(cfg, s, t[0], now), t[1..], now, s');
    }
  }

  ghost predicate WithinDay(steps: seq<Step>, day: int) {
    forall i :: 0 <= i < |steps| ==> Day(steps[i].env.now) == day
  }

  lemma {:induction false} RunsKeepMoney(cfg: Settings, s: State, steps: seq<Step>, day: int)
    requires ValidSettings(cfg) && AllSound(s) && MoneyKept(cfg, s, day)
    requires IsRun(cfg, s, steps) && WithinDay(steps, day)
    ensures AllSound(After(cfg, s, steps)) && MoneyKept(cfg, After(cfg, s, steps), day)
    decreases |steps|
  {
    if steps != [] {
      var s' := Perform(cfg, s, steps[0]).state;
      var t := StepTrace(cfg, s, steps[0]);
      TraceKeepsMoney(cfg, s, t, steps[0].env.now, s');
      assert WithinDay(steps[1..], day);
      RunsKeepMoney(cfg, s', steps[1..], day);
    }
  }

  // In every run within one UTC day: the live reservations and the settled
  // prices together stay within the global reserved cost, and that within a
  // positive budget.
  lemma BudgetIsKept(cfg: Settings, steps: seq<Step>, day: int)
    requires ValidSettings(cfg) && IsRun(cfg, EMPTY, steps) && WithinDay(steps, day)
    ensures var s := After(cfg, EMPTY, steps);
            && Spend(s.jobs, day) <= Get(s.counters, GlobalScope).cost
            && (cfg.dailyBudget > 0 ==> Get(s.counters, GlobalScope).cost <= cfg.dailyBudget)
  {
    RunsKeepMoney(cfg, EMPTY, steps, day);
  }

  // In every run only the global row ever carries a cost.
  ghost predicate OnlyGlobalCost(s: State) {
    forall k :: k != GlobalScope ==> Get(s.counters, k).cost == 0
  }

  lemma ChangeKeepsOtherCosts(cfg: Settings, s: State, id: nat, op: RowOp, now: int, k: Scope)
    requires k != GlobalScope && id in s.jobs && ApplyOp(cfg, s, id, op, now).Ok?
    ensures Get(ApplyOp(cfg, s, id, op, now).value.counters, k).cost == Get(s.counters, k).cost
  {
    AllMovesKeepCost(cfg, s.counters, Scopes(s.jobs[id].spec), ApplyRow(cfg, s.jobs[id], op, now).value.moves, k);
  }

  lemma CreateKeepsOtherCosts(cfg: Settings, s: State, id: nat, q: Submission, now: int, k: Scope)
    requires k != GlobalScope && CreateJob(cfg, s, id, q, now).Ok?
    ensures Get(CreateJob(cfg, s, id, q, now).value.counters, k).cost == Get(s.counters, k).cost
  {
  }

  lemma MicroKeepsOtherCosts(cfg: Settings, s: State, m: Micro, now: int, k: Scope)
    requires AllSound(s) && MicroFits(cfg, s, m, now) && k != GlobalScope
    ensures Get(MicroResult(cfg, s, m, now).counters, k).cost == Get(s.counters, k).cost
  {
    match m
    case Change(id, op) => ChangeKeepsOtherCosts(cfg, s, id, op, now, k);
    case Create(id, q) => CreateKeepsOtherCosts(cfg, s, id, q, now, k);
    case TryMove(id) => TryMoveKeepsCost(cfg, s.counters, Scopes(s.jobs[id].spec), k);
    case Recount => ReconcileMakesCostExact(s, now);
    case _ =>
  }

  lemma MicroKeepsGlobalCost(cfg: Settings, s: State, m: Micro, now: int)
    requires AllSound(s) && OnlyGlobalCost(s) && MicroFits(cfg, s, m, now)
    ensures OnlyGlobalCost(MicroResult(cfg, s, m, now))
  {
    forall k | k != GlobalScope
      ensures Get(MicroResult(cfg, s, m, now).counters, k).cost == 0
    {
      MicroKeepsOtherCosts(cfg, s, m, now, k);
    }
  }

  lemma {:induction false} TraceKeepsGlobalCost(cfg: Settings, s: State, t: seq<Micro>, now: int, s': State)
    requires ValidSettings(cfg) && AllSound(s) && OnlyGlobalCost(s) && Traces(cfg, s, t, now, s')
    ensures AllSound(s') && OnlyGlobalCost(s')
    decreases |t|
  {
    if t != [] {
      MicroKeepsSound(cfg, s, t[0], now);
      MicroKeepsGlobalCost(cfg, s, t[0], now);
      TraceKeepsGlobalCost(cfg, MicroResult(cfg, s, t[0], now), t[1..], now, s');
    }
  }

  lemma {:induction false} RunsKeepGlobalCost(cfg: Settings, s: State, steps: seq<Step>)
    requires ValidSettings(cfg) && AllSound(s) && OnlyGlobalCost(s) && IsRun(cfg, s, steps)
    ensures AllSound(After(cfg, s, steps)) && OnlyGlobalCost(After(cfg, s, steps))
    decreases |steps|
  {
    if steps != [] {
      var s' := Perform(cfg, s, steps[0]).state;
      var t := StepTrace(cfg, s, steps[0]);
      TraceKeepsGlobalCost(cfg, s, t, steps[0].env.now, s');
      RunsKeepGlobalCost(cfg, s', steps[1..]);
    }
  }

  // So in every run a second reconciliation in a row adjusts nothing.
  lemma ReachableReconcileIsIdempotent(cfg: Settings, steps: seq<Step>, now: int)
    requires ValidSettings(cfg) && IsRun(cfg, EMPTY, steps)
    ensures Adjusted(Reconcile(After(cfg, EMPTY, steps), now), now) == 0
  {
    RunsKeepGlobalCost(cfg, EMPTY, steps);
    SecondReconcileAdjustsNothingIff(After(cfg, EMPTY, steps), now);
  }

  // ---- retry backoff ----

  lemma {:induction false} Power2Grows(n: nat)
    ensures Power2(n) >= n + 1
  {
    if n > 0 {
      Power2Grows(n - 1);
    }
  }

  lemma DelayBounds(cfg: Settings, n: nat, hash: nat)
    requires ValidSettings(cfg)
    ensures cfg.retryBase <= RetryDelay(cfg, n, hash) <= cfg.retryMax
  {
    var steps := if n == 0 then 0 else n - 1;
    Power2Grows(steps);
    assert cfg.retryBase * Power2(steps) >= cfg.retryBase by {
      assert cfg.retryBase * (Power2(steps) - 1) >= 0;
    }
  }

  // Each doubling outgrows the jitter, whatever the hashes of the two attempts.
  lemma DelayGrows(cfg: Settings, n: nat, hash: nat, next: nat)
    requires ValidSettings(cfg) && n >= 1
    ensures RetryDelay(cfg, n, hash) <= RetryDelay(cfg, n + 1, next)
  {
    var doubled := cfg.retryBase * Power2(n - 1);
    Power2Grows(n - 1);
    assert doubled >= cfg.retryBase by {
      assert cfg.retryBase * (Power2(n - 1) - 1) >= 0;
    }
    assert cfg.retryBase * Power2(n) == 2 * doubled;
  }

  lemma {:induction false} DelayNeverDecreases(cfg: Settings, n: nat, m: nat, hash: nat, later: nat)
    requires ValidSettings(cfg) && 1 <= n < m
    ensures RetryDelay(cfg, n, hash) <= RetryDelay(cfg, m, later)
    decreases m
  {
    if n + 1 == m {
      DelayGrows(cfg, n, hash, later);
    } else {
      DelayNeverDecreases(cfg, n, m - 1, hash, 0);
      DelayGrows(cfg, m - 1, 0, later);
    }
  }

  // Attempts 0 and 1 share one base delay, so there the order of the jitters
  // decides. No job waits for a retry before its first attempt.
  lemma FirstDelayMayDecrease(cfg: Settings, hash: nat, next: nat)
    requires ValidSettings(cfg)
    ensures var bound := Min(cfg.retryBase, 5);
            RetryDelay(cfg, 0, hash) <= RetryDelay(cfg, 1, next) <==>
            hash % bound <= next % bound || cfg.retryBase + next % bound >= cfg.retryMax
  {
    assert Power2(0) == 1;
  }

  lemma FirstDelayDecreasesHere(cfg: Settings)
    requires ValidSettings(cfg) && cfg.retryBase == 5 && cfg.retryMax == 60
    ensures RetryDelay(cfg, 0, 4) == 9 && RetryDelay(cfg, 1, 0) == 5
  {
    assert Power2(0) == 1;
  }

  // A job sent back for a retry can be claimed again exactly from the end of its
  // backoff on, as long as neither its time in the queue nor its deadline is over.
  lemma RetryWaitsOutTheDelay(cfg: Settings, r: Record, outcome: AttemptOutcome, uncertain: bool, hash: nat, now: int, later: int)
    requires RequeueRow(r, outcome, uncertain, RetryDelay(cfg, r.attemptCount, hash), now).Ok?
    ensures var back := RequeueRow(r, outcome, uncertain, RetryDelay(cfg, r.attemptCount, hash), now).value.record;
            Claimable(back, later) <==>
              && r.deletedAt.None? && now + RetryDelay(cfg, r.attemptCount, hash) <= later
              && (r.spec.queueExpiresAt.Some? ==> later < r.spec.queueExpiresAt.value)
              && (r.spec.deadlineAt.Some? ==> later < r.spec.deadlineAt.value)
  {
  }

  // Without jitter the delay begins at the base and doubles up to the maximum; the
  // jitter adds less than five seconds, and less than the base.
  lemma DelayDoubles(cfg: Settings, n: nat, hash: nat)
    requires ValidSettings(cfg)
    ensures RetryDelay(cfg, 0, hash) == RetryDelay(cfg, 1, hash)
    ensures RetryDelay(cfg, 1, 0) == cfg.retryBase
    ensures n >= 1 ==> RetryDelay(cfg, n + 1, 0) == Min(cfg.retryMax, 2 * RetryDelay(cfg, n, 0))
    ensures RetryDelay(cfg, n, hash) == Min(cfg.retryMax, RetryDelay(cfg, n, 0) + hash % (if cfg.retryBase < 5 then cfg.retryBase else 5))
  {
    assert Power2(0) == 1;
    if n >= 1 {
      assert cfg.retryBase * Power2(n) == 2 * (cfg.retryBase * Power2(n - 1));
    }
  }

  // What the day has cost after a waiting job fails or is cancelled: less by what the
  // job had reserved, if the budget is still that of today.
  lemma ReservationComesBack(cfg: Settings, s: State, id: nat, op: RowOp, now: int)
    requires id in s.jobs && Sound(s.jobs[id]) && s.jobs[id].status in {Queued, RetryWait} && (op.FailPending? || op.CancelPending?)
    requires ApplyOp(cfg, s, id, op, now).Ok?
    ensures var g, g' := Get(s.counters, GlobalScope), Get(ApplyOp(cfg, s, id, op, now).value.counters, GlobalScope);
            && g'.period == g.period
            && g'.cost == if g.period == Some(now / 86400) then Max(0, g.cost - s.jobs[id].reservedCost) else g.cost
  {
    AllMovesKeepCost(cfg, s.counters, Scopes(s.jobs[id].spec), ApplyRow(cfg, s.jobs[id], op, now).value.moves, GlobalScope);
  }

  // And after a session ends without completing: less by its reservation, on the same
  // condition, where it was never submitted; by what its price leaves unused where
  // it was priced, whatever the day; and the same where its state is unknown.
  lemma SettlementComesBack(cfg: Settings, s: State, id: nat, op: RowOp, now: int)
    requires id in s.jobs && Sound(s.jobs[id]) && s.jobs[id].spec.jobType == VastSessionStart
    requires (op.Bury? && s.jobs[id].status in {Leased, Running}) || (op.CancelLeased? && s.jobs[id].status == CancelRequested)
    requires ApplyOp(cfg, s, id, op, now).Ok? && GlobalScope in s.counters
    ensures var r, g, g' := s.jobs[id], Get(s.counters, GlobalScope), Get(ApplyOp(cfg, s, id, op, now).value.counters, GlobalScope);
            var price := Min(r.spec.estimatedCost, op.session.hourlyMicrousd * cfg.vastMinutes / 60);
            g'.cost ==
            if !op.session.found || op.session.requestState in {NoRequestState, RequestNotSubmitted} then
              if g.period == Some(now / 86400) then Max(0, g.cost - r.reservedCost) else g.cost
            else if op.session.requestState in {SubmittedUnknown, ReconciliationFailed} || !op.session.hasInstance then g.cost
            else Max(0, g.cost - Max(0, r.reservedCost - price))
  {
    var r, e := s.jobs[id], ApplyRow(cfg, s.jobs[id], op, now).value;
    AllMovesKeepCost(cfg, s.counters, Scopes(r.spec), e.moves, GlobalScope);
    assert e.refund == FinalizeCost(cfg, r, op.session).refund;
    MovesKeepRows(cfg, s.counters, Scopes(r.spec), e.moves);
  }

  lemma {:induction false} MovesKeepRows(cfg: Settings, c: Counters, scopes: seq<Scope>, moves: seq<Move>)
    requires GlobalScope in c && ApplyMoves(cfg, c, scopes, moves).Ok?
    ensures GlobalScope in ApplyMoves(cfg, c, scopes, moves).value
    decreases |moves|
  {
    if moves != [] {
      MovesKeepRows(cfg, ApplyMove(cfg, c, scopes, moves[0]).value, scopes, moves[1..]);
    }
  }
}
