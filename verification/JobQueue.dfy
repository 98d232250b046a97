// The job tables and the requests on them, run the way the services run them:
// rows loaded, changed in place and written back, capacity rows changed scope by
// scope, and everything put back when a request raises.

module JobQueue {
  import opened Outcomes
  import opened JobRegistry
  import opened JobStatusMachine
  import opened JobRows
  import opened JobRowProofs
  import opened JobRowClass
  import opened Capacity
  import opened CapacityLedger
  import opened JobProtocol
  import opened JobInvariants
  import opened JobClaims
  import opened Reconciliation

  // The columns written at submission are the same.
  ghost predicate SameSpecs(s: State, s': State) {
    s'.jobs.Keys == s.jobs.Keys && forall id :: id in s.jobs ==> s'.jobs[id].spec == s.jobs[id].spec
  }

  // Which jobs of a window may run depends on those columns only.
  lemma {:induction false} SameEligible(cfg: Settings, s: State, s': State, q: ClaimRequest, window: seq<nat>, env: Env)
    requires SameSpecs(s, s')
    ensures Eligible(cfg, s', q.worker, q.types, window, env) == Eligible(cfg, s, q.worker, q.types, window, env)
  {
    if window != [] {
      SameEligible(cfg, s, s', q, window[1..], env);
    }
  }

  lemma RowKeepsSpec(cfg: Settings, r: Record, op: RowOp, now: int)
    requires ApplyRow(cfg, r, op, now).Ok?
    ensures ApplyRow(cfg, r, op, now).value.record.spec == r.spec
  {
    if op.CancelLeased? || op.Bury? {
      FinalizeTouchesCostOnly(cfg, r, op.session);
    }
  }

  lemma PassOneKeepsSpecs(cfg: Settings, s: State, pass: Pass, id: nat, env: Env)
    requires PassOne(cfg, s, pass, id, env).Ok?
    ensures SameSpecs(s, PassOne(cfg, s, pass, id, env).value)
  {
    if id in s.jobs && Decide(cfg, pass, id, s.jobs[id], env).Some? {
      RowKeepsSpec(cfg, s.jobs[id], Decide(cfg, pass, id, s.jobs[id], env).value, env.now);
    }
  }

  function MayRunAll(cfg: Settings, s: State, q: ClaimRequest, window: seq<nat>, env: Env): (flags: seq<bool>)
    ensures |flags| == |window| && forall i :: 0 <= i < |flags| ==> flags[i] == MayRun(cfg, s, q, window[i], env)
  {
    seq(|window|, i requires 0 <= i < |window| => MayRun(cfg, s, q, window[i], env))
  }

  function Flagged(window: seq<nat>, flags: seq<bool>): seq<nat>
    requires |flags| == |window|
  {
    if window == [] then [] else (if flags[0] then [window[0]] else []) + Flagged(window[1..], flags[1..])
  }

  lemma FlaggedStep(eligible: seq<nat>, window: seq<nat>, flags: seq<bool>, i: nat)
    requires |flags| == |window| && i < |window|
    ensures eligible + Flagged(window[i..], flags[i..]) ==
            (if flags[i] then eligible + [window[i]] else eligible) + Flagged(window[i + 1..], flags[i + 1..])
  {
    assert window[i..][1..] == window[i + 1..] && flags[i..][1..] == flags[i + 1..];
  }

  lemma {:induction false} FlaggedAreEligible(cfg: Settings, s: State, q: ClaimRequest, window: seq<nat>, flags: seq<bool>, env: Env)
    requires |flags| == |window| && forall i :: 0 <= i < |flags| ==> flags[i] == MayRun(cfg, s, q, window[i], env)
    ensures Flagged(window, flags) == Eligible(cfg, s, q.worker, q.types, window, env)
  {
    if window != [] {
      FlaggedAreEligible(cfg, s, q, window[1..], flags[1..], env);
    }
  }

  lemma ScannedAreEligible(cfg: Settings, s: State, s': State, q: ClaimRequest, flags: seq<bool>, env: Env)
    requires SameSpecs(s, s') && flags == MayRunAll(cfg, s, q, q.window, env)
    ensures Flagged(q.window, flags) == Eligible(cfg, s', q.worker, q.types, q.window, env)
  {
    SameEligible(cfg, s, s', q, q.window, env);
    FlaggedAreEligible(cfg, s, q, q.window, flags, env);
  }

  class Queue {
    var jobs: map<nat, Record>
    var quotas: map<QuotaKey, Quota>
    var tickets: map<nat, Ticket>
    const ledger: Ledger

    constructor ()
      ensures fresh(ledger) && Snapshot() == EMPTY
    {
      jobs, quotas, tickets := map[], map[], map[];
      ledger := new Ledger();
    }

    function Snapshot(): State
      reads this, ledger
    {
      State(jobs, ledger.rows, quotas, tickets)
    }

    // db.rollback()
    method Restore(saved: State)
      modifies this, ledger
      ensures Snapshot() == saved
    {
      jobs, quotas, tickets := saved.jobs, saved.quotas, saved.tickets;
      ledger.rows := saved.counters;
    }

    // What a step of a request leaves, or the code of the exception it raises.
    ghost predicate Ran(done: Result<State>, code: Option<nat>)
      reads this, ledger
    {
      match done
      case Ok(s) => code.None? && Snapshot() == s
      case Raised(n) => code == Some(n)
    }

    // One change to one job and the rows beside it.
    method Change(cfg: Settings, id: nat, op: RowOp, now: int) returns (code: Option<nat>)
      requires id in jobs
      modifies this, ledger
      ensures Ran(ApplyOp(cfg, old(Snapshot()), id, op, now), code)
    {
      var row := new JobRow(jobs[id]);
      var asked := row.Perform(cfg, op, now);
      if asked.Raised? {
        return Some(asked.code);
      }
      var scopes := Scopes(jobs[id].spec);
      ScopesAreDistinct(jobs[id].spec);
      code := ledger.Move(cfg, scopes, asked.value.0);
      if code.Some? {
        return;
      }
      ledger.GiveBackCost(asked.value.1, Day(now));
      jobs := jobs[id := row.Value()];
    }

    // The loops of recover_expired_jobs, recover_durable_jobs,
    // revoke_jobs_for_authorization_change and _dispose_jobs.
    method Sweep(cfg: Settings, pass: Pass, order: seq<nat>, env: Env) returns (code: Option<nat>)
      modifies this, ledger
      ensures Ran(RunPass(cfg, old(Snapshot()), pass, order, env), code)
    {
      for i := 0 to |order|
        invariant RunPass(cfg, old(Snapshot()), pass, order, env) == RunPass(cfg, Snapshot(), pass, order[i..], env)
      {
        var id := order[i];
        assert order[i..][1..] == order[i + 1..];
        if id in jobs {
          var op := Decide(cfg, pass, id, jobs[id], env);
          if op.Some? {
            code := Change(cfg, id, op.value, env.now);
            if code.Some? {
              return;
            }
          }
        }
      }
      code := None;
    }

    method SweepOrRollBack(cfg: Settings, pass: Pass, order: seq<nat>, env: Env) returns (reply: Reply)
      modifies this, ledger
      ensures Outcome(Snapshot(), reply) == WholePass(cfg, old(Snapshot()), pass, order, env)
    {
      var saved := Snapshot();
      var code := Sweep(cfg, pass, order, env);
      if code.Some? {
        Restore(saved);
        return Refused(code.value);
      }
      reply := Done;
    }

    // One change, as a whole request.
    method ChangeOrRollBack(cfg: Settings, id: nat, op: RowOp, now: int) returns (code: Option<nat>)
      requires id in jobs
      modifies this, ledger
      ensures match ApplyOp(cfg, old(Snapshot()), id, op, now)
              case Ok(s) => code.None? && Snapshot() == s
              case Raised(n) => code == Some(n) && Snapshot() == old(Snapshot())
    {
      var saved := Snapshot();
      code := Change(cfg, id, op, now);
      if code.Some? {
        Restore(saved);
      }
    }

    // Every request a worker makes on its lease.
    method Serve(cfg: Settings, q: LeaseRequest, call: Call, env: Env) returns (reply: Reply)
      modifies this, ledger
      ensures Outcome(Snapshot(), reply) == WorkerCall(cfg, old(Snapshot()), q, call, env)
    {
      match ValidateLease(Snapshot(), q, env)
      case Denied(code) => return Refused(code);
      case AuthorizationLost =>
        reply := Refused(409);
        if jobs[q.job].status in {Leased, Running} {
          var code := ChangeOrRollBack(cfg, q.job, RequestCancel, env.now);
          reply := Refused(if code.Some? then code.value else 409);
        }
      case Granted =>
        var op := OpForCall(cfg, jobs[q.job], q.job, call, env);
        if op.Raised? {
          return Refused(op.code);
        }
        var code := ChangeOrRollBack(cfg, q.job, op.value, env.now);
        reply := if code.Some? then Refused(code.value) else Done;
    }

    // cancel_job
    method Cancel(cfg: Settings, id: nat, allowed: bool, env: Env) returns (reply: Reply)
      modifies this, ledger
      ensures Outcome(Snapshot(), reply) == CancelJob(cfg, old(Snapshot()), id, allowed, env)
    {
      if id !in jobs || jobs[id].deletedAt.Some? || !allowed {
        return Refused(404);
      }
      var r := jobs[id];
      if Terminal(r.status) || (r.status == CancelRequested && r.leasedBy.Some?) {
        return Done;
      }
      var code := ChangeOrRollBack(cfg, id, if r.leasedBy.None? then CancelPending else RequestCancel, env.now);
      reply := if code.Some? then Refused(code.value) else Done;
    }

    // _reserve_quota
    method Charge(charge: Option<(QuotaKey, nat)>) returns (code: Option<nat>)
      modifies this`quotas
      ensures match ChargeQuota(old(quotas), charge)
              case Ok(rows) => code.None? && quotas == rows
              case Raised(n) => code == Some(n) && quotas == old(quotas)
    {
      if charge.None? {
        return None;
      }
      var (key, limit) := charge.value;
      var row := if key in quotas then quotas[key] else Quota(0, limit);
      if key.action == WatchlistQuota {
        row := row.(limit := limit);
      }
      if row.used >= row.limit {
        return Some(429);
      }
      quotas := quotas[key := row.(used := row.used + 1)];
      code := None;
    }

    // _create_reserved_job
    method CreateReserved(cfg: Settings, id: nat, q: Submission, now: int) returns (code: Option<nat>)
      modifies this, ledger
      ensures Ran(CreateJob(cfg, old(Snapshot()), id, q, now), code)
    {
      if q.disabled.Some? {
        return q.disabled;
      }
      var spec := SpecOf(cfg, q, None, now);
      ScopesAreDistinct(spec);
      code := ledger.Reserve(cfg, Scopes(spec));
      if code.Some? {
        return;
      }
      code := ledger.ReserveDailyCost(cfg, Day(now), EstimatedCost(cfg, q.jobType));
      if code.Some? {
        return;
      }
      var charge := QuotaFor(cfg, q, Day(now));
      if charge.Raised? {
        return Some(charge.code);
      }
      code := Charge(charge.value);
      if code.Some? {
        return;
      }
      jobs := jobs[id := NewRecord(SpecOf(cfg, q, charge.value, now))];
    }

    // submit_job, where the idempotency key is unique.
    method Submit(cfg: Settings, id: nat, q: Submission, now: int) returns (reply: Reply)
      requires KeysUnique(Snapshot())
      modifies this, ledger
      ensures Outcome(Snapshot(), reply) == JobProtocol.Submit(cfg, old(Snapshot()), id, q, now)
    {
      if q.refusal.Some? {
        return Refused(q.refusal.value);
      }
      if existing :| existing in jobs && jobs[existing].spec.idempotency == KeyOf(q) {
        return if jobs[existing].spec.fingerprint != q.fingerprint then Refused(409) else Existing(existing);
      }
      var saved := Snapshot();
      var code := CreateReserved(cfg, id, q, now);
      if code.Some? {
        Restore(saved);
        return Refused(code.value);
      }
      reply := Created(id);
    }

    // One candidate of the scan window: failed when it may no longer run.
    method ScanOne(cfg: Settings, q: ClaimRequest, id: nat, env: Env) returns (code: Option<nat>, keep: bool)
      modifies this, ledger
      ensures Ran(PassOne(cfg, old(Snapshot()), ScanWindow(q.worker, q.types), id, env), code)
      ensures keep == MayRun(cfg, old(Snapshot()), q, id, env)
    {
      code, keep := None, false;
      if id !in jobs || !CanExecute(cfg, q.worker, q.types, jobs[id]) {
        return;
      }
      if id in env.unsupported || id in env.revoked {
        code := Change(cfg, id, FailPending(false), env.now);
        return;
      }
      keep := true;
    }

    // The loop of claim_next_job over the scan window.
    method Scan(cfg: Settings, q: ClaimRequest, env: Env) returns (code: Option<nat>, eligible: seq<nat>)
      modifies this, ledger
      ensures var scanned := RunPass(cfg, old(Snapshot()), ScanWindow(q.worker, q.types), q.window, env);
              Ran(scanned, code) && (scanned.Ok? ==> eligible == Eligible(cfg, scanned.value, q.worker, q.types, q.window, env))
    {
      eligible := [];
      ghost var start, pass := Snapshot(), ScanWindow(q.worker, q.types);
      ghost var flags := MayRunAll(cfg, start, q, q.window, env);
      for i := 0 to |q.window|
        invariant SameSpecs(start, Snapshot())
        invariant RunPass(cfg, start, pass, q.window, env) == RunPass(cfg, Snapshot(), pass, q.window[i..], env)
        invariant Flagged(q.window, flags) == eligible + Flagged(q.window[i..], flags[i..])
      {
        assert q.window[i..][1..] == q.window[i + 1..];
        FlaggedStep(eligible, q.window, flags, i);
        ghost var before := Snapshot();
        var keep;
        code, keep := ScanOne(cfg, q, q.window[i], env);
        if code.Some? {
          return;
        }
        PassOneKeepsSpecs(cfg, before, pass, q.window[i], env);
        if keep {
          eligible := eligible + [q.window[i]];
        }
      }
      ScannedAreEligible(cfg, start, Snapshot(), q, flags, env);
      code := None;
    }

    // The lease written to a picked job, its capacity taken.
    method WriteLease(cfg: Settings, id: nat, worker: string, token: nat, now: int) returns (code: Option<nat>)
      requires id in jobs
      modifies this`jobs, this`tickets
      ensures match LeaseRow(cfg, old(jobs[id]), worker, token, now)
              case Ok(e) => code.None? && jobs == old(jobs)[id := e.record]
                            && tickets == old(tickets)[token := Ticket(id, old(jobs[id]).leaseGeneration + 1)]
              case Raised(n) => code == Some(n)
    {
      var row := new JobRow(jobs[id]);
      var asked := row.TakeLease(cfg, worker, token, now);
      if asked.Raised? {
        return Some(asked.code);
      }
      tickets := tickets[token := Ticket(id, jobs[id].leaseGeneration + 1)];
      jobs := jobs[id := row.Value()];
      code := None;
    }

    // The last part of claim_next_job. A refused capacity move is committed as it
    // stands; the caught exception is not an error of the claim.
    method LeasePicked(cfg: Settings, id: nat, q: ClaimRequest, env: Env) returns (code: Option<nat>, reply: Reply)
      requires id in jobs
      modifies this, ledger
      ensures match ClaimPicked(cfg, old(Snapshot()), id, q, env)
              case Ok(outcome) => code.None? && Outcome(Snapshot(), reply) == outcome
              case Raised(n) => code == Some(n)
    {
      var r := jobs[id];
      ghost var before := Snapshot();
      ScopesAreDistinct(r.spec);
      var refused := ledger.TakeRunning(cfg, Scopes(r.spec));
      if refused.Some? {
        PickedRefused(cfg, before, id, q, env);
        return None, NothingToClaim;
      }
      if LeaseDeadline(cfg, r, env.now, Some(AttemptHorizon(cfg, r, env.now))) <= env.now {
        PickedExpired(cfg, before, id, q, env);
        code := Change(cfg, id, FailPending(false), env.now);
        return code, NothingToClaim;
      }
      PickedLive(cfg, before, id, q, env);
      code := WriteLease(cfg, id, q.worker, q.token, env.now);
      reply := Claimed(id, r.leaseGeneration + 1, q.token);
    }

    // claim_next_job
    method ClaimNext(cfg: Settings, q: ClaimRequest, env: Env) returns (reply: Reply)
      modifies this, ledger
      ensures Outcome(Snapshot(), reply) == Claim(cfg, old(Snapshot()), q, env)
    {
      if q.worker !in cfg.workers {
        return Refused(401);
      }
      var saved := Snapshot();
      var code := Sweep(cfg, RecoverExpired, q.expired, env);
      if code.Some? {
        Restore(saved);
        return Refused(code.value);
      }
      code, reply := ScanThenLease(cfg, q, env);
      if code.Some? {
        Restore(saved);
        reply := Refused(code.value);
      }
    }

    method ScanThenLease(cfg: Settings, q: ClaimRequest, env: Env) returns (code: Option<nat>, reply: Reply)
      requires q.worker in cfg.workers
      modifies this, ledger
      ensures match ScanAndPick(cfg, old(Snapshot()), q, env)
              case Ok(outcome) => code.None? && Outcome(Snapshot(), reply) == outcome
              case Raised(n) => code == Some(n)
    {
      reply := NothingToClaim;
      if |WorkerJobs(jobs, q.worker)| >= cfg.workers[q.worker].maxConcurrency {
        return None, NothingToClaim;
      }
      var eligible;
      code, eligible := Scan(cfg, q, env);
      if code.Some? || eligible == [] {
        return;
      }
      code, reply := LeasePicked(cfg, Pick(Snapshot(), eligible), q, env);
    }

    // _reconcile_capacity
    method ReconcileCapacity(now: int) returns (adjusted: nat)
      modifies this, ledger
      ensures Snapshot() == Reconcile(old(Snapshot()), now)
      ensures adjusted == Adjusted(old(Snapshot()), now)
    {
      ghost var start := Snapshot();
      var desired := Recount(jobs);
      jobs := RebuildMissing(jobs, now);
      var spend := SumSpend(jobs, Day(now));
      var needed := {GlobalScope} + desired.Keys;
      var full := CreateMissing(ledger.rows, needed, now);
      var rows;
      rows, adjusted := AdjustRows(full, desired, spend, now);
      ledger.rows := rows;
      AdjustedRows(start, desired, spend, full, now);
    }

    // recover_durable_jobs
    method RecoverJobs(cfg: Settings, expired: seq<nat>, active: seq<nat>, dryRun: bool, env: Env) returns (reply: Reply)
      modifies this, ledger
      ensures Outcome(Snapshot(), reply) == RecoverDurable(cfg, old(Snapshot()), expired, active, dryRun, env)
    {
      var saved := Snapshot();
      var code := Sweep(cfg, RecoverExpired, expired, env);
      if code.None? {
        code := Sweep(cfg, RevalidateAuthorization, active, env);
      }
      if code.Some? {
        Restore(saved);
        return Refused(code.value);
      }
      var _ := ReconcileCapacity(env.now);
      if dryRun {
        Restore(saved);
      }
      reply := Done;
    }
  }

  lemma RebuildKeepsSlots(jobs: map<nat, Record>, now: int, k: Scope)
    ensures PendingIds(RebuildCosts(jobs, now), k) == PendingIds(jobs, k)
    ensures RunningIds(RebuildCosts(jobs, now), k) == RunningIds(jobs, k)
  {
  }

  lemma RebuildKeepsUsed(jobs: map<nat, Record>, now: int)
    ensures UsedScopes(RebuildCosts(jobs, now)) == {GlobalScope} + UsedByAll(jobs)
  {
    var rebuilt := RebuildCosts(jobs, now);
    forall k
      ensures k in UsedScopes(rebuilt) <==> k in {GlobalScope} + UsedByAll(jobs)
    {
      if id :| id in jobs && k in UsedBy(jobs[id]) {
        assert Active(rebuilt[id]) && k in Scopes(rebuilt[id].spec);
      }
      if id :| id in rebuilt && Active(rebuilt[id]) && k in Scopes(rebuilt[id].spec) {
        assert k in UsedBy(jobs[id]);
      }
    }
  }

  // One row, as the loops leave it and as the reconciliation does.
  lemma AdjustedRow(s: State, desired: Desired, spend: nat, k: Scope, found: Counter, now: int)
    requires Counts(desired, s.jobs) && spend == Spend(RebuildCosts(s.jobs, now), Day(now))
    requires found == FoundRow(s.counters, k, now)
    ensures Adjust(k, found, TallyOf(desired, k), spend, now) == Recounted(RebuildCosts(s.jobs, now), k, Get(s.counters, k), now)
    ensures Differs(k, found, TallyOf(desired, k), spend, now) <==> NeedsAdjusting(RebuildCosts(s.jobs, now), k, found, now)
  {
    RebuildKeepsSlots(s.jobs, now, k);
  }

  lemma OpenedKeys(s: State, desired: Desired, now: int)
    requires Counts(desired, s.jobs)
    ensures Opened(s.counters, {GlobalScope} + desired.Keys, now).Keys == s.counters.Keys + UsedScopes(RebuildCosts(s.jobs, now))
  {
    RebuildKeepsUsed(s.jobs, now);
  }

  lemma AdjustedMap(s: State, desired: Desired, spend: nat, full: Counters, now: int)
    requires Counts(desired, s.jobs) && spend == Spend(RebuildCosts(s.jobs, now), Day(now))
    requires full.Keys == s.counters.Keys + UsedScopes(RebuildCosts(s.jobs, now))
    requires forall k :: k in full ==> full[k] == FoundRow(s.counters, k, now)
    ensures AdjustedIn(full, full.Keys, desired, spend, now) == Reconcile(s, now).counters
  {
    var jobs := RebuildCosts(s.jobs, now);
    forall k | k in full
      ensures Adjust(k, full[k], TallyOf(desired, k), spend, now) == Recounted(jobs, k, Get(s.counters, k), now)
    {
      AdjustedRow(s, desired, spend, k, full[k], now);
    }
  }

  // The loops together are the reconciliation.
  lemma AdjustedRows(s: State, desired: Desired, spend: nat, full: Counters, now: int)
    requires Counts(desired, s.jobs) && spend == Spend(RebuildCosts(s.jobs, now), Day(now))
    requires full == Opened(s.counters, {GlobalScope} + desired.Keys, now)
    ensures AdjustedIn(full, full.Keys, desired, spend, now) == Reconcile(s, now).counters
    ensures |Differing(full, full.Keys, desired, spend, now)| == Adjusted(s, now)
  {
    OpenedKeys(s, desired, now);
    AdjustedMap(s, desired, spend, full, now);
    AdjustedCount(s, desired, spend, full, now);
  }

  lemma AdjustedCount(s: State, desired: Desired, spend: nat, full: Counters, now: int)
    requires Counts(desired, s.jobs) && spend == Spend(RebuildCosts(s.jobs, now), Day(now))
    requires full.Keys == s.counters.Keys + UsedScopes(RebuildCosts(s.jobs, now))
    requires forall k :: k in full ==> full[k] == FoundRow(s.counters, k, now)
    ensures |Differing(full, full.Keys, desired, spend, now)| == Adjusted(s, now)
  {
    var jobs := RebuildCosts(s.jobs, now);
    var off := Differing(full, full.Keys, desired, spend, now);
    var due := set k | k in s.counters.Keys + UsedScopes(jobs) && NeedsAdjusting(jobs, k, FoundRow(s.counters, k, now), now);
    forall k
      ensures k in off <==> k in due
    {
      if k in full {
        AdjustedRow(s, desired, spend, k, full[k], now);
      }
    }
    assert off == due;
  }
}
