// What every step of every run keeps.

module JobInvariants {
  import opened Outcomes
  import opened JobRegistry
  import opened JobStatusMachine
  import opened JobRows
  import opened JobRowProofs
  import opened Capacity
  import opened JobProtocol

  // ---- the invariant ----

  ghost predicate AllSound(s: State) {
    forall id :: id in s.jobs ==> Sound(s.jobs[id])
  }

  // A held lease carries the token issued for its job and generation.
  ghost predicate TokensMatch(s: State) {
    forall id :: id in s.jobs && s.jobs[id].tokenHash.Some? ==>
      var token := s.jobs[id].tokenHash.value.token;
      token in s.tickets && s.tickets[token] == Ticket(id, s.jobs[id].leaseGeneration)
  }

  ghost predicate KeysUnique(s: State) {
    forall a, b :: a in s.jobs && b in s.jobs && s.jobs[a].spec.idempotency == s.jobs[b].spec.idempotency ==> a == b
  }

  ghost predicate WorkersBounded(cfg: Settings, s: State) {
    && (forall id :: id in s.jobs && s.jobs[id].leasedBy.Some? ==> s.jobs[id].leasedBy.value in cfg.workers)
    && (forall w :: w in cfg.workers ==> |WorkerJobs(s.jobs, w)| <= cfg.workers[w].maxConcurrency)
  }

  function ChargedTo(jobs: map<nat, Record>, key: QuotaKey): set<nat> {
    set id | id in jobs && jobs[id].spec.charged == Some(key)
  }

  // Each job charged to a quota row used one unit of it, and no row is overdrawn.
  ghost predicate QuotasKept(s: State) {
    && (forall id :: id in s.jobs && s.jobs[id].spec.charged.Some? ==> s.jobs[id].spec.charged.value in s.quotas)
    && (forall key :: key in s.quotas ==> |ChargedTo(s.jobs, key)| <= s.quotas[key].used <= s.quotas[key].limit)
    && (forall key :: key in s.quotas && key.action == WatchlistQuota ==> s.quotas[key].limit == WATCHLIST_EVALUATIONS_PER_DAY)
  }

  ghost predicate Core(cfg: Settings, s: State) {
    AllSound(s) && TokensMatch(s) && KeysUnique(s) && WorkersBounded(cfg, s) && QuotasKept(s)
  }

  // Nothing a job has been through is ever taken back.
  ghost predicate Onward(s: State, s': State) {
    && (forall id :: id in s.jobs ==> id in s'.jobs && Advances(s.jobs[id], s'.jobs[id]))
    && (forall token :: token in s.tickets ==> token in s'.tickets && s'.tickets[token] == s.tickets[token])
  }

  lemma OnwardTransitively(s0: State, s1: State, s2: State)
    requires Onward(s0, s1) && Onward(s1, s2)
    ensures Onward(s0, s2)
  {
    forall id | id in s0.jobs
      ensures id in s2.jobs && Advances(s0.jobs[id], s2.jobs[id])
    {
      AdvancesTransitively(s0.jobs[id], s1.jobs[id], s2.jobs[id]);
    }
  }

  lemma OnwardReflexively(s: State)
    ensures Onward(s, s)
  {
  }

  // ---- one change to one job ----

  // Only a claim starts a lease; every other change keeps it or ends it.
  lemma OnlyClaimsLease(cfg: Settings, r: Record, op: RowOp, now: int)
    requires !op.Lease?
    requires ApplyRow(cfg, r, op, now).Ok?
    ensures var r' := ApplyRow(cfg, r, op, now).value.record;
            && r'.leaseGeneration == r.leaseGeneration
            && ((r'.leasedBy == r.leasedBy && r'.tokenHash == r.tokenHash) || (r'.leasedBy.None? && r'.tokenHash.None?))
  {
    match op
    case CancelLeased(session, _) => FinalizeTouchesCostOnly(cfg, r, session);
    case Bury(_, session) => FinalizeTouchesCostOnly(cfg, r, session);
    case _ =>
  }

  // The state a change leaves: one row replaced, and only counters beside it.
  ghost predicate Replaces(s: State, s': State, id: nat, r': Record) {
    id in s.jobs && s'.jobs == s.jobs[id := r'] && s'.quotas == s.quotas && s'.tickets == s.tickets
  }

  lemma ApplyReplaces(cfg: Settings, s: State, id: nat, op: RowOp, now: int)
    requires id in s.jobs
    requires ApplyOp(cfg, s, id, op, now).Ok?
    ensures ApplyRow(cfg, s.jobs[id], op, now).Ok?
    ensures Replaces(s, ApplyOp(cfg, s, id, op, now).value, id, ApplyRow(cfg, s.jobs[id], op, now).value.record)
  {
  }

  lemma SameSpecKeepsRecords(s: State, s': State, id: nat, r': Record)
    requires Replaces(s, s', id, r')
    requires r'.spec == s.jobs[id].spec
    ensures KeysUnique(s) ==> KeysUnique(s')
    ensures QuotasKept(s) ==> QuotasKept(s')
  {
    forall key | key in s.quotas
      ensures ChargedTo(s'.jobs, key) == ChargedTo(s.jobs, key)
    {
    }
  }

  lemma EndedLeaseKeepsWorkers(cfg: Settings, s: State, s': State, id: nat, r': Record)
    requires Replaces(s, s', id, r')
    requires WorkersBounded(cfg, s)
    requires r'.leasedBy == s.jobs[id].leasedBy || r'.leasedBy.None?
    requires AllSound(s) && Sound(r')
    ensures WorkersBounded(cfg, s')
  {
    forall w | w in cfg.workers
      ensures |WorkerJobs(s'.jobs, w)| <= cfg.workers[w].maxConcurrency
    {
      assert WorkerJobs(s'.jobs, w) <= WorkerJobs(s.jobs, w);
      SubsetSize(WorkerJobs(s'.jobs, w), WorkerJobs(s.jobs, w));
    }
  }

  lemma SubsetSize<T>(a: set<T>, b: set<T>)
    requires a <= b
    ensures |a| <= |b|
  {
    assert b == a + (b - a);
  }

  lemma ReplaceKeepsSound(s: State, s': State, id: nat, r': Record)
    requires Replaces(s, s', id, r') && AllSound(s) && Sound(r')
    ensures AllSound(s')
  {
  }

  lemma ReplaceIsOnward(s: State, s': State, id: nat, r': Record)
    requires id in s.jobs && s'.jobs == s.jobs[id := r'] && Advances(s.jobs[id], r')
    requires forall token :: token in s.tickets ==> token in s'.tickets && s'.tickets[token] == s.tickets[token]
    ensures Onward(s, s')
  {
    forall i | i in s.jobs
      ensures i in s'.jobs && Advances(s.jobs[i], s'.jobs[i])
    {
    }
  }

  ghost predicate KeepsOrEnds(r: Record, r': Record) {
    && r'.spec == r.spec
    && r'.leaseGeneration == r.leaseGeneration
    && ((r'.leasedBy == r.leasedBy && r'.tokenHash == r.tokenHash) || (r'.leasedBy.None? && r'.tokenHash.None?))
  }

  lemma ReplaceKeepsTokens(s: State, s': State, id: nat, r': Record)
    requires Replaces(s, s', id, r') && TokensMatch(s) && KeepsOrEnds(s.jobs[id], r')
    ensures TokensMatch(s')
  {
  }

  // A change that is not a claim.
  lemma OpKeepsCore(cfg: Settings, s: State, id: nat, op: RowOp, now: int)
    requires Core(cfg, s)
    requires id in s.jobs && Fits(s.jobs[id], op) && !op.Lease?
    requires ApplyOp(cfg, s, id, op, now).Ok?
    ensures Core(cfg, ApplyOp(cfg, s, id, op, now).value)
    ensures Onward(s, ApplyOp(cfg, s, id, op, now).value)
  {
    var s' := ApplyOp(cfg, s, id, op, now).value;
    ApplyReplaces(cfg, s, id, op, now);
    var r' := s'.jobs[id];
    assert Sound(r') && Advances(s.jobs[id], r') && KeepsOrEnds(s.jobs[id], r') by {
      ApplyKeepsSound(cfg, s.jobs[id], op, now);
      ApplyAdvances(cfg, s.jobs[id], op, now);
      OnlyClaimsLease(cfg, s.jobs[id], op, now);
    }
    ReplaceKeepsSound(s, s', id, r');
    ReplaceIsOnward(s, s', id, r');
    ReplaceKeepsTokens(s, s', id, r');
    SameSpecKeepsRecords(s, s', id, r');
    EndedLeaseKeepsWorkers(cfg, s, s', id, r');
  }

  lemma NewLeaseKeepsWorkers(cfg: Settings, s: State, s': State, id: nat, r': Record, worker: string)
    requires Replaces(s, s', id, r') && r'.leasedBy == Some(worker)
    requires WorkersBounded(cfg, s)
    requires worker in cfg.workers && |WorkerJobs(s.jobs, worker)| < cfg.workers[worker].maxConcurrency
    ensures WorkersBounded(cfg, s')
  {
    forall w | w in cfg.workers
      ensures |WorkerJobs(s'.jobs, w)| <= cfg.workers[w].maxConcurrency
    {
      var grown := WorkerJobs(s.jobs, w) + if w == worker then {id} else {};
      assert WorkerJobs(s'.jobs, w) <= grown;
      SubsetSize(WorkerJobs(s'.jobs, w), grown);
    }
  }

  function Ticketed(s: State, token: nat, id: nat, generation: nat): State {
    s.(tickets := s.tickets[token := Ticket(id, generation)])
  }

  lemma NewLeaseKeepsTokens(s: State, s': State, id: nat, r': Record, token: nat)
    requires Replaces(s, s', id, r') && TokensMatch(s) && token !in s.tickets
    requires r'.tokenHash == Some(HashOf(token))
    ensures TokensMatch(Ticketed(s', token, id, r'.leaseGeneration))
  {
  }

  // The row a claim writes.
  ghost predicate LeasedTo(r: Record, r': Record, worker: string, token: nat) {
    && Sound(r') && Advances(r, r') && r'.spec == r.spec
    && r'.leasedBy == Some(worker) && r'.tokenHash == Some(HashOf(token))
    && r'.leaseGeneration == r.leaseGeneration + 1
  }

  lemma LeaseWrites(cfg: Settings, r: Record, worker: string, token: nat, now: int)
    requires Sound(r)
    requires ApplyRow(cfg, r, Lease(worker, token), now).Ok?
    ensures LeasedTo(r, ApplyRow(cfg, r, Lease(worker, token), now).value.record, worker, token)
  {
    LeaseKeepsSound(cfg, r, worker, token, now);
    LeaseAdvances(cfg, r, worker, token, now);
  }

  lemma NewLeaseKeepsCore(cfg: Settings, s: State, leased: State, id: nat, r': Record, worker: string, token: nat)
    requires Core(cfg, s) && Replaces(s, leased, id, r') && LeasedTo(s.jobs[id], r', worker, token)
    requires token !in s.tickets
    requires worker in cfg.workers && |WorkerJobs(s.jobs, worker)| < cfg.workers[worker].maxConcurrency
    ensures Core(cfg, Ticketed(leased, token, id, r'.leaseGeneration))
  {
    var s' := Ticketed(leased, token, id, r'.leaseGeneration);
    assert AllSound(s') by { ReplaceKeepsSound(s, leased, id, r'); }
    assert KeysUnique(s') && QuotasKept(s') by { SameSpecKeepsRecords(s, leased, id, r'); }
    assert WorkersBounded(cfg, s') by { NewLeaseKeepsWorkers(cfg, s, leased, id, r', worker); }
    assert TokensMatch(s') by { NewLeaseKeepsTokens(s, leased, id, r', token); }
  }

  // A claim, by a worker below its concurrency limit and with a fresh token.
  lemma LeaseKeepsCore(cfg: Settings, s: State, id: nat, worker: string, token: nat, now: int)
    requires Core(cfg, s)
    requires id in s.jobs && token !in s.tickets
    requires worker in cfg.workers && |WorkerJobs(s.jobs, worker)| < cfg.workers[worker].maxConcurrency
    requires ApplyOp(cfg, s, id, Lease(worker, token), now).Ok?
    ensures Kept(cfg, s, Ticketed(ApplyOp(cfg, s, id, Lease(worker, token), now).value, token, id, s.jobs[id].leaseGeneration + 1))
  {
    var r' := LeaseReplaces(cfg, s, id, worker, token, now);
    NewLeaseIsKept(cfg, s, ApplyOp(cfg, s, id, Lease(worker, token), now).value, id, r', worker, token);
  }

  lemma NewLeaseIsKept(cfg: Settings, s: State, leased: State, id: nat, r': Record, worker: string, token: nat)
    requires Core(cfg, s) && Replaces(s, leased, id, r') && LeasedTo(s.jobs[id], r', worker, token)
    requires token !in s.tickets
    requires worker in cfg.workers && |WorkerJobs(s.jobs, worker)| < cfg.workers[worker].maxConcurrency
    ensures Kept(cfg, s, Ticketed(leased, token, id, r'.leaseGeneration))
  {
    NewLeaseKeepsCore(cfg, s, leased, id, r', worker, token);
    ReplaceIsOnward(s, Ticketed(leased, token, id, r'.leaseGeneration), id, r');
  }

  lemma LeaseReplaces(cfg: Settings, s: State, id: nat, worker: string, token: nat, now: int) returns (r': Record)
    requires AllSound(s) && id in s.jobs
    requires ApplyOp(cfg, s, id, Lease(worker, token), now).Ok?
    ensures Replaces(s, ApplyOp(cfg, s, id, Lease(worker, token), now).value, id, r')
    ensures LeasedTo(s.jobs[id], r', worker, token)
  {
    ApplyReplaces(cfg, s, id, Lease(worker, token), now);
    LeaseWrites(cfg, s.jobs[id], worker, token, now);
    r' := ApplyRow(cfg, s.jobs[id], Lease(worker, token), now).value.record;
  }

  // ---- passes ----

  // The one change that gives an attempt up without counting it.
  predicate IsRelease(op: RowOp) {
    op.Requeue? && op.outcome == AttemptReleased
  }

  // Whatever a pass decides, the job is in a state the change was made for.
  lemma DecisionFits(cfg: Settings, pass: Pass, id: nat, r: Record, env: Env)
    requires Sound(r)
    requires pass.ScanWindow? ==> r.status !in {Leased, Running}
    requires Decide(cfg, pass, id, r, env).Some?
    ensures Fits(r, Decide(cfg, pass, id, r, env).value) && !Decide(cfg, pass, id, r, env).value.Lease?
    ensures !IsRelease(Decide(cfg, pass, id, r, env).value)
  {
    CurrentAttempt(r);
  }

  // The jobs a scan may still fail are held by nobody.
  ghost predicate Scannable(s: State, pass: Pass, ids: set<nat>) {
    pass.ScanWindow? ==> forall id :: id in ids && id in s.jobs ==> s.jobs[id].status !in {Leased, Running}
  }

  lemma PassOneKeepsCore(cfg: Settings, s: State, pass: Pass, id: nat, env: Env)
    requires Core(cfg, s)
    requires Scannable(s, pass, {id})
    requires PassOne(cfg, s, pass, id, env).Ok?
    ensures Core(cfg, PassOne(cfg, s, pass, id, env).value)
    ensures Onward(s, PassOne(cfg, s, pass, id, env).value)
  {
    OnwardReflexively(s);
    if id in s.jobs && Decide(cfg, pass, id, s.jobs[id], env).Some? {
      assert id in {id};
      DecisionFits(cfg, pass, id, s.jobs[id], env);
      OpKeepsCore(cfg, s, id, Decide(cfg, pass, id, s.jobs[id], env).value, env.now);
    }
  }

  lemma PassOneKeepsScannable(cfg: Settings, s: State, pass: Pass, id: nat, ids: set<nat>, env: Env)
    requires Scannable(s, pass, ids)
    requires PassOne(cfg, s, pass, id, env).Ok?
    ensures Scannable(PassOne(cfg, s, pass, id, env).value, pass, ids)
  {
  }

  lemma {:induction false} PassKeepsCore(cfg: Settings, s: State, pass: Pass, order: seq<nat>, ids: set<nat>, env: Env)
    requires Core(cfg, s)
    requires Scannable(s, pass, ids) && forall i :: 0 <= i < |order| ==> order[i] in ids
    requires RunPass(cfg, s, pass, order, env).Ok?
    ensures Core(cfg, RunPass(cfg, s, pass, order, env).value)
    ensures Onward(s, RunPass(cfg, s, pass, order, env).value)
    ensures Scannable(RunPass(cfg, s, pass, order, env).value, pass, ids)
    decreases |order|
  {
    if order == [] {
      OnwardReflexively(s);
    } else {
      var s' := PassOne(cfg, s, pass, order[0], env).value;
      assert Core(cfg, s') && Onward(s, s') && Scannable(s', pass, ids) by {
        assert Scannable(s, pass, {order[0]});
        PassOneKeepsCore(cfg, s, pass, order[0], env);
        PassOneKeepsScannable(cfg, s, pass, order[0], ids, env);
      }
      PassKeepsCore(cfg, s', pass, order[1..], ids, env);
      OnwardTransitively(s, s', RunPass(cfg, s', pass, order[1..], env).value);
    }
  }

  // ---- every step ----

  lemma NewCharge(jobs: map<nat, Record>, id: nat, r: Record, key: QuotaKey)
    requires id !in jobs
    ensures |ChargedTo(jobs[id := r], key)| == |ChargedTo(jobs, key)| + if r.spec.charged == Some(key) then 1 else 0
  {
    assert ChargedTo(jobs[id := r], key) == ChargedTo(jobs, key) + if r.spec.charged == Some(key) then {id} else {};
  }

  // The quota row a new job is charged to goes up by exactly one unit and stays
  // within its limit; no other row changes.
  ghost predicate ChargesOne(before: map<QuotaKey, Quota>, after: map<QuotaKey, Quota>, charged: Option<QuotaKey>) {
    match charged
    case None => after == before
    case Some(key) =>
      && key in after && after == before[key := after[key]]
      && after[key].used == (if key in before then before[key].used else 0) + 1
      && after[key].used <= after[key].limit
      && (key.action == WatchlistQuota ==> after[key].limit == WATCHLIST_EVALUATIONS_PER_DAY)
  }

  ghost predicate Adds(s: State, s': State, id: nat, key: IdempotencyKey) {
    && s'.tickets == s.tickets
    && id !in s.jobs && id in s'.jobs && s'.jobs == s.jobs[id := s'.jobs[id]]
    && s'.jobs[id].leasedBy.None? && s'.jobs[id].tokenHash.None?
    && s'.jobs[id].spec.idempotency == key
    && ChargesOne(s.quotas, s'.quotas, s'.jobs[id].spec.charged)
  }

  // The rows a creating submission leaves: one job more, and its quota charged.
  lemma CreatedRows(cfg: Settings, s: State, id: nat, q: Submission, now: int) returns (charge: Option<(QuotaKey, nat)>)
    requires CreateJob(cfg, s, id, q, now).Ok?
    ensures QuotaFor(cfg, q, Day(now)) == Ok(charge)
    ensures var s' := CreateJob(cfg, s, id, q, now).value;
            && s'.jobs == s.jobs[id := NewRecord(SpecOf(cfg, q, charge, now))] && s'.tickets == s.tickets
            && ChargeQuota(s.quotas, charge) == Ok(s'.quotas)
  {
    charge := QuotaFor(cfg, q, Day(now)).value;
  }

  lemma ChargeIsOne(cfg: Settings, q: Submission, day: int, quotas: map<QuotaKey, Quota>, charge: Option<(QuotaKey, nat)>)
    requires QuotaFor(cfg, q, day) == Ok(charge) && ChargeQuota(quotas, charge).Ok?
    ensures ChargesOne(quotas, ChargeQuota(quotas, charge).value, if charge.Some? then Some(charge.value.0) else None)
  {
  }

  lemma CreateAdds(cfg: Settings, s: State, id: nat, q: Submission, now: int)
    requires ValidSettings(cfg) && id !in s.jobs
    requires CreateJob(cfg, s, id, q, now).Ok?
    ensures var s' := CreateJob(cfg, s, id, q, now).value;
            Adds(s, s', id, KeyOf(q)) && Sound(s'.jobs[id]) && s'.jobs[id].spec.fingerprint == q.fingerprint
  {
    var charge := CreatedRows(cfg, s, id, q, now);
    ChargeIsOne(cfg, q, Day(now), s.quotas, charge);
    NewIsSound(SpecOf(cfg, q, charge, now));
  }

  lemma ChargeKeepsQuotas(s: State, s': State, id: nat)
    requires QuotasKept(s) && id !in s.jobs
    requires id in s'.jobs && s'.jobs == s.jobs[id := s'.jobs[id]]
    requires ChargesOne(s.quotas, s'.quotas, s'.jobs[id].spec.charged)
    ensures QuotasKept(s')
  {
    forall key | key in s'.quotas
      ensures |ChargedTo(s'.jobs, key)| <= s'.quotas[key].used <= s'.quotas[key].limit
    {
      NewCharge(s.jobs, id, s'.jobs[id], key);
      if key !in s.quotas {
        assert ChargedTo(s.jobs, key) == {};
      }
    }
  }

  lemma AddKeepsCore(cfg: Settings, s: State, s': State, id: nat, key: IdempotencyKey)
    requires Core(cfg, s) && Adds(s, s', id, key) && Sound(s'.jobs[id])
    requires forall i :: i in s.jobs ==> s.jobs[i].spec.idempotency != key
    ensures Core(cfg, s') && Onward(s, s')
  {
    ChargeKeepsQuotas(s, s', id);
    AddIsOnward(s, s', id);
    AddKeepsWorkers(cfg, s, s', id);
    AddKeepsRows(s, s', id, key);
  }

  lemma AddKeepsRows(s: State, s': State, id: nat, key: IdempotencyKey)
    requires AllSound(s) && TokensMatch(s) && KeysUnique(s) && Adds(s, s', id, key) && Sound(s'.jobs[id])
    requires forall i :: i in s.jobs ==> s.jobs[i].spec.idempotency != key
    ensures AllSound(s') && TokensMatch(s') && KeysUnique(s')
  {
    AddKeepsSound(s.jobs, s'.jobs, id);
    AddKeepsKeys(s, s', id, key);
  }

  lemma AddKeepsSound(jobs: map<nat, Record>, jobs': map<nat, Record>, id: nat)
    requires id in jobs' && jobs' == jobs[id := jobs'[id]] && Sound(jobs'[id])
    requires forall i :: i in jobs ==> Sound(jobs[i])
    ensures forall i :: i in jobs' ==> Sound(jobs'[i])
  {
  }

  lemma AddKeepsKeys(s: State, s': State, id: nat, key: IdempotencyKey)
    requires KeysUnique(s) && id in s'.jobs && s'.jobs == s.jobs[id := s'.jobs[id]]
    requires s'.jobs[id].spec.idempotency == key && forall i :: i in s.jobs ==> s.jobs[i].spec.idempotency != key
    ensures KeysUnique(s')
  {
  }

  lemma AddIsOnward(s: State, s': State, id: nat)
    requires id !in s.jobs && id in s'.jobs && s'.jobs == s.jobs[id := s'.jobs[id]] && s'.tickets == s.tickets
    ensures Onward(s, s')
  {
    forall i | i in s.jobs
      ensures i in s'.jobs && Advances(s.jobs[i], s'.jobs[i])
    {
    }
  }

  lemma AddKeepsWorkers(cfg: Settings, s: State, s': State, id: nat)
    requires WorkersBounded(cfg, s)
    requires id !in s.jobs && id in s'.jobs && s'.jobs == s.jobs[id := s'.jobs[id]] && s'.jobs[id].leasedBy.None?
    ensures WorkersBounded(cfg, s')
  {
    forall w | w in cfg.workers
      ensures WorkerJobs(s'.jobs, w) == WorkerJobs(s.jobs, w)
    {
    }
  }

  // What one step leaves: the invariant, and nothing taken back.
  ghost predicate Kept(cfg: Settings, s: State, s': State) {
    Core(cfg, s') && Onward(s, s')
  }

  lemma SubmitKeepsCore(cfg: Settings, s: State, id: nat, q: Submission, now: int)
    requires ValidSettings(cfg) && Core(cfg, s) && id !in s.jobs
    ensures Kept(cfg, s, Submit(cfg, s, id, q, now).state)
  {
    OnwardReflexively(s);
    if q.refusal.None? && FindByKey(s.jobs, KeyOf(q)).None? && CreateJob(cfg, s, id, q, now).Ok? {
      CreateAdds(cfg, s, id, q, now);
      AddKeepsCore(cfg, s, CreateJob(cfg, s, id, q, now).value, id, KeyOf(q));
    }
  }

  lemma ConsumeKeepsQuotas(s: State, key: QuotaKey, limit: nat, amount: nat)
    requires QuotasKept(s) && key.action == AnalysisQuota
    ensures QuotasKept(ConsumeQuota(s, key, limit, amount).state)
  {
    if key !in s.quotas {
      assert ChargedTo(s.jobs, key) == {};
    }
  }

  lemma ConsumeKeepsCore(cfg: Settings, s: State, key: QuotaKey, limit: nat, amount: nat)
    requires Core(cfg, s) && key.action == AnalysisQuota
    ensures Kept(cfg, s, ConsumeQuota(s, key, limit, amount).state)
  {
    OnwardReflexively(s);
    ConsumeKeepsQuotas(s, key, limit, amount);
    QuotasAreBeside(cfg, s, ConsumeQuota(s, key, limit, amount).state);
  }

  lemma QuotasAreBeside(cfg: Settings, s: State, s': State)
    requires Core(cfg, s) && QuotasKept(s')
    requires s'.jobs == s.jobs && s'.tickets == s.tickets
    ensures Core(cfg, s') && (Onward(s, s) ==> Onward(s, s'))
  {
    forall w | w in cfg.workers
      ensures WorkerJobs(s'.jobs, w) == WorkerJobs(s.jobs, w)
    {
    }
  }

  lemma CallFits(cfg: Settings, r: Record, id: nat, call: Call, env: Env)
    requires OpForCall(cfg, r, id, call, env).Ok?
    ensures Fits(r, OpForCall(cfg, r, id, call, env).value) && !OpForCall(cfg, r, id, call, env).value.Lease?
    ensures IsRelease(OpForCall(cfg, r, id, call, env).value) ==> call.ReleaseCall?
  {
  }

  // The change that a request on a lease makes, if any.
  function CallOp(cfg: Settings, s: State, q: LeaseRequest, call: Call, env: Env): Option<RowOp> {
    match ValidateLease(s, q, env)
    case Denied(_) => None
    case AuthorizationLost =>
      if s.jobs[q.job].status in {Leased, Running} && ApplyOp(cfg, s, q.job, RequestCancel, env.now).Ok? then Some(RequestCancel) else None
    case Granted =>
      var asked := OpForCall(cfg, s.jobs[q.job], q.job, call, env);
      if asked.Ok? && ApplyOp(cfg, s, q.job, asked.value, env.now).Ok? then Some(asked.value) else None
  }

  // A worker request leaves the tables alone or makes one fitting change to the
  // job of its lease.
  lemma CallIsOneOp(cfg: Settings, s: State, q: LeaseRequest, call: Call, env: Env) returns (op: Option<RowOp>)
    ensures op == CallOp(cfg, s, q, call, env)
    ensures op.None? ==> WorkerCall(cfg, s, q, call, env).state == s
    ensures op.Some? ==>
              && q.job in s.jobs && !ValidateLease(s, q, env).Denied?
              && Fits(s.jobs[q.job], op.value) && !op.value.Lease? && (IsRelease(op.value) ==> call.ReleaseCall?)
              && ApplyOp(cfg, s, q.job, op.value, env.now) == Ok(WorkerCall(cfg, s, q, call, env).state)
  {
    op := CallOp(cfg, s, q, call, env);
    match ValidateLease(s, q, env)
    case Denied(_) =>
    case AuthorizationLost =>
    case Granted =>
      if OpForCall(cfg, s.jobs[q.job], q.job, call, env).Ok? {
        CallFits(cfg, s.jobs[q.job], q.job, call, env);
      }
  }

  lemma CallKeepsCore(cfg: Settings, s: State, q: LeaseRequest, call: Call, env: Env)
    requires Core(cfg, s)
    ensures Kept(cfg, s, WorkerCall(cfg, s, q, call, env).state)
  {
    OnwardReflexively(s);
    var op := CallIsOneOp(cfg, s, q, call, env);
    if op.Some? {
      OpKeepsCore(cfg, s, q.job, op.value, env.now);
    }
  }

  lemma CancelKeepsCore(cfg: Settings, s: State, id: nat, allowed: bool, env: Env)
    requires Core(cfg, s)
    ensures Kept(cfg, s, CancelJob(cfg, s, id, allowed, env).state)
  {
    OnwardReflexively(s);
    if id in s.jobs {
      var r := s.jobs[id];
      var op := if r.leasedBy.None? then CancelPending else RequestCancel;
      if !Terminal(r.status) && !(r.status == CancelRequested && r.leasedBy.Some?) && ApplyOp(cfg, s, id, op, env.now).Ok? {
        assert Sound(r);
        OpKeepsCore(cfg, s, id, op, env.now);
      }
    }
  }

  lemma WholePassKeepsCore(cfg: Settings, s: State, pass: Pass, order: seq<nat>, env: Env)
    requires Core(cfg, s) && !pass.ScanWindow?
    ensures Kept(cfg, s, WholePass(cfg, s, pass, order, env).state)
  {
    OnwardReflexively(s);
    if RunPass(cfg, s, pass, order, env).Ok? {
      PassKeepsCore(cfg, s, pass, order, (set i | i in order), env);
    }
  }

  // A pass starts no lease, so no worker holds more jobs after it.
  lemma PassOneKeepsHolders(cfg: Settings, s: State, pass: Pass, id: nat, env: Env, worker: string)
    requires AllSound(s) && Scannable(s, pass, {id})
    requires PassOne(cfg, s, pass, id, env).Ok?
    ensures WorkerJobs(PassOne(cfg, s, pass, id, env).value.jobs, worker) <= WorkerJobs(s.jobs, worker)
  {
    if id in s.jobs && Decide(cfg, pass, id, s.jobs[id], env).Some? {
      var op := Decide(cfg, pass, id, s.jobs[id], env).value;
      assert id in {id};
      DecisionFits(cfg, pass, id, s.jobs[id], env);
      ApplyReplaces(cfg, s, id, op, env.now);
      OnlyClaimsLease(cfg, s.jobs[id], op, env.now);
    }
  }

  lemma {:induction false} PassKeepsHolders(cfg: Settings, s: State, pass: Pass, order: seq<nat>, ids: set<nat>, env: Env, worker: string)
    requires Core(cfg, s)
    requires Scannable(s, pass, ids) && forall i :: 0 <= i < |order| ==> order[i] in ids
    requires RunPass(cfg, s, pass, order, env).Ok?
    ensures |WorkerJobs(RunPass(cfg, s, pass, order, env).value.jobs, worker)| <= |WorkerJobs(s.jobs, worker)|
    decreases |order|
  {
    if order != [] {
      var s' := PassOne(cfg, s, pass, order[0], env).value;
      assert Core(cfg, s') && Scannable(s', pass, ids) && |WorkerJobs(s'.jobs, worker)| <= |WorkerJobs(s.jobs, worker)| by {
        assert Scannable(s, pass, {order[0]});
        PassOneKeepsCore(cfg, s, pass, order[0], env);
        PassOneKeepsScannable(cfg, s, pass, order[0], ids, env);
        PassOneKeepsHolders(cfg, s, pass, order[0], env, worker);
        SubsetSize(WorkerJobs(s'.jobs, worker), WorkerJobs(s.jobs, worker));
      }
      PassKeepsHolders(cfg, s', pass, order[1..], ids, env, worker);
    }
  }

  datatype PickOutcome = PickRefused | PickExpired | PickLeased | PickRaised

  // How the last part of a claim ends.
  function PickOutcomeOf(cfg: Settings, s: State, id: nat, q: ClaimRequest, env: Env): PickOutcome
    requires id in s.jobs
  {
    match MoveToRunning(cfg, s.counters, Scopes(s.jobs[id].spec))
    case SlotsRefused(_, _) => PickRefused
    case SlotsTaken(c) =>
      if LeaseDeadline(cfg, s.jobs[id], env.now, Some(AttemptHorizon(cfg, s.jobs[id], env.now))) <= env.now
      then if ApplyOp(cfg, s.(counters := c), id, FailPending(false), env.now).Ok? then PickExpired else PickRaised
      else if ApplyOp(cfg, s, id, Lease(q.worker, q.token), env.now).Ok? then PickLeased else PickRaised
  }

  lemma PickEnds(cfg: Settings, s: State, id: nat, q: ClaimRequest, env: Env)
    requires id in s.jobs
    ensures var picked := ClaimPicked(cfg, s, id, q, env);
            match PickOutcomeOf(cfg, s, id, q, env)
            case PickRefused =>
              picked == Ok(Outcome(s.(counters := MoveToRunning(cfg, s.counters, Scopes(s.jobs[id].spec)).counters), NothingToClaim))
            case PickRaised => picked.Raised?
            case PickExpired =>
              var moved := s.(counters := MoveToRunning(cfg, s.counters, Scopes(s.jobs[id].spec)).counters);
              picked.Ok? && ApplyOp(cfg, moved, id, FailPending(false), env.now) == Ok(picked.value.state)
            case PickLeased =>
              && ApplyOp(cfg, s, id, Lease(q.worker, q.token), env.now).Ok?
              && picked.Ok?
              && picked.value.state == Ticketed(ApplyOp(cfg, s, id, Lease(q.worker, q.token), env.now).value,
                                               q.token, id, s.jobs[id].leaseGeneration + 1)
  {
  }

  lemma ClaimPickedKeepsCore(cfg: Settings, s: State, id: nat, q: ClaimRequest, env: Env)
    requires Core(cfg, s) && id in s.jobs && s.jobs[id].status !in {Leased, Running}
    requires q.token !in s.tickets
    requires q.worker in cfg.workers && |WorkerJobs(s.jobs, q.worker)| < cfg.workers[q.worker].maxConcurrency
    requires ClaimPicked(cfg, s, id, q, env).Ok?
    ensures Kept(cfg, s, ClaimPicked(cfg, s, id, q, env).value.state)
  {
    PickEnds(cfg, s, id, q, env);
    var s' := ClaimPicked(cfg, s, id, q, env).value.state;
    match PickOutcomeOf(cfg, s, id, q, env)
    case PickRefused => CountersAreBeside(cfg, s, s'.counters);
    case PickExpired =>
      var c := MoveToRunning(cfg, s.counters, Scopes(s.jobs[id].spec)).counters;
      CountersAreBeside(cfg, s, c);
      OpKeepsCore(cfg, s.(counters := c), id, FailPending(false), env.now);
      OnwardTransitively(s, s.(counters := c), s');
    case PickLeased => LeaseKeepsCore(cfg, s, id, q.worker, q.token, env.now);
    case PickRaised => assert false;
  }

  // The invariant is about the job rows; the counters have their own.
  lemma CountersAreBeside(cfg: Settings, s: State, c: Counters)
    requires Core(cfg, s)
    ensures Kept(cfg, s, s.(counters := c))
  {
    OnwardReflexively(s);
  }

  lemma PickKeepsCore(cfg: Settings, s: State, q: ClaimRequest, env: Env)
    requires Core(cfg, s) && q.token !in s.tickets
    requires forall id :: id in q.window && id in s.jobs ==> s.jobs[id].status !in {Leased, Running}
    requires q.worker in cfg.workers && |WorkerJobs(s.jobs, q.worker)| < cfg.workers[q.worker].maxConcurrency
    requires PickOne(cfg, s, q, env).Ok?
    ensures Kept(cfg, s, PickOne(cfg, s, q, env).value.state)
  {
    OnwardReflexively(s);
    var eligible := Eligible(cfg, s, q.worker, q.types, q.window, env);
    if eligible != [] {
      ClaimPickedKeepsCore(cfg, s, Pick(s, eligible), q, env);
    }
  }

  lemma WindowIsScannable(cfg: Settings, s: State, q: ClaimRequest, now: int)
    requires IsScanWindow(cfg, s.jobs, q.window, now)
    ensures Scannable(s, ScanWindow(q.worker, q.types), set i | i in q.window)
  {
  }

  lemma ScanKeepsCore(cfg: Settings, s: State, q: ClaimRequest, env: Env)
    requires Core(cfg, s)
    requires Scannable(s, ScanWindow(q.worker, q.types), set i | i in q.window)
    requires RunPass(cfg, s, ScanWindow(q.worker, q.types), q.window, env).Ok?
    ensures var scanned := RunPass(cfg, s, ScanWindow(q.worker, q.types), q.window, env).value;
            && Kept(cfg, s, scanned) && scanned.tickets == s.tickets
            && |WorkerJobs(scanned.jobs, q.worker)| <= |WorkerJobs(s.jobs, q.worker)|
            && (forall id :: id in q.window && id in scanned.jobs ==> scanned.jobs[id].status !in {Leased, Running})
  {
    var scan := ScanWindow(q.worker, q.types);
    var ids := set i | i in q.window;
    PassKeepsCore(cfg, s, scan, q.window, ids, env);
    PassKeepsTickets(cfg, s, scan, q.window, env);
    PassKeepsHolders(cfg, s, scan, q.window, ids, env, q.worker);
    assert forall id :: id in q.window ==> id in ids;
  }

  // The scan and the pick, on the state recovery left.
  lemma ScanAndPickKeepsCore(cfg: Settings, s: State, q: ClaimRequest, env: Env)
    requires Core(cfg, s) && q.token !in s.tickets && q.worker in cfg.workers
    requires Scannable(s, ScanWindow(q.worker, q.types), set i | i in q.window)
    requires ScanAndPick(cfg, s, q, env).Ok?
    ensures Kept(cfg, s, ScanAndPick(cfg, s, q, env).value.state)
  {
    OnwardReflexively(s);
    if |WorkerJobs(s.jobs, q.worker)| < cfg.workers[q.worker].maxConcurrency {
      var scanned := RunPass(cfg, s, ScanWindow(q.worker, q.types), q.window, env).value;
      ScanKeepsCore(cfg, s, q, env);
      PickKeepsCore(cfg, scanned, q, env);
      OnwardTransitively(s, scanned, PickOne(cfg, scanned, q, env).value.state);
    }
  }

  lemma ClaimKeepsCore(cfg: Settings, s: State, q: ClaimRequest, env: Env)
    requires Core(cfg, s) && Enabled(cfg, s, Step(env, Claiming(q)))
    ensures Kept(cfg, s, Claim(cfg, s, q, env).state)
  {
    OnwardReflexively(s);
    if q.worker in cfg.workers && ClaimAll(cfg, s, q, env).Ok? {
      var recovered := RunPass(cfg, s, RecoverExpired, q.expired, env).value;
      PassKeepsCore(cfg, s, RecoverExpired, q.expired, (set i | i in q.expired), env);
      PassKeepsTickets(cfg, s, RecoverExpired, q.expired, env);
      WindowIsScannable(cfg, recovered, q, env.now);
      ScanAndPickKeepsCore(cfg, recovered, q, env);
      OnwardTransitively(s, recovered, ScanAndPick(cfg, recovered, q, env).value.state);
    }
  }

  lemma {:induction false} PassKeepsTickets(cfg: Settings, s: State, pass: Pass, order: seq<nat>, env: Env)
    requires RunPass(cfg, s, pass, order, env).Ok?
    ensures RunPass(cfg, s, pass, order, env).value.tickets == s.tickets
    ensures RunPass(cfg, s, pass, order, env).value.quotas == s.quotas
    decreases |order|
  {
    if order != [] {
      PassKeepsTickets(cfg, PassOne(cfg, s, pass, order[0], env).value, pass, order[1..], env);
    }
  }

  // Every vast job has its cost row from the start, so nothing is rebuilt.
  lemma NothingToRebuild(s: State, now: int)
    requires AllSound(s)
    ensures RebuildCosts(s.jobs, now) == s.jobs
  {
  }

  lemma RecoverKeepsCore(cfg: Settings, s: State, expired: seq<nat>, active: seq<nat>, dryRun: bool, env: Env)
    requires Core(cfg, s)
    ensures Kept(cfg, s, RecoverDurable(cfg, s, expired, active, dryRun, env).state)
  {
    OnwardReflexively(s);
    if !dryRun && RecoverDurable(cfg, s, expired, active, dryRun, env).reply == Done {
      var s1 := RunPass(cfg, s, RecoverExpired, expired, env).value;
      PassKeepsCore(cfg, s, RecoverExpired, expired, (set i | i in expired), env);
      var s2 := RunPass(cfg, s1, RevalidateAuthorization, active, env).value;
      PassKeepsCore(cfg, s1, RevalidateAuthorization, active, (set i | i in active), env);
      OnwardTransitively(s, s1, s2);
      NothingToRebuild(s2, env.now);
      CountersAreBeside(cfg, s2, Reconcile(s2, env.now).counters);
      OnwardTransitively(s, s2, Reconcile(s2, env.now));
    }
  }

  // ---- runs ----

  lemma StepKeepsCore(cfg: Settings, s: State, step: Step)
    requires ValidSettings(cfg) && Core(cfg, s) && Enabled(cfg, s, step)
    ensures Kept(cfg, s, Perform(cfg, s, step).state)
  {
    var env := step.env;
    match step.action
    case Submitting(id, submission) => SubmitKeepsCore(cfg, s, id, submission, env.now);
    case Claiming(q) => ClaimKeepsCore(cfg, s, q, env);
    case Consuming(key, limit, amount) => ConsumeKeepsCore(cfg, s, key, limit, amount);
    case Calling(request, call) => CallKeepsCore(cfg, s, request, call, env);
    case Cancelling(id, allowed) => CancelKeepsCore(cfg, s, id, allowed, env);
    case Revoking(order) => WholePassKeepsCore(cfg, s, RevokeAuthorization, order, env);
    case Disposing(order) => WholePassKeepsCore(cfg, s, DisposeAccount, order, env);
    case Recovering(expired, active, dryRun) => RecoverKeepsCore(cfg, s, expired, active, dryRun, env);
  }

  // Over every run the invariant holds, and nothing a job has been through is
  // ever taken back.
  lemma {:induction false} RunsKeepCore(cfg: Settings, s: State, steps: seq<Step>)
    requires ValidSettings(cfg) && Core(cfg, s) && IsRun(cfg, s, steps)
    ensures Kept(cfg, s, After(cfg, s, steps))
    decreases |steps|
  {
    if steps == [] {
      OnwardReflexively(s);
    } else {
      var s' := Perform(cfg, s, steps[0]).state;
      StepKeepsCore(cfg, s, steps[0]);
      RunsKeepCore(cfg, s', steps[1..]);
      OnwardTransitively(s, s', After(cfg, s', steps[1..]));
    }
  }

  lemma EmptyIsCore(cfg: Settings)
    ensures Core(cfg, EMPTY)
  {
    forall w | w in cfg.workers
      ensures WorkerJobs(EMPTY.jobs, w) == {}
    {
    }
  }
}
