// Submissions over whole runs: which job a repeated submission finds, what the row
// of a new job says, and exactly when one is created or what it is refused with.

module JobSubmissions {
  import opened Outcomes
  import opened JobRegistry
  import opened JobStatusMachine
  import opened JobRows
  import opened JobRowProofs
  import opened Capacity
  import opened JobProtocol
  import opened JobInvariants
  import opened JobTraces
  import opened JobCapacityProofs
  import opened JobLineage

  // ---- what the row of a job says about its submission ----

  // The row's idempotency columns are those of its own type, organization and
  // owner; its deadlines lie one queue age after its creation; a watchlist job is
  // charged to its owner's row of the day; and only a session is estimated to
  // cost anything, its hourly cap for the time of a session rounded up.
  ghost predicate WellSubmitted(cfg: Settings, spec: JobSpec) {
    && spec.idempotency.jobType == spec.jobType
    && spec.idempotency.forOrganization == spec.organization.Some?
    && spec.idempotency.subject == (match spec.organization case Some(organization) => organization case None => spec.owner)
    && spec.maxAttempts == cfg.maxAttempts
    && spec.queueExpiresAt == Some(spec.createdAt + cfg.queueAgeSeconds) && spec.deadlineAt == spec.queueExpiresAt
    && (spec.jobType == WatchlistEvaluate ==> spec.charged == Some(QuotaKey(spec.owner, WatchlistQuota, spec.createdAt / 86400)))
    && (spec.jobType !in {WatchlistEvaluate, AnalysisGenerate} ==> spec.charged.None?)
    && (spec.jobType == AnalysisGenerate && spec.charged.Some? ==> spec.charged.value == QuotaKey(spec.owner, AnalysisQuota, spec.createdAt / 86400))
    && (spec.jobType != VastSessionStart ==> spec.estimatedCost == 0)
    && (spec.jobType == VastSessionStart ==>
         cfg.vastHourlyMicrousd * cfg.vastMinutes <= 60 * spec.estimatedCost < cfg.vastHourlyMicrousd * cfg.vastMinutes + 60)
  }

  ghost predicate AllWellSubmitted(cfg: Settings, s: State) {
    forall id :: id in s.jobs ==> WellSubmitted(cfg, s.jobs[id].spec)
  }

  lemma QuotaIsOwn(cfg: Settings, q: Submission, day: int)
    requires QuotaFor(cfg, q, day).Ok?
    ensures var charge := QuotaFor(cfg, q, day).value;
            && (q.jobType == WatchlistEvaluate ==> charge.Some? && charge.value.0 == QuotaKey(q.owner, WatchlistQuota, day))
            && (q.jobType !in {WatchlistEvaluate, AnalysisGenerate} ==> charge.None?)
            && (q.jobType == AnalysisGenerate && charge.Some? ==> charge.value.0 == QuotaKey(q.owner, AnalysisQuota, day))
  {
  }

  lemma SpecIsWellSubmitted(cfg: Settings, q: Submission, charge: Option<(QuotaKey, nat)>, now: int)
    requires QuotaFor(cfg, q, Day(now)) == Ok(charge)
    ensures WellSubmitted(cfg, SpecOf(cfg, q, charge, now))
  {
    QuotaIsOwn(cfg, q, Day(now));
  }

  lemma CreatedSpec(cfg: Settings, s: State, id: nat, q: Submission, now: int)
    requires CreateJob(cfg, s, id, q, now).Ok?
    ensures QuotaFor(cfg, q, Day(now)).Ok?
    ensures CreateJob(cfg, s, id, q, now).value.jobs == s.jobs[id := NewRecord(SpecOf(cfg, q, QuotaFor(cfg, q, Day(now)).value, now))]
  {
  }

  lemma MicroKeepsSpecs(cfg: Settings, s: State, m: Micro, now: int)
    requires AllSound(s) && AllWellSubmitted(cfg, s) && MicroFits(cfg, s, m, now)
    ensures AllWellSubmitted(cfg, MicroResult(cfg, s, m, now))
  {
    match m
    case Change(id, op) =>
      ApplyReplaces(cfg, s, id, op, now);
      PlainRow(cfg, s.jobs[id], op, now);
    case Create(id, q) =>
      CreatedSpec(cfg, s, id, q, now);
      SpecIsWellSubmitted(cfg, q, QuotaFor(cfg, q, Day(now)).value, now);
    case Recount => NothingToRebuild(s, now);
    case _ =>
  }

  lemma {:induction false} TraceKeepsSpecs(cfg: Settings, s: State, t: seq<Micro>, now: int, s': State)
    requires ValidSettings(cfg) && AllSound(s) && AllWellSubmitted(cfg, s) && Traces(cfg, s, t, now, s')
    ensures AllWellSubmitted(cfg, s')
    decreases |t|
  {
    if t != [] {
      MicroKeepsSound(cfg, s, t[0], now);
      MicroKeepsSpecs(cfg, s, t[0], now);
      TraceKeepsSpecs(cfg, MicroResult(cfg, s, t[0], now), t[1..], now, s');
    }
  }

  lemma {:induction false} RunsKeepSpecs(cfg: Settings, s: State, steps: seq<Step>)
    requires ValidSettings(cfg) && Core(cfg, s) && AllWellSubmitted(cfg, s) && IsRun(cfg, s, steps)
    ensures AllWellSubmitted(cfg, After(cfg, s, steps))
    decreases |steps|
  {
    if steps != [] {
      var s' := Perform(cfg, s, steps[0]).state;
      StepKeepsCore(cfg, s, steps[0]);
      var t := StepTrace(cfg, s, steps[0]);
      TraceKeepsSpecs(cfg, s, t, steps[0].env.now, s');
      RunsKeepSpecs(cfg, s', steps[1..]);
    }
  }

  lemma ReachableSpecs(cfg: Settings, steps: seq<Step>)
    requires ValidSettings(cfg) && IsRun(cfg, EMPTY, steps)
    ensures Core(cfg, After(cfg, EMPTY, steps)) && AllWellSubmitted(cfg, After(cfg, EMPTY, steps))
  {
    EmptyIsCore(cfg);
    RunsKeepCore(cfg, EMPTY, steps);
    RunsKeepSpecs(cfg, EMPTY, steps);
  }

  // ---- one job per subject, type and key ----

  // For the same organization, or both for none by the same owner.
  predicate SameSubject(organization: Option<string>, owner: string, organization': Option<string>, owner': string) {
    organization == organization' && (organization.None? ==> owner == owner')
  }

  // In every run, two jobs of the same type, key and subject are one job.
  lemma OneJobPerKey(cfg: Settings, steps: seq<Step>, a: nat, b: nat)
    requires ValidSettings(cfg) && IsRun(cfg, EMPTY, steps)
    requires a in After(cfg, EMPTY, steps).jobs && b in After(cfg, EMPTY, steps).jobs
    requires var x, y := After(cfg, EMPTY, steps).jobs[a].spec, After(cfg, EMPTY, steps).jobs[b].spec;
             && x.jobType == y.jobType && x.idempotency.key == y.idempotency.key
             && SameSubject(x.organization, x.owner, y.organization, y.owner)
    ensures a == b
  {
    ReachableSpecs(cfg, steps);
    var s := After(cfg, EMPTY, steps);
    assert WellSubmitted(cfg, s.jobs[a].spec) && WellSubmitted(cfg, s.jobs[b].spec);
    assert s.jobs[a].spec.idempotency == s.jobs[b].spec.idempotency;
  }

  // The job repeats what the submission asks for.
  predicate Repeats(spec: JobSpec, q: Submission) {
    spec.jobType == q.jobType && spec.idempotency.key == q.key && SameSubject(spec.organization, spec.owner, q.organization, q.owner)
  }

  lemma RepeatsIffSameKey(cfg: Settings, spec: JobSpec, q: Submission)
    requires WellSubmitted(cfg, spec)
    ensures Repeats(spec, q) <==> spec.idempotency == KeyOf(q)
  {
  }

  // In every run, a submission finds a job exactly when some job is of its type, its
  // key and its subject; it then answers with that job, or refuses other input,
  // and changes nothing. Otherwise it creates a job or is refused.
  lemma FoundIffRepeated(cfg: Settings, steps: seq<Step>, id: nat, q: Submission, now: int)
    requires ValidSettings(cfg) && IsRun(cfg, EMPTY, steps)
    ensures q.refusal.Some? ==> Submit(cfg, After(cfg, EMPTY, steps), id, q, now) == Outcome(After(cfg, EMPTY, steps), Refused(q.refusal.value))
    ensures var s := After(cfg, EMPTY, steps);
            var outcome := Submit(cfg, s, id, q, now);
            q.refusal.None? ==>
            && (forall other :: other in s.jobs && Repeats(s.jobs[other].spec, q) ==>
                 outcome == Outcome(s, if s.jobs[other].spec.fingerprint == q.fingerprint then Existing(other) else Refused(409)))
            && ((forall other :: other in s.jobs ==> !Repeats(s.jobs[other].spec, q)) ==>
                 outcome == match CreateJob(cfg, s, id, q, now)
                            case Ok(s') => Outcome(s', Created(id))
                            case Raised(code) => Outcome(s, Refused(code)))
  {
    if q.refusal.None? {
      ReachableSpecs(cfg, steps);
      FoundAt(cfg, After(cfg, EMPTY, steps), id, q, now);
    }
  }

  lemma FoundAt(cfg: Settings, s: State, id: nat, q: Submission, now: int)
    requires KeysUnique(s) && AllWellSubmitted(cfg, s) && q.refusal.None?
    ensures forall other :: other in s.jobs && Repeats(s.jobs[other].spec, q) ==>
              Submit(cfg, s, id, q, now) == Outcome(s, if s.jobs[other].spec.fingerprint == q.fingerprint then Existing(other) else Refused(409))
    ensures (forall other :: other in s.jobs ==> !Repeats(s.jobs[other].spec, q)) ==>
              Submit(cfg, s, id, q, now) == match CreateJob(cfg, s, id, q, now)
                                            case Ok(s') => Outcome(s', Created(id))
                                            case Raised(code) => Outcome(s, Refused(code))
  {
    forall other | other in s.jobs
      ensures Repeats(s.jobs[other].spec, q) <==> s.jobs[other].spec.idempotency == KeyOf(q)
    {
      RepeatsIffSameKey(cfg, s.jobs[other].spec, q);
    }
  }

  // However long after, the same submission finds its job.
  lemma RepeatedSubmission(cfg: Settings, s: State, steps: seq<Step>, id: nat, other: nat, q: Submission, now: int)
    requires ValidSettings(cfg) && Core(cfg, s) && AllWellSubmitted(cfg, s) && IsRun(cfg, s, steps)
    requires id in s.jobs && Repeats(s.jobs[id].spec, q) && q.refusal.None?
    ensures var later := After(cfg, s, steps);
            Submit(cfg, later, other, q, now) ==
            Outcome(later, if q.fingerprint == s.jobs[id].spec.fingerprint then Existing(id) else Refused(409))
  {
    RunsKeepCore(cfg, s, steps);
    RunsKeepSpecs(cfg, s, steps);
    assert Advances(s.jobs[id], After(cfg, s, steps).jobs[id]);
    FoundAt(cfg, After(cfg, s, steps), other, q, now);
  }

  // ---- when a job is created ----

  // The daily limit a submission counts against: 120 evaluations of a watchlist for
  // anybody, the limit of the plan for an analysis. A limit once written in a row
  // of the day stays, except the first.
  function DailyLimit(cfg: Settings, q: Submission): nat {
    if q.jobType == WatchlistEvaluate then 120
    else if q.plan == AnonymousPlan then cfg.anonymousAnalysesPerDay else cfg.analysesPerDay
  }

  // An administrator is exempt if the settings say so, and so is the plan of
  // administrators; preparing documents and training is free.
  predicate Counts(cfg: Settings, q: Submission) {
    q.jobType == WatchlistEvaluate ||
    (q.jobType == AnalysisGenerate && !(q.admin && cfg.quotaAdminExempt) && q.plan != AdminPlan)
  }

  // A session is for administrators, where these are exempt from quotas.
  predicate Forbidden(cfg: Settings, q: Submission) {
    q.jobType == VastSessionStart && !(q.admin && cfg.quotaAdminExempt)
  }

  function DayRow(q: Submission, now: int): QuotaKey {
    QuotaKey(q.owner, if q.jobType == WatchlistEvaluate then WatchlistQuota else AnalysisQuota, now / 86400)
  }

  predicate Exhausted(cfg: Settings, s: State, q: Submission, now: int) {
    var key := DayRow(q, now);
    if key !in s.quotas then DailyLimit(cfg, q) == 0
    else s.quotas[key].used >= if q.jobType == WatchlistEvaluate then 120 else s.quotas[key].limit
  }

  ghost predicate SomeScopeIsFull(cfg: Settings, s: State, q: Submission) {
    exists k :: InScope(k, q.jobType, q.owner, q.organization) && Get(s.counters, k).pending >= WaitingLimit(cfg, k)
  }

  // What the day has already cost.
  function SpentToday(s: State, now: int): nat {
    var g := Get(s.counters, GlobalScope);
    if g.period == Some(now / 86400) then g.cost else 0
  }

  predicate OverBudget(cfg: Settings, s: State, q: Submission, now: int) {
    cfg.dailyBudget > 0 && SpentToday(s, now) + EstimatedCost(cfg, q.jobType) > cfg.dailyBudget
  }

  lemma FullIffNoRoom(cfg: Settings, s: State, q: Submission, now: int)
    ensures SomeScopeIsFull(cfg, s, q) <==> !HasPendingRoom(cfg, s.counters, Scopes(SpecOf(cfg, q, None, now)))
  {
    forall k
      ensures k in Scopes(SpecOf(cfg, q, None, now)) <==> InScope(k, q.jobType, q.owner, q.organization)
      ensures PendingLimit(cfg, k) == WaitingLimit(cfg, k)
    {
      ScopesByColumn(cfg, k, SpecOf(cfg, q, None, now));
    }
  }

  lemma ChargeMeans(cfg: Settings, s: State, q: Submission, now: int)
    ensures QuotaFor(cfg, q, Day(now)) ==
            if Forbidden(cfg, q) then Raised(403)
            else if Counts(cfg, q) then Ok(Some((DayRow(q, now), DailyLimit(cfg, q))))
            else Ok(None)
  {
  }

  // A row of the day after one more unit.
  function OneMore(cfg: Settings, s: State, q: Submission, now: int): Quota {
    var key := DayRow(q, now);
    if key !in s.quotas then Quota(1, DailyLimit(cfg, q))
    else Quota(s.quotas[key].used + 1, if q.jobType == WatchlistEvaluate then 120 else s.quotas[key].limit)
  }

  lemma ChargeOutcome(cfg: Settings, s: State, q: Submission, now: int)
    requires Counts(cfg, q)
    ensures ChargeQuota(s.quotas, Some((DayRow(q, now), DailyLimit(cfg, q)))) ==
            if Exhausted(cfg, s, q, now) then Raised(429) else Ok(s.quotas[DayRow(q, now) := OneMore(cfg, s, q, now)])
  {
  }

  // A new job is refused with the code of its type if that is switched off, with 429
  // if a scope is full, the budget would be passed or the quota is exhausted, and
  // with 403 if it is forbidden; otherwise it is created, and its quota row, if it
  // counts, is one higher.
  lemma CreationOutcome(cfg: Settings, s: State, id: nat, q: Submission, now: int)
    ensures var created := CreateJob(cfg, s, id, q, now);
            if q.disabled.Some? then created == Raised(q.disabled.value)
            else if SomeScopeIsFull(cfg, s, q) || OverBudget(cfg, s, q, now) then created == Raised(429)
            else if Forbidden(cfg, q) then created == Raised(403)
            else if Counts(cfg, q) && Exhausted(cfg, s, q, now) then created == Raised(429)
            else
              && created.Ok?
              && created.value.quotas == (if Counts(cfg, q) then s.quotas[DayRow(q, now) := OneMore(cfg, s, q, now)] else s.quotas)
              && created.value.tickets == s.tickets
  {
    FullIffNoRoom(cfg, s, q, now);
    ChargeMeans(cfg, s, q, now);
    if Counts(cfg, q) {
      ChargeOutcome(cfg, s, q, now);
    }
    BudgetMeans(cfg, s, q, now);
  }

  lemma BudgetMeans(cfg: Settings, s: State, q: Submission, now: int)
    ensures var scopes := Scopes(SpecOf(cfg, q, None, now));
            HasPendingRoom(cfg, s.counters, scopes) ==>
              && ReservePending(cfg, s.counters, scopes).Ok?
              && var reserved := ReserveCost(cfg, ReservePending(cfg, s.counters, scopes).value, Day(now), EstimatedCost(cfg, q.jobType));
                 if OverBudget(cfg, s, q, now) then reserved == Raised(429) else reserved.Ok?
  {
    ScopesByColumn(cfg, GlobalScope, SpecOf(cfg, q, None, now));
  }

  // The row of a new job: what was asked for, waiting from now on, held by nobody,
  // with the estimate of its type reserved; and what the day costs with it.
  lemma NewRowOutcome(cfg: Settings, s: State, id: nat, q: Submission, now: int)
    requires CreateJob(cfg, s, id, q, now).Ok?
    ensures var s' := CreateJob(cfg, s, id, q, now).value;
            && id in s'.jobs && s'.jobs == s.jobs[id := s'.jobs[id]]
            && WellSubmitted(cfg, s'.jobs[id].spec) && Repeats(s'.jobs[id].spec, q)
            && var r := s'.jobs[id];
               && r.spec.owner == q.owner && r.spec.organization == q.organization && r.spec.admin == q.admin
               && r.spec.fingerprint == q.fingerprint && r.spec.createdAt == now
               && r.status == Queued && r.availableAt == now && r.attempts == [] && r.attemptCount == r.leaseGeneration == 0
               && r.leasedBy.None? && r.tokenHash.None? && r.leaseExpiresAt.None? && r.result.None? && r.deletedAt.None?
               && r.events == [Event(1, Accepted)]
               && r.reservedCost == r.spec.estimatedCost && r.actualCost == 0
               && r.cost == (if q.jobType == VastSessionStart then Some(CostRow(now / 86400, r.spec.estimatedCost, 0, CostReserved)) else None)
               && Get(s'.counters, GlobalScope).period == Some(now / 86400)
               && Get(s'.counters, GlobalScope).cost == SpentToday(s, now) + r.spec.estimatedCost
  {
    CreatedSpec(cfg, s, id, q, now);
    SpecIsWellSubmitted(cfg, q, QuotaFor(cfg, q, Day(now)).value, now);
    CreatedCost(cfg, s, id, q, now);
  }

  lemma CreatedCost(cfg: Settings, s: State, id: nat, q: Submission, now: int)
    requires CreateJob(cfg, s, id, q, now).Ok?
    ensures var g := Get(CreateJob(cfg, s, id, q, now).value.counters, GlobalScope);
            g.period == Some(now / 86400) && g.cost == SpentToday(s, now) + EstimatedCost(cfg, q.jobType)
  {
    ScopesByColumn(cfg, GlobalScope, SpecOf(cfg, q, None, now));
  }

  // ---- quotas over whole runs ----

  // The watchlist jobs an owner submitted in one day.
  function WatchlistsOf(jobs: map<nat, Record>, owner: string, day: int): set<nat> {
    set id | id in jobs && jobs[id].spec.jobType == WatchlistEvaluate && jobs[id].spec.owner == owner && jobs[id].spec.createdAt / 86400 == day
  }

  // In every run, nobody has more than 120 of them.
  lemma WatchlistsAreLimited(cfg: Settings, steps: seq<Step>, owner: string, day: int)
    requires ValidSettings(cfg) && IsRun(cfg, EMPTY, steps)
    ensures |WatchlistsOf(After(cfg, EMPTY, steps).jobs, owner, day)| <= 120
  {
    ReachableSpecs(cfg, steps);
    var s := After(cfg, EMPTY, steps);
    var key, own := QuotaKey(owner, WatchlistQuota, day), WatchlistsOf(s.jobs, owner, day);
    forall id | id in own
      ensures id in ChargedTo(s.jobs, key)
    {
      assert WellSubmitted(cfg, s.jobs[id].spec);
    }
    if id :| id in own {
      assert id in ChargedTo(s.jobs, key);
      SubsetSize(own, ChargedTo(s.jobs, key));
    }
  }

  // A synchronous request draws on the row of the day, or a new one, if it still has
  // as much.
  lemma ConsumptionOutcome(s: State, key: QuotaKey, limit: nat, amount: nat)
    ensures var outcome := ConsumeQuota(s, key, limit, amount);
            var row := if key in s.quotas then s.quotas[key] else Quota(0, limit);
            if row.used + amount <= row.limit
            then outcome == Outcome(s.(quotas := s.quotas[key := Quota(row.used + amount, row.limit)]), Done)
            else outcome == Outcome(s, Refused(429))
  {
  }
}
