// The durable job protocol: every API call and recovery pass as one atomic
// step on the tables. jobs/control_service.py, jobs/worker_protocol.py and
// jobs/lifecycle.py.

module JobProtocol {
  import opened Outcomes
  import opened JobRegistry
  import opened JobStatusMachine
  import opened JobRows
  import opened Capacity

  datatype Quota = Quota(used: nat, limit: nat)

  // Which job and generation a lease token was issued for.
  datatype Ticket = Ticket(job: nat, generation: nat)

  datatype State = State(
    jobs: map<nat, Record>,
    counters: Counters,
    quotas: map<QuotaKey, Quota>,
    tickets: map<nat, Ticket>)

  const EMPTY := State(map[], map[], map[], map[])

  // What a step reads from outside the job tables: the clock, the jobs whose
  // owner or membership no longer allows execution, the jobs whose input
  // schema is no longer supported, and the provider sessions by job.
  datatype Env = Env(now: int, revoked: set<nat>, unsupported: set<nat>, sessions: map<nat, Session>)

  function SessionOf(env: Env, id: nat): Session {
    if id in env.sessions then env.sessions[id] else Session(false, NoRequestState, false, 0)
  }

  datatype Reply =
    | Refused(code: nat)
    | Done
    | Created(job: nat)
    | Existing(job: nat)
    | NothingToClaim
    | Claimed(job: nat, generation: nat, token: nat)

  datatype Outcome = Outcome(state: State, reply: Reply)

  // ---- one change to one job ----

  function ApplyOp(cfg: Settings, s: State, id: nat, op: RowOp, now: int): Result<State>
    requires id in s.jobs
  {
    var e :- ApplyRow(cfg, s.jobs[id], op, now);
    var c :- ApplyMoves(cfg, s.counters, Scopes(s.jobs[id].spec), e.moves);
    Ok(s.(jobs := s.jobs[id := e.record], counters := ApplyRefund(c, e.refund, Day(now))))
  }

  // ---- submit_job ----

  datatype Plan = AdminPlan | AnonymousPlan | OtherPlan

  // refusal: the code of the first check on the request itself that fails (jobs
  // switched off, dedicated endpoints, key length, schema, membership). disabled:
  // the code for a job type that is switched off, which only a new job meets.
  datatype Submission = Submission(
    refusal: Option<nat>, disabled: Option<nat>, jobType: JobType, owner: string, organization: Option<string>,
    admin: bool, plan: Plan, key: string, fingerprint: string)

  function KeyOf(q: Submission): IdempotencyKey {
    IdempotencyKey(q.organization.Some?,
                   if q.organization.Some? then q.organization.value else q.owner,
                   q.jobType, q.key)
  }

  // _idempotent_job. The unique constraint makes the row found the only one.
  ghost function FindByKey(jobs: map<nat, Record>, key: IdempotencyKey): (found: Option<nat>)
    ensures found.Some? ==> found.value in jobs && jobs[found.value].spec.idempotency == key
    ensures found.None? ==> forall id :: id in jobs ==> jobs[id].spec.idempotency != key
  {
    if id :| id in jobs && jobs[id].spec.idempotency == key then Some(id) else None
  }

  const WATCHLIST_EVALUATIONS_PER_DAY := 120

  // The quota row a submission is charged to, and its limit; None when the
  // submission is not quota-bound.
  function QuotaFor(cfg: Settings, q: Submission, day: int): Result<Option<(QuotaKey, nat)>> {
    if q.jobType == WatchlistEvaluate then
      Ok(Some((QuotaKey(q.owner, WatchlistQuota, day), WATCHLIST_EVALUATIONS_PER_DAY)))
    else if q.admin && cfg.quotaAdminExempt then
      Ok(None)
    else if q.jobType in {DocumentIngest, DocumentEmbed, TrainingPrepare} then
      Ok(None)
    else if q.jobType != AnalysisGenerate then
      Raised(403)
    else
      match q.plan
      case AdminPlan => Ok(None)
      case AnonymousPlan => Ok(Some((QuotaKey(q.owner, AnalysisQuota, day), cfg.anonymousAnalysesPerDay)))
      case OtherPlan => Ok(Some((QuotaKey(q.owner, AnalysisQuota, day), cfg.analysesPerDay)))
  }

  // _reserve_quota: an existing row keeps the limit it was created with, except
  // that the watchlist limit is rewritten every time.
  function ChargeQuota(quotas: map<QuotaKey, Quota>, charge: Option<(QuotaKey, nat)>): Result<map<QuotaKey, Quota>> {
    if charge.None? then
      Ok(quotas)
    else
      var (key, limit) := charge.value;
      var row := if key in quotas then quotas[key] else Quota(0, limit);
      var current := if key.action == WatchlistQuota then row.(limit := limit) else row;
      if current.used >= current.limit then Raised(429)
      else Ok(quotas[key := current.(used := current.used + 1)])
  }

  // consume_quota, by which synchronous requests draw on the same rows.
  function ConsumeQuota(s: State, key: QuotaKey, limit: nat, amount: nat): Outcome {
    var row := if key in s.quotas then s.quotas[key] else Quota(0, limit);
    if row.used + amount > row.limit then Outcome(s, Refused(429))
    else Outcome(s.(quotas := s.quotas[key := row.(used := row.used + amount)]), Done)
  }

  function SpecOf(cfg: Settings, q: Submission, charge: Option<(QuotaKey, nat)>, now: int): JobSpec {
    JobSpec(q.jobType, q.owner, q.organization, q.admin, KeyOf(q), q.fingerprint,
            cfg.maxAttempts, now, Some(now + cfg.queueAgeSeconds), Some(now + cfg.queueAgeSeconds),
            EstimatedCost(cfg, q.jobType), if charge.Some? then Some(charge.value.0) else None)
  }

  // _create_reserved_job, for a job id nobody uses yet.
  function CreateJob(cfg: Settings, s: State, id: nat, q: Submission, now: int): Result<State> {
    var _ :- if q.disabled.Some? then Raised(q.disabled.value) else Ok(true);
    var scopes := Scopes(SpecOf(cfg, q, None, now));
    var c1 :- ReservePending(cfg, s.counters, scopes);
    var c2 :- ReserveCost(cfg, c1, Day(now), EstimatedCost(cfg, q.jobType));
    var charge :- QuotaFor(cfg, q, Day(now));
    var quotas :- ChargeQuota(s.quotas, charge);
    Ok(s.(jobs := s.jobs[id := NewRecord(SpecOf(cfg, q, charge, now))], counters := c2, quotas := quotas))
  }

  ghost function Submit(cfg: Settings, s: State, id: nat, q: Submission, now: int): Outcome {
    if q.refusal.Some? then
      Outcome(s, Refused(q.refusal.value))
    else
      var existing := FindByKey(s.jobs, KeyOf(q));
      if existing.Some? then
        if s.jobs[existing.value].spec.fingerprint != q.fingerprint then Outcome(s, Refused(409))
        else Outcome(s, Existing(existing.value))
      else
        match CreateJob(cfg, s, id, q, now)
        case Raised(code) => Outcome(s, Refused(code))
        case Ok(s') => Outcome(s', Created(id))
  }

  // ---- worker requests on a lease ----

  datatype LeaseRequest = LeaseRequest(worker: string, types: set<JobType>, job: nat, generation: nat, token: nat)

  datatype LeaseCheck = Denied(code: nat) | AuthorizationLost | Granted

  // _validate_lease
  function ValidateLease(s: State, q: LeaseRequest, env: Env): LeaseCheck {
    if q.job !in s.jobs || s.jobs[q.job].deletedAt.Some? || s.jobs[q.job].spec.jobType !in q.types then
      Denied(404)
    else
      var r := s.jobs[q.job];
      if r.leasedBy != Some(q.worker) || r.leaseGeneration != q.generation || r.tokenHash != Some(HashOf(q.token))
         || r.leaseExpiresAt.None? || r.leaseExpiresAt.value <= env.now
      then
        Denied(409)
      else if AttemptIndex(r.attempts, r.leaseGeneration).None? then
        Denied(409)
      else if q.job in env.revoked then
        AuthorizationLost
      else
        Granted
  }

  datatype Verdict = ResultAccepted | ResultInvalid | DocumentRejected

  datatype Call =
    | StartCall
    | HeartbeatCall
    | ProgressCall(sensitive: bool)
    | CompleteCall(verdict: Verdict, payload: string)
    | FailCall(category: Category)
    | ReleaseCall

  function DelayFor(cfg: Settings, r: Record, id: nat): nat {
    RetryDelay(cfg, r.attemptCount, if (id, r.attemptCount) in cfg.jitter then cfg.jitter[(id, r.attemptCount)] else 0)
  }

  // The change a request with a valid lease makes, or the error it raises.
  function OpForCall(cfg: Settings, r: Record, id: nat, call: Call, env: Env): Result<RowOp> {
    match call
    case StartCall => if r.status != Leased then Raised(409) else Ok(Start)
    case HeartbeatCall => if r.status !in {Leased, Running} then Raised(409) else Ok(Heartbeat)
    case ProgressCall(sensitive) =>
      if r.status != Running then Raised(409) else if sensitive then Raised(422) else Ok(Progress)
    case CompleteCall(verdict, payload) =>
      if r.status != Running then Raised(409)
      else if verdict == ResultInvalid then Raised(422)
      else if verdict == DocumentRejected && r.spec.jobType in {DocumentIngest, DocumentEmbed}
      then Ok(Bury(AttemptDeadLetter, SessionOf(env, id)))
      else Ok(Complete(payload, SessionOf(env, id)))
    case FailCall(category) =>
      if r.status == CancelRequested then Ok(CancelLeased(SessionOf(env, id), true))
      else if r.status !in {Leased, Running} then Raised(409)
      else if category !in AcceptedCategories(r.spec.jobType) then Raised(422)
      else
        var uncertain := category == UncertainExternalSideEffect;
        if (category in RetryableCategories(r.spec.jobType) || uncertain)
           && r.attemptCount < r.spec.maxAttempts && DeadlineAllowsRetry(r, env.now)
        then Ok(Requeue(AttemptRetryWait, uncertain, DelayFor(cfg, r, id)))
        else Ok(Bury(AttemptDeadLetter, SessionOf(env, id)))
    case ReleaseCall =>
      if r.status == CancelRequested then Ok(CancelLeased(SessionOf(env, id), true))
      else if r.status !in {Leased, Running} then Raised(409)
      else Ok(Requeue(AttemptReleased, false, DelayFor(cfg, r, id)))
  }

  // Losing authorization is the one refusal that commits a change.
  function WorkerCall(cfg: Settings, s: State, q: LeaseRequest, call: Call, env: Env): Outcome {
    match ValidateLease(s, q, env)
    case Denied(code) => Outcome(s, Refused(code))
    case AuthorizationLost =>
      if s.jobs[q.job].status !in {Leased, Running} then Outcome(s, Refused(409))
      else
        (match ApplyOp(cfg, s, q.job, RequestCancel, env.now)
         case Raised(code) => Outcome(s, Refused(code))
         case Ok(s') => Outcome(s', Refused(409)))
    case Granted =>
      match OpForCall(cfg, s.jobs[q.job], q.job, call, env)
      case Raised(code) => Outcome(s, Refused(code))
      case Ok(op) =>
        match ApplyOp(cfg, s, q.job, op, env.now)
        case Raised(code) => Outcome(s, Refused(code))
        case Ok(s') => Outcome(s', Done)
  }

  // ---- cancel_job ----

  function CancelJob(cfg: Settings, s: State, id: nat, allowed: bool, env: Env): Outcome {
    if id !in s.jobs || s.jobs[id].deletedAt.Some? || !allowed then
      Outcome(s, Refused(404))
    else
      var r := s.jobs[id];
      if Terminal(r.status) || (r.status == CancelRequested && r.leasedBy.Some?) then
        Outcome(s, Done)
      else
        match ApplyOp(cfg, s, id, if r.leasedBy.None? then CancelPending else RequestCancel, env.now)
        case Raised(code) => Outcome(s, Refused(code))
        case Ok(s') => Outcome(s', Done)
  }

  // ---- passes over many jobs ----

  datatype Pass =
    | RecoverExpired
    | RevokeAuthorization
    | DisposeAccount
    | RevalidateAuthorization
    | ScanWindow(worker: string, types: set<JobType>)

  // The query of recover_expired_jobs.
  predicate Expired(r: Record, now: int) {
    && r.deletedAt.None?
    && ((Held(r.status) && r.leaseExpiresAt.Some? && r.leaseExpiresAt.value <= now)
        || (Pending(r.status) && r.spec.queueExpiresAt.Some? && r.spec.queueExpiresAt.value <= now))
  }

  function RecoverOp(cfg: Settings, id: nat, r: Record, env: Env): RowOp {
    if Pending(r.status) then
      FailPending(false)
    else if r.status == CancelRequested then
      CancelLeased(SessionOf(env, id), AttemptIndex(r.attempts, r.leaseGeneration).Some?)
    else if r.attemptCount >= r.spec.maxAttempts || !DeadlineAllowsRetry(r, env.now) then
      Bury(LeaseExpiredDeadLetter, SessionOf(env, id))
    else
      Requeue(LeaseExpiredRetry, false, DelayFor(cfg, r, id))
  }

  // _worker_can_execute
  predicate CanExecute(cfg: Settings, worker: string, types: set<JobType>, r: Record) {
    && worker in cfg.workers
    && r.spec.jobType in types && r.spec.jobType in cfg.workers[worker].allowedTypes
    && (cfg.workers[worker].organization.None? || cfg.workers[worker].organization == r.spec.organization)
  }

  // What a pass does to a job it comes to; None when it leaves the job alone.
  function Decide(cfg: Settings, pass: Pass, id: nat, r: Record, env: Env): Option<RowOp> {
    match pass
    case RecoverExpired =>
      if Expired(r, env.now) then Some(RecoverOp(cfg, id, r, env)) else None
    case RevokeAuthorization =>
      if r.deletedAt.Some? then None
      else if Pending(r.status) then Some(FailPending(false))
      else if r.status in {Leased, Running} then Some(RequestCancel)
      else None
    case DisposeAccount =>
      if r.deletedAt.Some? then None
      else if Terminal(r.status) then Some(MarkDeleted)
      else if r.status in {Leased, Running} then Some(RequestCancel)
      else Some(FailPending(true))
    case RevalidateAuthorization =>
      if r.deletedAt.Some? || Terminal(r.status) then None
      else if id in env.revoked && Pending(r.status) then Some(FailPending(false))
      else if id in env.revoked && r.status in {Leased, Running} then Some(RequestCancel)
      else if r.status == CancelRequested && r.leasedBy.None? then Some(CancelLeased(SessionOf(env, id), false))
      else None
    case ScanWindow(worker, types) =>
      if !CanExecute(cfg, worker, types, r) then None
      else if id in env.unsupported || id in env.revoked then Some(FailPending(false))
      else None
  }

  function PassOne(cfg: Settings, s: State, pass: Pass, id: nat, env: Env): Result<State> {
    if id !in s.jobs then Ok(s)
    else
      match Decide(cfg, pass, id, s.jobs[id], env)
      case None => Ok(s)
      case Some(op) => ApplyOp(cfg, s, id, op, env.now)
  }

  function RunPass(cfg: Settings, s: State, pass: Pass, order: seq<nat>, env: Env): Result<State>
    decreases |order|
  {
    if order == [] then
      Ok(s)
    else
      var s' :- PassOne(cfg, s, pass, order[0], env);
      RunPass(cfg, s', pass, order[1..], env)
  }

  // A pass over the jobs of a deleted account or a changed membership; what a
  // raised pass did is rolled back.
  function WholePass(cfg: Settings, s: State, pass: Pass, order: seq<nat>, env: Env): Outcome {
    match RunPass(cfg, s, pass, order, env)
    case Raised(code) => Outcome(s, Refused(code))
    case Ok(s') => Outcome(s', Done)
  }

  // ---- claim_next_job ----

  // The query behind the scan window.
  predicate Claimable(r: Record, now: int) {
    && r.deletedAt.None? && Pending(r.status) && r.availableAt <= now
    && (r.spec.queueExpiresAt.Some? ==> r.spec.queueExpiresAt.value > now)
    && (r.spec.deadlineAt.Some? ==> r.spec.deadlineAt.value > now)
  }

  // The order of the scan window: priority class, availability, age, id.
  predicate ScanBefore(jobs: map<nat, Record>, a: nat, b: nat)
    requires a in jobs && b in jobs
  {
    var x, y := jobs[a], jobs[b];
    if x.spec.admin != y.spec.admin then x.spec.admin
    else if x.availableAt != y.availableAt then x.availableAt < y.availableAt
    else if x.spec.createdAt != y.spec.createdAt then x.spec.createdAt < y.spec.createdAt
    else a < b
  }

  // The first scanLimit claimable jobs in that order.
  ghost predicate IsScanWindow(cfg: Settings, jobs: map<nat, Record>, window: seq<nat>, now: int) {
    && (forall i :: 0 <= i < |window| ==> window[i] in jobs && Claimable(jobs[window[i]], now))
    && (forall i, j :: 0 <= i < j < |window| ==> ScanBefore(jobs, window[i], window[j]))
    && |window| <= cfg.scanLimit
    && (forall id :: id in jobs && Claimable(jobs[id], now) && id !in window ==>
         |window| == cfg.scanLimit && forall i :: 0 <= i < |window| ==> ScanBefore(jobs, window[i], id))
  }

  // _active_worker_jobs
  function WorkerJobs(jobs: map<nat, Record>, worker: string): set<nat> {
    set id | id in jobs && jobs[id].leasedBy == Some(worker) && Held(jobs[id].status)
  }

  // _tenant_running_score and the tie-breaks of the final pick.
  predicate PickBefore(s: State, a: nat, b: nat)
    requires a in s.jobs && b in s.jobs
  {
    var x, y := s.jobs[a], s.jobs[b];
    if UserRunning(s, x) != UserRunning(s, y) then UserRunning(s, x) < UserRunning(s, y)
    else if OrganizationRunning(s, x) != OrganizationRunning(s, y) then OrganizationRunning(s, x) < OrganizationRunning(s, y)
    else if x.availableAt != y.availableAt then x.availableAt < y.availableAt
    else if x.spec.createdAt != y.spec.createdAt then x.spec.createdAt < y.spec.createdAt
    else a < b
  }

  function UserRunning(s: State, r: Record): nat {
    Get(s.counters, UserScope(r.spec.owner)).running
  }

  function OrganizationRunning(s: State, r: Record): nat {
    if r.spec.organization.Some? then Get(s.counters, OrganizationScope(r.spec.organization.value)).running else 0
  }

  function Pick(s: State, eligible: seq<nat>): (best: nat)
    requires eligible != []
    requires forall id :: id in eligible ==> id in s.jobs
    ensures best in eligible
  {
    if |eligible| == 1 then eligible[0]
    else
      var rest := Pick(s, eligible[1..]);
      if PickBefore(s, rest, eligible[0]) then rest else eligible[0]
  }

  function Eligible(cfg: Settings, s: State, worker: string, types: set<JobType>, window: seq<nat>, env: Env): (ids: seq<nat>)
    ensures forall id :: id in ids ==>
      id in s.jobs && id in window && CanExecute(cfg, worker, types, s.jobs[id]) && id !in env.unsupported && id !in env.revoked
  {
    if window == [] then []
    else
      var id := window[0];
      (if id in s.jobs && CanExecute(cfg, worker, types, s.jobs[id]) && id !in env.unsupported && id !in env.revoked
       then [id] else []) + Eligible(cfg, s, worker, types, window[1..], env)
  }

  datatype ClaimRequest = ClaimRequest(worker: string, types: set<JobType>, token: nat, expired: seq<nat>, window: seq<nat>)

  // The part of a claim after the scan. Raising here would roll everything back.
  function ClaimPicked(cfg: Settings, s: State, id: nat, q: ClaimRequest, env: Env): Result<Outcome>
    requires id in s.jobs
  {
    var r := s.jobs[id];
    match MoveToRunning(cfg, s.counters, Scopes(r.spec))
    case SlotsRefused(c, _) => Ok(Outcome(s.(counters := c), NothingToClaim))
    case SlotsTaken(c) =>
      if LeaseDeadline(cfg, r, env.now, Some(AttemptHorizon(cfg, r, env.now))) <= env.now then
        var s' :- ApplyOp(cfg, s.(counters := c), id, FailPending(false), env.now);
        Ok(Outcome(s', NothingToClaim))
      else
        var s' :- ApplyOp(cfg, s, id, Lease(q.worker, q.token), env.now);
        Ok(Outcome(s'.(tickets := s.tickets[q.token := Ticket(id, r.leaseGeneration + 1)]),
                   Claimed(id, r.leaseGeneration + 1, q.token)))
  }

  function PickOne(cfg: Settings, s: State, q: ClaimRequest, env: Env): Result<Outcome> {
    var eligible := Eligible(cfg, s, q.worker, q.types, q.window, env);
    if eligible == [] then Ok(Outcome(s, NothingToClaim))
    else ClaimPicked(cfg, s, Pick(s, eligible), q, env)
  }

  function ScanAndPick(cfg: Settings, s: State, q: ClaimRequest, env: Env): Result<Outcome>
    requires q.worker in cfg.workers
  {
    if |WorkerJobs(s.jobs, q.worker)| >= cfg.workers[q.worker].maxConcurrency then
      Ok(Outcome(s, NothingToClaim))
    else
      var scanned :- RunPass(cfg, s, ScanWindow(q.worker, q.types), q.window, env);
      PickOne(cfg, scanned, q, env)
  }

  function ClaimAll(cfg: Settings, s: State, q: ClaimRequest, env: Env): Result<Outcome>
    requires q.worker in cfg.workers
  {
    var recovered :- RunPass(cfg, s, RecoverExpired, q.expired, env);
    ScanAndPick(cfg, recovered, q, env)
  }

  function Claim(cfg: Settings, s: State, q: ClaimRequest, env: Env): Outcome {
    if q.worker !in cfg.workers then
      Outcome(s, Refused(401))
    else
      match ClaimAll(cfg, s, q, env)
      case Raised(code) => Outcome(s, Refused(code))
      case Ok(outcome) => outcome
  }

  // ---- recover_durable_jobs ----

  // The recount that _reconcile_capacity makes over the job rows.
  predicate CountsPending(r: Record) {
    r.deletedAt.None? && (Pending(r.status) || (r.status == CancelRequested && r.leasedBy.None?))
  }

  predicate CountsRunning(r: Record) {
    r.deletedAt.None? && Held(r.status) && !CountsPending(r)
  }

  function PendingIds(jobs: map<nat, Record>, k: Scope): set<nat> {
    set id | id in jobs && CountsPending(jobs[id]) && k in Scopes(jobs[id].spec)
  }

  function RunningIds(jobs: map<nat, Record>, k: Scope): set<nat> {
    set id | id in jobs && CountsRunning(jobs[id]) && k in Scopes(jobs[id].spec)
  }

  // The provider spend of a day over all jobs.
  ghost function Spend(jobs: map<nat, Record>, day: int): nat
    decreases |jobs|
  {
    if jobs == map[] then 0
    else
      var id :| id in jobs;
      Contribution(jobs[id], day) + Spend(jobs - {id}, day)
  }

  // _rebuild_provider_cost_reservations
  function RebuildCost(r: Record, now: int): Record {
    if r.spec.jobType != VastSessionStart || r.cost.Some? then r
    else
      var status := if r.status == Completed then CostCompleted
                    else if r.reservedCost == 0 then CostReleased
                    else if Held(r.status) then CostRunning else CostReserved;
      r.(cost := Some(CostRow(Day(now), r.reservedCost, r.actualCost, status)))
  }

  function RebuildCosts(jobs: map<nat, Record>, now: int): map<nat, Record> {
    map id | id in jobs :: RebuildCost(jobs[id], now)
  }

  // The scopes some active job uses, and the global row.
  function UsedScopes(jobs: map<nat, Record>): set<Scope> {
    {GlobalScope} +
    set id, k | id in jobs && (CountsPending(jobs[id]) || CountsRunning(jobs[id])) && k in Scopes(jobs[id].spec) :: k
  }

  // The value _reconcile_capacity leaves in a row, given the row it finds.
  ghost function Recounted(jobs: map<nat, Record>, k: Scope, found: Counter, now: int): Counter {
    var pending, running := |PendingIds(jobs, k)|, |RunningIds(jobs, k)|;
    if k == GlobalScope then Counter(pending, running, Spend(jobs, Day(now)), Some(Day(now)))
    else found.(pending := pending, running := running)
  }

  // The comparison that decides whether a row is adjusted. A row of any other
  // scope is compared with a cost of zero, although it is never written.
  ghost predicate NeedsAdjusting(jobs: map<nat, Record>, k: Scope, found: Counter, now: int) {
    || found.pending != |PendingIds(jobs, k)|
    || found.running != |RunningIds(jobs, k)|
    || found.cost != (if k == GlobalScope then Spend(jobs, Day(now)) else 0)
    || (k == GlobalScope && found.period != Some(Day(now)))
  }

  ghost function Reconcile(s: State, now: int): State {
    var jobs := RebuildCosts(s.jobs, now);
    s.(jobs := jobs,
       counters := map k | k in s.counters.Keys + UsedScopes(jobs) :: Recounted(jobs, k, Get(s.counters, k), now))
  }

  // The number of rows adjusted. Rows created on the way start at zero, the
  // global one already in today's period.
  ghost function Adjusted(s: State, now: int): nat {
    var jobs := RebuildCosts(s.jobs, now);
    |set k | k in s.counters.Keys + UsedScopes(jobs) && NeedsAdjusting(jobs, k, FoundRow(s.counters, k, now), now)|
  }

  function FoundRow(c: Counters, k: Scope, now: int): Counter {
    if k in c then c[k] else if k == GlobalScope then Counter(0, 0, 0, Some(Day(now))) else ZERO
  }

  ghost function RecoverDurable(cfg: Settings, s: State, expired: seq<nat>, active: seq<nat>, dryRun: bool, env: Env): Outcome {
    match RunPass(cfg, s, RecoverExpired, expired, env)
    case Raised(code) => Outcome(s, Refused(code))
    case Ok(s1) =>
      match RunPass(cfg, s1, RevalidateAuthorization, active, env)
      case Raised(code) => Outcome(s, Refused(code))
      case Ok(s2) => Outcome(if dryRun then s else Reconcile(s2, env.now), Done)
  }

  // ---- runs ----

  datatype Action =
    | Submitting(id: nat, submission: Submission)
    | Claiming(claim: ClaimRequest)
    | Consuming(key: QuotaKey, limit: nat, amount: nat)
    | Calling(request: LeaseRequest, call: Call)
    | Cancelling(id: nat, allowed: bool)
    | Revoking(order: seq<nat>)
    | Disposing(order: seq<nat>)
    | Recovering(expired: seq<nat>, active: seq<nat>, dryRun: bool)

  datatype Step = Step(env: Env, action: Action)

  // Job ids and lease tokens are freshly generated, the scan window is the
  // answer to its query, and only schedules draw on watchlist quotas.
  ghost predicate Enabled(cfg: Settings, s: State, step: Step) {
    match step.action
    case Submitting(id, _) => id !in s.jobs
    case Claiming(q) =>
      && q.token !in s.tickets
      && var recovered := RunPass(cfg, s, RecoverExpired, q.expired, step.env);
         (recovered.Ok? ==> IsScanWindow(cfg, recovered.value.jobs, q.window, step.env.now))
    case Consuming(key, _, _) => key.action == AnalysisQuota
    case _ => true
  }

  ghost function Perform(cfg: Settings, s: State, step: Step): Outcome {
    var env := step.env;
    match step.action
    case Submitting(id, submission) => Submit(cfg, s, id, submission, env.now)
    case Claiming(q) => Claim(cfg, s, q, env)
    case Consuming(key, limit, amount) => ConsumeQuota(s, key, limit, amount)
    case Calling(request, call) => WorkerCall(cfg, s, request, call, env)
    case Cancelling(id, allowed) => CancelJob(cfg, s, id, allowed, env)
    case Revoking(order) => WholePass(cfg, s, RevokeAuthorization, order, env)
    case Disposing(order) => WholePass(cfg, s, DisposeAccount, order, env)
    case Recovering(expired, active, dryRun) => RecoverDurable(cfg, s, expired, active, dryRun, env)
  }

  // A run: every step is enabled where it happens.
  ghost predicate IsRun(cfg: Settings, s: State, steps: seq<Step>)
    decreases |steps|
  {
    steps == [] || (Enabled(cfg, s, steps[0]) && IsRun(cfg, Perform(cfg, s, steps[0]).state, steps[1..]))
  }

  ghost function After(cfg: Settings, s: State, steps: seq<Step>): State
    decreases |steps|
  {
    if steps == [] then s else After(cfg, Perform(cfg, s, steps[0]).state, steps[1..])
  }
}
