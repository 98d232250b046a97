// One job and the rows that carry its id (job_attempts, job_events,
// provider_cost_reservations), with every change a request makes to them.
// jobs/state.py, and the row part of jobs/worker_protocol.py,
// jobs/control_service.py and jobs/lifecycle.py.

module JobRows {
  import opened Outcomes
  import opened JobRegistry
  import opened JobStatusMachine

  const DAY := 86400

  // _day_window: the UTC day a time falls in.
  function Day(now: int): int {
    now / DAY
  }

  // A lease token is a fresh secret; its keyed hash is taken to be injective.
  datatype TokenHash = HashOf(token: nat)

  datatype AttemptOutcome =
    | AttemptLeased
    | AttemptRunning
    | AttemptCompleted
    | AttemptRetryWait
    | AttemptDeadLetter
    | AttemptReleased
    | AttemptCancelled
    | LeaseExpiredRetry
    | LeaseExpiredDeadLetter

  datatype Attempt = Attempt(
    number: nat, generation: nat, worker: string,
    startedAt: Option<int>, maxLeaseExpiresAt: Option<int>,
    outcome: AttemptOutcome, endedAt: Option<int>)

  datatype CostStatus = CostReserved | CostRunning | CostCompleted | CostReleased | CostReconciliation

  datatype CostRow = CostRow(period: int, reserved: nat, actual: nat, status: CostStatus)

  datatype JobResult = JobResult(worker: string, generation: nat, payload: string)

  datatype IdempotencyKey = IdempotencyKey(forOrganization: bool, subject: string, jobType: JobType, key: string)

  datatype QuotaAction = AnalysisQuota | WatchlistQuota

  datatype QuotaKey = QuotaKey(user: string, action: QuotaAction, day: int)

  // The columns written once, when the job is submitted.
  datatype JobSpec = JobSpec(
    jobType: JobType, owner: string, organization: Option<string>, admin: bool,
    idempotency: IdempotencyKey, fingerprint: string,
    maxAttempts: nat, createdAt: int,
    queueExpiresAt: Option<int>, deadlineAt: Option<int>,
    estimatedCost: nat, charged: Option<QuotaKey>)

  datatype Record = Record(
    spec: JobSpec, status: Status,
    attemptCount: nat, leaseGeneration: nat,
    leasedBy: Option<string>, tokenHash: Option<TokenHash>, leaseExpiresAt: Option<int>,
    availableAt: int,
    reservedCost: nat, actualCost: nat,
    result: Option<JobResult>,
    startedAt: Option<int>, cancelRequestedAt: Option<int>,
    completedAt: Option<int>, failedAt: Option<int>, deletedAt: Option<int>,
    attempts: seq<Attempt>, events: seq<Event>, cost: Option<CostRow>)

  // What the provider session of a job looks like when its cost is settled.
  datatype RequestState = NoRequestState | RequestNotSubmitted | SubmittedUnknown | ReconciliationFailed | RequestConfirmed

  datatype Session = Session(found: bool, requestState: RequestState, hasInstance: bool, hourlyMicrousd: nat)

  // ---- transition_job ----

  function Transition(r: Record, target: Status, now: int): Result<Record> {
    if Terminal(r.status) || target !in Allowed(r.status) then
      Raised(500)
    else
      Ok(r.(status := target,
            startedAt := if target == Running && r.startedAt.None? then Some(now) else r.startedAt,
            cancelRequestedAt := if target == CancelRequested && r.cancelRequestedAt.None? then Some(now) else r.cancelRequestedAt,
            completedAt := if target == Completed then Some(now)
                           else if target in {Failed, DeadLetter} then None else r.completedAt,
            failedAt := if target in {Failed, DeadLetter} then Some(now)
                        else if target == Completed then None else r.failedAt,
            events := Append(r.events, Moved(r.status, target))))
  }

  // ---- lease and retry arithmetic ----

  // _attempt_max_lease_horizon
  function AttemptHorizon(cfg: Settings, r: Record, now: int): int {
    var horizon := now + HorizonSeconds(cfg, r.spec.jobType);
    if r.spec.deadlineAt.Some? then Min(horizon, r.spec.deadlineAt.value) else horizon
  }

  // _lease_deadline
  function LeaseDeadline(cfg: Settings, r: Record, now: int, maxHorizon: Option<int>): int {
    var proposed := now + cfg.leaseSeconds;
    var capped := if maxHorizon.Some? then Min(proposed, maxHorizon.value) else proposed;
    if r.spec.deadlineAt.Some? then Min(capped, r.spec.deadlineAt.value) else capped
  }

  // _deadline_allows_retry
  predicate DeadlineAllowsRetry(r: Record, now: int) {
    r.spec.deadlineAt.Some? ==> r.spec.deadlineAt.value > now
  }

  function Power2(n: nat): nat {
    if n == 0 then 1 else 2 * Power2(n - 1)
  }

  // _retry_delay_seconds. The hash that picks the jitter is an input.
  function RetryDelay(cfg: Settings, attemptCount: nat, hash: nat): nat {
    var doubled := cfg.retryBase * Power2(if attemptCount == 0 then 0 else attemptCount - 1);
    var baseDelay := Min(cfg.retryMax, doubled);
    var jitterBound := Min(Max(cfg.retryBase, 1), 5);
    Min(cfg.retryMax, baseDelay + hash % jitterBound)
  }

  // ---- attempts ----

  // _attempt_for_lease: the row of the current generation.
  function AttemptIndex(attempts: seq<Attempt>, generation: nat): (i: Option<nat>)
    ensures i.Some? ==> i.value < |attempts| && attempts[i.value].generation == generation
  {
    if attempts == [] then
      None
    else if attempts[|attempts| - 1].generation == generation then
      Some(|attempts| - 1)
    else
      AttemptIndex(attempts[..|attempts| - 1], generation)
  }

  function EndAttempt(r: Record, outcome: AttemptOutcome, now: int): seq<Attempt> {
    var i := AttemptIndex(r.attempts, r.leaseGeneration);
    if i.None? then r.attempts
    else r.attempts[i.value := r.attempts[i.value].(outcome := outcome, endedAt := Some(now))]
  }

  // _clear_lease
  function ClearLease(r: Record): Record {
    r.(leasedBy := None, tokenHash := None, leaseExpiresAt := None)
  }

  // ---- provider cost ----

  // A change to the budget counter of the global capacity row.
  datatype Refund = NoRefund | IfPeriodIsToday(amount: nat) | Always(amount: nat)

  datatype Settled = Settled(record: Record, refund: Refund, releasesPending: bool)

  // _release_unused_cost_reservation
  function ReleaseCost(r: Record): (Record, Refund) {
    if r.reservedCost == 0 then
      (r, NoRefund)
    else
      (r.(reservedCost := 0,
          cost := if r.cost.Some? && r.cost.value.status !in {CostCompleted, CostReleased}
                  then Some(r.cost.value.(status := CostReleased, reserved := 0)) else r.cost),
       IfPeriodIsToday(r.reservedCost))
  }

  // The settled price of one session: never more than the estimate.
  function SessionCost(cfg: Settings, r: Record, session: Session): nat {
    Min(r.spec.estimatedCost, session.hourlyMicrousd * cfg.vastMinutes / 60)
  }

  // _finalize_provider_cost
  function FinalizeCost(cfg: Settings, r: Record, session: Session): Settled {
    if r.spec.jobType != VastSessionStart || r.cost.None? || r.cost.value.status == CostCompleted then
      Settled(r, NoRefund, false)
    else if !session.found || session.requestState in {NoRequestState, RequestNotSubmitted} then
      var (released, refund) := ReleaseCost(r);
      Settled(released, refund, true)
    else if session.requestState in {SubmittedUnknown, ReconciliationFailed} || !session.hasInstance then
      Settled(r.(cost := Some(r.cost.value.(status := CostReconciliation))), NoRefund, false)
    else
      var actual := if r.actualCost != 0 then r.actualCost else SessionCost(cfg, r, session);
      var unused := if r.reservedCost > actual then r.reservedCost - actual else 0;
      Settled(r.(actualCost := actual, reservedCost := 0,
                 cost := Some(r.cost.value.(reserved := 0, actual := actual, status := CostCompleted))),
              if unused == 0 then NoRefund else Always(unused), false)
  }

  // What a job counts for in the provider spend of a day.
  function Contribution(r: Record, day: int): nat {
    if r.cost.None? || r.cost.value.period != day then 0
    else match r.cost.value.status
      case CostReleased => 0
      case CostCompleted => r.cost.value.actual
      case _ => r.cost.value.reserved
  }

  // ---- what a request does to the rows of one job ----

  // The steps a request makes on the capacity counters of the job's scopes.
  datatype Move = ToRunning | ToPending | ReleasePending | ReleaseRunning

  datatype Effect = Effect(record: Record, moves: seq<Move>, refund: Refund)

  datatype RowOp =
    | Lease(worker: string, token: nat)
    | Start
    | Heartbeat
    | Progress
    | Complete(payload: string, session: Session)
    | FailPending(delete: bool)
    | RequestCancel
    | CancelLeased(session: Session, hasAttempt: bool)
    | Bury(outcome: AttemptOutcome, session: Session)
    | Requeue(outcome: AttemptOutcome, uncertain: bool, delay: nat)
    | CancelPending
    | MarkDeleted

  function ApplyRow(cfg: Settings, r: Record, op: RowOp, now: int): Result<Effect> {
    match op
    case Lease(worker, token) => LeaseRow(cfg, r, worker, token, now)
    case Start => StartRow(r, now)
    case Heartbeat => HeartbeatRow(cfg, r, now)
    case Progress => ProgressRow(r)
    case Complete(payload, session) => CompleteRow(cfg, r, payload, session, now)
    case FailPending(delete) => FailPendingRow(r, delete, now)
    case RequestCancel => RequestCancelRow(r, now)
    case CancelLeased(session, hasAttempt) => CancelLeasedRow(cfg, r, session, hasAttempt, now)
    case Bury(outcome, session) => BuryRow(cfg, r, outcome, session, now)
    case Requeue(outcome, uncertain, delay) => RequeueRow(r, outcome, uncertain, delay, now)
    case CancelPending => CancelPendingRow(r, now)
    case MarkDeleted => Ok(Effect(r.(deletedAt := Some(now)), [], NoRefund))
  }

  // What every call site has checked before it makes the change.
  predicate Fits(r: Record, op: RowOp) {
    match op
    case FailPending(_) => !(r.status in {Leased, Running})
    case RequestCancel => r.status in {Leased, Running}
    case CancelLeased(_, hasAttempt) => r.status == CancelRequested && hasAttempt
    case Bury(outcome, _) => r.status in {Leased, Running} && outcome != AttemptReleased
    case Requeue(outcome, _, _) => r.status in {Leased, Running} && (outcome == AttemptReleased || r.attemptCount < r.spec.maxAttempts)
    case CancelPending => Pending(r.status)
    case MarkDeleted => Terminal(r.status)
    case _ => true
  }

  // claim_next_job, from the capacity move on.
  function LeaseRow(cfg: Settings, r: Record, worker: string, token: nat, now: int): Result<Effect> {
    var horizon := AttemptHorizon(cfg, r, now);
    var generation := r.leaseGeneration + 1;
    var moved :- Transition(r, Leased, now);
    Ok(Effect(
      moved.(leaseGeneration := generation, leasedBy := Some(worker), tokenHash := Some(HashOf(token)),
             leaseExpiresAt := Some(LeaseDeadline(cfg, r, now, Some(horizon))),
             attemptCount := r.attemptCount + 1,
             attempts := r.attempts + [Attempt(r.attemptCount + 1, generation, worker, None, Some(horizon), AttemptLeased, None)],
             cost := if r.cost.Some? && r.cost.value.status == CostReserved
                     then Some(r.cost.value.(status := CostRunning)) else r.cost),
      [ToRunning], NoRefund))
  }

  // start_job
  function StartRow(r: Record, now: int): Result<Effect> {
    var i := AttemptIndex(r.attempts, r.leaseGeneration);
    if i.None? || r.status != Leased then
      Raised(409)
    else
      var moved :- Transition(r, Running, now);
      var attempt := r.attempts[i.value];
      Ok(Effect(moved.(attempts := r.attempts[i.value := attempt.(startedAt := Some(now), outcome := AttemptRunning)]), [], NoRefund))
  }

  // heartbeat_job
  function HeartbeatRow(cfg: Settings, r: Record, now: int): Result<Effect> {
    var i := AttemptIndex(r.attempts, r.leaseGeneration);
    if i.None? || r.status !in {Leased, Running} then
      Raised(409)
    else
      var expires := LeaseDeadline(cfg, r, now, r.attempts[i.value].maxLeaseExpiresAt);
      if expires <= now then
        Raised(409)
      else
        Ok(Effect(r.(leaseExpiresAt := Some(expires), events := Append(r.events, HeartbeatSeen)), [], NoRefund))
  }

  // report_progress
  function ProgressRow(r: Record): Result<Effect> {
    if r.status != Running then Raised(409)
    else Ok(Effect(r.(events := Append(r.events, ProgressSeen)), [], NoRefund))
  }

  // complete_job, on a result its job type accepts.
  function CompleteRow(cfg: Settings, r: Record, payload: string, session: Session, now: int): Result<Effect> {
    if r.status != Running || r.leasedBy.None? then
      Raised(409)
    else if r.spec.jobType == VastSessionStart && !session.found then
      Raised(409)
    else
      var priced := if r.spec.jobType != VastSessionStart then r else
                      var actual := SessionCost(cfg, r, session);
                      r.(actualCost := actual,
                         cost := if r.cost.Some? then Some(r.cost.value.(actual := actual, status := CostCompleted)) else None);
      var moved :- Transition(priced, Completed, now);
      Ok(Effect(
        ClearLease(moved.(result := Some(JobResult(r.leasedBy.value, r.leaseGeneration, payload)),
                          attempts := EndAttempt(r, AttemptCompleted, now))),
        [ReleaseRunning], NoRefund))
  }

  // _fail_revoked_job, _fail_unsupported_schema_job, _expire_queued_job, and the
  // "failed" branches of lifecycle.py, which also tombstone a disposed job.
  function FailPendingRow(r: Record, delete: bool, now: int): Result<Effect> {
    var moved :- Transition(r, Failed, now);
    var (released, refund) := ReleaseCost(moved);
    Ok(Effect(if delete then released.(deletedAt := Some(now)) else released, [ReleasePending], refund))
  }

  function RequestCancelRow(r: Record, now: int): Result<Effect> {
    var moved :- Transition(r, CancelRequested, now);
    Ok(Effect(moved, [], NoRefund))
  }

  // _cancel_leased_job, given the attempt of the current lease or none.
  function CancelLeasedRow(cfg: Settings, r: Record, session: Session, hasAttempt: bool, now: int): Result<Effect> {
    var settled := FinalizeCost(cfg, r, session);
    var moved :- Transition(settled.record, Cancelled, now);
    Ok(Effect(ClearLease(moved.(attempts := if hasAttempt then EndAttempt(r, AttemptCancelled, now) else r.attempts)),
              if settled.releasesPending then [ReleasePending, ReleaseRunning] else [ReleaseRunning],
              settled.refund))
  }

  // The dead-letter branches of fail_job, complete_job and recover_expired_jobs.
  function BuryRow(cfg: Settings, r: Record, outcome: AttemptOutcome, session: Session, now: int): Result<Effect> {
    var settled := FinalizeCost(cfg, r, session);
    var moved :- Transition(settled.record, DeadLetter, now);
    Ok(Effect(ClearLease(moved.(attempts := EndAttempt(r, outcome, now))),
              if settled.releasesPending then [ReleasePending, ReleaseRunning] else [ReleaseRunning],
              settled.refund))
  }

  // The retry branches of fail_job, release_job and recover_expired_jobs.
  function RequeueRow(r: Record, outcome: AttemptOutcome, uncertain: bool, delay: nat, now: int): Result<Effect> {
    var moved :- Transition(r, RetryWait, now);
    Ok(Effect(ClearLease(moved.(attempts := EndAttempt(r, outcome, now),
                                cost := if uncertain && r.cost.Some?
                                        then Some(r.cost.value.(status := CostReconciliation)) else r.cost,
                                availableAt := now + delay)),
              [ToPending], NoRefund))
  }

  // cancel_job on a job no worker holds: two transitions in one request.
  function CancelPendingRow(r: Record, now: int): Result<Effect> {
    var requested :- if r.status == CancelRequested then Ok(r) else Transition(r, CancelRequested, now);
    var cancelled :- Transition(requested, Cancelled, now);
    var (released, refund) := ReleaseCost(cancelled);
    Ok(Effect(released, [ReleasePending], refund))
  }

  // The rows a submission adds.
  function NewRecord(spec: JobSpec): Record {
    Record(spec, Queued, 0, 0, None, None, None, spec.createdAt, spec.estimatedCost, 0, None,
           None, None, None, None, None, [], Append([], Accepted),
           if spec.jobType == VastSessionStart
           then Some(CostRow(Day(spec.createdAt), spec.estimatedCost, 0, CostReserved)) else None)
  }
}
