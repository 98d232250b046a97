// What each request makes of the columns of a job: the status it leaves, the lease,
// the attempt, the log, and the refusals. The statements name columns, statuses,
// categories and settings, not the functions that compute them.

module JobOutcomes {
  import opened Outcomes
  import opened JobRegistry
  import opened JobStatusMachine
  import opened JobRows
  import opened JobRowProofs
  import opened Capacity
  import opened JobProtocol
  import opened JobInvariants
  import opened JobTheorems
  import opened JobTraces
  import opened JobCapacityProofs

  // ---- who is served ----

  predicate Visible(s: State, q: LeaseRequest) {
    q.job in s.jobs && s.jobs[q.job].deletedAt.None? && s.jobs[q.job].spec.jobType in q.types
  }

  predicate HoldsLease(s: State, q: LeaseRequest, now: int)
    requires q.job in s.jobs
  {
    var r := s.jobs[q.job];
    && r.leasedBy == Some(q.worker) && r.leaseGeneration == q.generation && r.tokenHash == Some(HashOf(q.token))
    && r.leaseExpiresAt.Some? && now < r.leaseExpiresAt.value
  }

  // A request that quotes the live lease of a job its worker may see.
  predicate Served(s: State, q: LeaseRequest, env: Env) {
    Visible(s, q) && HoldsLease(s, q, env.now) && q.job !in env.revoked
  }

  lemma ServedIsGranted(s: State, q: LeaseRequest, env: Env)
    requires AllSound(s)
    ensures ValidateLease(s, q, env) ==
            if !Visible(s, q) then Denied(404)
            else if !HoldsLease(s, q, env.now) then Denied(409)
            else if q.job in env.revoked then AuthorizationLost
            else Granted
  {
    if q.job in s.jobs {
      CurrentAttempt(s.jobs[q.job]);
    }
  }

  // A request that is not served: 404 for a job its worker may not see, 409 for a
  // lease that is not its own or over, and for a job whose authorization was
  // lost. Only the last leaves a trace: a job under way is asked to stop.
  lemma UnservedIsRefused(cfg: Settings, s: State, q: LeaseRequest, call: Call, env: Env)
    requires AllSound(s) && !Served(s, q, env)
    ensures var outcome := WorkerCall(cfg, s, q, call, env);
            && outcome.reply == Refused(if Visible(s, q) then 409 else 404)
            && (if Visible(s, q) && HoldsLease(s, q, env.now) && s.jobs[q.job].status in {Leased, Running}
                then Writes(s, outcome.state, q.job) && CancelAsked(s.jobs[q.job], outcome.state.jobs[q.job], env.now)
                else outcome.state == s)
  {
    ServedIsGranted(s, q, env);
    if Visible(s, q) && HoldsLease(s, q, env.now) && s.jobs[q.job].status in {Leased, Running} {
      LostIsAsked(cfg, s, q, call, env);
    }
  }

  lemma LostIsAsked(cfg: Settings, s: State, q: LeaseRequest, call: Call, env: Env)
    requires q.job in s.jobs && Sound(s.jobs[q.job]) && s.jobs[q.job].status in {Leased, Running}
    requires ValidateLease(s, q, env) == AuthorizationLost
    ensures var outcome := WorkerCall(cfg, s, q, call, env);
            && outcome.reply == Refused(409)
            && Writes(s, outcome.state, q.job) && CancelAsked(s.jobs[q.job], outcome.state.jobs[q.job], env.now)
  {
    CancelAskedRow(cfg, s.jobs[q.job], env.now);
  }

  // ---- the rows ----

  // One job row is written; the other rows, the quotas and the tokens stay.
  ghost predicate Writes(s: State, s': State, id: nat) {
    && id in s.jobs && id in s'.jobs && s'.jobs == s.jobs[id := s'.jobs[id]]
    && s'.quotas == s.quotas && s'.tickets == s.tickets
  }

  // The log of r' is that of r and one line more.
  predicate Logs(r: Record, r': Record, body: EventBody) {
    r'.events == r.events + [Event(|r.events| + 1, body)]
  }

  // The last attempt is closed with an outcome, and the lease given up.
  predicate Closes(r: Record, r': Record, outcome: AttemptOutcome, now: int) {
    && r.attempts != []
    && r'.attempts == r.attempts[..|r.attempts| - 1] + [r.attempts[|r.attempts| - 1].(outcome := outcome, endedAt := Some(now))]
    && r'.leasedBy.None? && r'.tokenHash.None? && r'.leaseExpiresAt.None?
  }

  // No column differs but these.
  predicate OnlyLifeChanges(r: Record, r': Record) {
    r' == r.(status := r'.status, leasedBy := r'.leasedBy, tokenHash := r'.tokenHash, leaseExpiresAt := r'.leaseExpiresAt,
             availableAt := r'.availableAt, reservedCost := r'.reservedCost, actualCost := r'.actualCost,
             result := r'.result, startedAt := r'.startedAt, cancelRequestedAt := r'.cancelRequestedAt,
             completedAt := r'.completedAt, failedAt := r'.failedAt, deletedAt := r'.deletedAt,
             attempts := r'.attempts, events := r'.events, cost := r'.cost)
  }

  predicate SameMoney(r: Record, r': Record) {
    r'.reservedCost == r.reservedCost && r'.actualCost == r.actualCost && r'.cost == r.cost
  }

  predicate CancelAsked(r: Record, r': Record, now: int) {
    && r' == r.(status := CancelRequested, events := r'.events,
                cancelRequestedAt := if r.cancelRequestedAt.Some? then r.cancelRequestedAt else Some(now))
    && Logs(r, r', Moved(r.status, CancelRequested))
  }

  // The seconds an attempt of a type may take.
  function AttemptSeconds(cfg: Settings, t: JobType): nat {
    if t == VastSessionStart then cfg.vastStartup + cfg.vastGrace + cfg.cleanupGrace
    else if t == TrainingPrepare then 90
    else cfg.analysisRuntime
  }

  predicate IsLesser(x: int, a: int, b: int) {
    (x == a || x == b) && x <= a && x <= b
  }

  // A job handed to a worker: the next generation and attempt, under the fresh
  // token, until one lease from now, the end of the attempt or the deadline.
  predicate HandedOut(cfg: Settings, r: Record, r': Record, worker: string, token: nat, now: int) {
    && r' == r.(status := Leased, leaseGeneration := r.leaseGeneration + 1, leasedBy := Some(worker), tokenHash := Some(HashOf(token)),
                leaseExpiresAt := r'.leaseExpiresAt, attemptCount := r.attemptCount + 1,
                attempts := r'.attempts, events := r'.events, cost := r'.cost)
    && Logs(r, r', Moved(r.status, Leased))
    && |r'.attempts| == |r.attempts| + 1
    && (var last := r'.attempts[|r.attempts|];
        && r'.attempts == r.attempts + [Attempt(r.attemptCount + 1, r.leaseGeneration + 1, worker, None, last.maxLeaseExpiresAt, AttemptLeased, None)]
        && last.maxLeaseExpiresAt.Some? && r'.leaseExpiresAt.Some? && r.spec.deadlineAt.Some?
        && IsLesser(last.maxLeaseExpiresAt.value, now + AttemptSeconds(cfg, r.spec.jobType), r.spec.deadlineAt.value)
        && IsLesser(r'.leaseExpiresAt.value, now + cfg.leaseSeconds, last.maxLeaseExpiresAt.value))
    && r'.cost == if r.cost.Some? && r.cost.value.status == CostReserved then Some(r.cost.value.(status := CostRunning)) else r.cost
  }

  lemma HandedOutRow(cfg: Settings, r: Record, worker: string, token: nat, now: int)
    requires Sound(r) && LeaseRow(cfg, r, worker, token, now).Ok?
    ensures HandedOut(cfg, r, LeaseRow(cfg, r, worker, token, now).value.record, worker, token, now)
  {
    LogGrows(r, Moved(r.status, Leased));
  }

  predicate Begun(r: Record, r': Record, now: int) {
    && r' == r.(status := Running, startedAt := if r.startedAt.Some? then r.startedAt else Some(now),
                attempts := r'.attempts, events := r'.events)
    && Logs(r, r', Moved(Leased, Running))
    && r.attempts != []
    && r'.attempts == r.attempts[..|r.attempts| - 1] + [r.attempts[|r.attempts| - 1].(outcome := AttemptRunning, startedAt := Some(now))]
  }

  // The heartbeat's new end of the lease: the least of one lease from now, the end
  // of the attempt and the deadline of the job.
  predicate Beaten(cfg: Settings, r: Record, r': Record, now: int) {
    && r.attempts != [] && r.attempts[|r.attempts| - 1].maxLeaseExpiresAt.Some? && r.spec.deadlineAt.Some? && r'.leaseExpiresAt.Some?
    && r' == r.(leaseExpiresAt := r'.leaseExpiresAt, events := r'.events)
    && Logs(r, r', HeartbeatSeen)
    && var ends := {now + cfg.leaseSeconds, r.attempts[|r.attempts| - 1].maxLeaseExpiresAt.value, r.spec.deadlineAt.value};
       r'.leaseExpiresAt.value in ends && forall e :: e in ends ==> r'.leaseExpiresAt.value <= e
  }

  // A completed job holds what its worker reported, and a session its price: the
  // hourly price for the time of a session, at most the estimate.
  predicate Completes(cfg: Settings, r: Record, r': Record, q: LeaseRequest, payload: string, session: Session, now: int) {
    && OnlyLifeChanges(r, r') && Closes(r, r', AttemptCompleted, now) && Logs(r, r', Moved(Running, Completed))
    && r'.status == Completed && r'.result == Some(JobResult(q.worker, q.generation, payload))
    && r'.completedAt == Some(now) && r'.failedAt.None?
    && r'.startedAt == r.startedAt && r'.availableAt == r.availableAt && r'.deletedAt == r.deletedAt
    && r'.reservedCost == r.reservedCost
    && (r.spec.jobType != VastSessionStart ==> SameMoney(r, r'))
    && (r.spec.jobType == VastSessionStart ==>
         && (var price := session.hourlyMicrousd * cfg.vastMinutes / 60;
             r'.actualCost == if price < r.spec.estimatedCost then price else r.spec.estimatedCost)
         && r.cost.Some? && r'.cost == Some(r.cost.value.(actual := r'.actualCost, status := CostCompleted)))
  }

  // A job given up for good.
  predicate Buried(r: Record, r': Record, outcome: AttemptOutcome, now: int) {
    && OnlyLifeChanges(r, r') && Closes(r, r', outcome, now) && Logs(r, r', Moved(r.status, DeadLetter))
    && r'.status == DeadLetter && r'.failedAt == Some(now) && r'.completedAt.None? && r'.result == r.result
    && r'.startedAt == r.startedAt && r'.availableAt == r.availableAt && r'.deletedAt == r.deletedAt
  }

  // A job whose worker acknowledged the wish to stop.
  predicate Acknowledged(r: Record, r': Record, now: int) {
    && OnlyLifeChanges(r, r') && Closes(r, r', AttemptCancelled, now) && Logs(r, r', Moved(CancelRequested, Cancelled))
    && r'.status == Cancelled && r'.result == r.result && r'.failedAt == r.failedAt && r'.completedAt == r.completedAt
    && r'.startedAt == r.startedAt && r'.availableAt == r.availableAt && r'.deletedAt == r.deletedAt
  }

  // What is left of the money of a session that ends without completing: nothing
  // where the provider was never asked; all of it, for a reconciliation, where
  // its state is unknown; the settled price otherwise.
  predicate Settles(cfg: Settings, r: Record, r': Record, session: Session) {
    if r.spec.jobType != VastSessionStart then
      SameMoney(r, r')
    else if !session.found || session.requestState == NoRequestState || session.requestState == RequestNotSubmitted then
      && r'.reservedCost == 0 && r'.actualCost == r.actualCost
      && r.cost.Some? && r'.cost == if r.reservedCost == 0 then r.cost else Some(r.cost.value.(reserved := 0, status := CostReleased))
    else if session.requestState == SubmittedUnknown || session.requestState == ReconciliationFailed || !session.hasInstance then
      && r'.reservedCost == r.reservedCost && r'.actualCost == r.actualCost
      && r.cost.Some? && r'.cost == Some(r.cost.value.(status := CostReconciliation))
    else
      && r'.reservedCost == 0
      && (var price := session.hourlyMicrousd * cfg.vastMinutes / 60;
          r'.actualCost == if price < r.spec.estimatedCost then price else r.spec.estimatedCost)
      && r.cost.Some? && r'.cost == Some(r.cost.value.(reserved := 0, actual := r'.actualCost, status := CostCompleted))
  }

  // A job that waits for another attempt.
  predicate WaitsAgain(cfg: Settings, id: nat, r: Record, r': Record, outcome: AttemptOutcome, uncertain: bool, now: int) {
    && OnlyLifeChanges(r, r') && Closes(r, r', outcome, now) && Logs(r, r', Moved(r.status, RetryWait))
    && r'.status == RetryWait && r'.result == r.result && r'.failedAt == r.failedAt && r'.completedAt == r.completedAt
    && r'.startedAt == r.startedAt && r'.deletedAt == r.deletedAt
    && r'.availableAt == now + RetryDelay(cfg, r.attemptCount, if (id, r.attemptCount) in cfg.jitter then cfg.jitter[(id, r.attemptCount)] else 0)
    && r'.reservedCost == r.reservedCost && r'.actualCost == r.actualCost
    && r'.cost == if uncertain && r.cost.Some? then Some(r.cost.value.(status := CostReconciliation)) else r.cost
  }

  // ---- one row, one change ----

  lemma LogGrows(r: Record, body: EventBody)
    requires LogShape(r)
    ensures Append(r.events, body) == r.events + [Event(|r.events| + 1, body)]
  {
    MaxOfRun(r.events, 0);
  }

  lemma AttemptCloses(r: Record, outcome: AttemptOutcome, now: int)
    requires AttemptShape(r) && LeaseShape(r) && Held(r.status)
    ensures r.attempts != []
    ensures EndAttempt(r, outcome, now) ==
            r.attempts[..|r.attempts| - 1] + [r.attempts[|r.attempts| - 1].(outcome := outcome, endedAt := Some(now))]
  {
    CurrentAttempt(r);
  }

  lemma CancelAskedRow(cfg: Settings, r: Record, now: int)
    requires Sound(r) && r.status in {Leased, Running}
    ensures ApplyRow(cfg, r, RequestCancel, now).Ok? && ApplyRow(cfg, r, RequestCancel, now).value.moves == []
    ensures CancelAsked(r, ApplyRow(cfg, r, RequestCancel, now).value.record, now)
  {
    LogGrows(r, Moved(r.status, CancelRequested));
  }

  lemma BegunRow(cfg: Settings, r: Record, now: int)
    requires Sound(r) && r.status == Leased
    ensures ApplyRow(cfg, r, Start, now).Ok? && ApplyRow(cfg, r, Start, now).value.moves == []
    ensures Begun(r, ApplyRow(cfg, r, Start, now).value.record, now)
  {
    CurrentAttempt(r);
    LogGrows(r, Moved(Leased, Running));
  }

  lemma BeatenRow(cfg: Settings, r: Record, now: int)
    requires ValidSettings(cfg) && Sound(r) && r.status in {Leased, Running} && now < r.leaseExpiresAt.value
    ensures ApplyRow(cfg, r, Heartbeat, now).Ok? && ApplyRow(cfg, r, Heartbeat, now).value.moves == []
    ensures Beaten(cfg, r, ApplyRow(cfg, r, Heartbeat, now).value.record, now)
  {
    CurrentAttempt(r);
    LogGrows(r, HeartbeatSeen);
  }

  lemma CompletesRow(cfg: Settings, r: Record, q: LeaseRequest, payload: string, session: Session, now: int)
    requires Sound(r) && r.status == Running && r.leasedBy == Some(q.worker) && r.leaseGeneration == q.generation
    requires r.spec.jobType == VastSessionStart ==> session.found
    ensures ApplyRow(cfg, r, Complete(payload, session), now).Ok?
    ensures ApplyRow(cfg, r, Complete(payload, session), now).value.moves == [ReleaseRunning]
    ensures Completes(cfg, r, ApplyRow(cfg, r, Complete(payload, session), now).value.record, q, payload, session, now)
  {
    AttemptCloses(r, AttemptCompleted, now);
    LogGrows(r, Moved(Running, Completed));
  }

  lemma SettlesRow(cfg: Settings, r: Record, session: Session)
    requires Sound(r) && Held(r.status)
    ensures Settles(cfg, r, FinalizeCost(cfg, r, session).record, session)
  {
  }

  predicate OnlyGivesBack(moves: seq<Move>) {
    forall i :: 0 <= i < |moves| ==> moves[i] in {ReleasePending, ReleaseRunning}
  }

  lemma BuriedRow(cfg: Settings, r: Record, outcome: AttemptOutcome, session: Session, now: int)
    requires Sound(r) && r.status in {Leased, Running}
    ensures ApplyRow(cfg, r, Bury(outcome, session), now).Ok?
    ensures var e := ApplyRow(cfg, r, Bury(outcome, session), now).value;
            OnlyGivesBack(e.moves) && Buried(r, e.record, outcome, now) && Settles(cfg, r, e.record, session)
  {
    FinalizeTouchesCostOnly(cfg, r, session);
    SettlesRow(cfg, r, session);
    AttemptCloses(r, outcome, now);
    LogGrows(r, Moved(r.status, DeadLetter));
  }

  lemma AcknowledgedRow(cfg: Settings, r: Record, session: Session, now: int)
    requires Sound(r) && r.status == CancelRequested
    ensures ApplyRow(cfg, r, CancelLeased(session, true), now).Ok?
    ensures var e := ApplyRow(cfg, r, CancelLeased(session, true), now).value;
            OnlyGivesBack(e.moves) && Acknowledged(r, e.record, now) && Settles(cfg, r, e.record, session)
  {
    FinalizeTouchesCostOnly(cfg, r, session);
    SettlesRow(cfg, r, session);
    AttemptCloses(r, AttemptCancelled, now);
    LogGrows(r, Moved(CancelRequested, Cancelled));
  }

  lemma WaitsAgainRow(cfg: Settings, id: nat, r: Record, outcome: AttemptOutcome, uncertain: bool, now: int)
    requires Sound(r) && r.status in {Leased, Running}
    ensures ApplyRow(cfg, r, Requeue(outcome, uncertain, DelayFor(cfg, r, id)), now).Ok?
    ensures var e := ApplyRow(cfg, r, Requeue(outcome, uncertain, DelayFor(cfg, r, id)), now).value;
            e.moves == [ToPending] && WaitsAgain(cfg, id, r, e.record, outcome, uncertain, now)
  {
    AttemptCloses(r, outcome, now);
    LogGrows(r, Moved(r.status, RetryWait));
  }

  // ---- a served request ----

  lemma ServedRow(s: State, q: LeaseRequest, env: Env)
    requires AllSound(s) && Served(s, q, env)
    ensures var r := s.jobs[q.job];
            && Sound(r) && r.status in {Leased, Running, CancelRequested} && env.now < r.leaseExpiresAt.value
            && r.spec.deadlineAt.Some?
  {
    assert Sound(s.jobs[q.job]);
  }

  lemma CallIsRefused(cfg: Settings, s: State, q: LeaseRequest, call: Call, code: nat, env: Env)
    requires AllSound(s) && Served(s, q, env) && OpForCall(cfg, s.jobs[q.job], q.job, call, env) == Raised(code)
    ensures WorkerCall(cfg, s, q, call, env) == Outcome(s, Refused(code))
  {
    ServedIsGranted(s, q, env);
  }

  lemma CallIsMade(cfg: Settings, s: State, q: LeaseRequest, call: Call, op: RowOp, e: Effect, env: Env)
    requires AllSound(s) && Served(s, q, env) && OpForCall(cfg, s.jobs[q.job], q.job, call, env) == Ok(op)
    requires ApplyRow(cfg, s.jobs[q.job], op, env.now) == Ok(e)
    ensures var outcome := WorkerCall(cfg, s, q, call, env);
            if OnlyGivesBack(e.moves) || outcome.reply == Done
            then outcome.reply == Done && Writes(s, outcome.state, q.job) && outcome.state.jobs[q.job] == e.record
            else outcome.state == s && outcome.reply.Refused?
  {
    ServedIsGranted(s, q, env);
    CallFollowsMoves(cfg, s, q, call, op, e, env);
    if OnlyGivesBack(e.moves) {
      ReleasingSucceeds(cfg, s.counters, Scopes(s.jobs[q.job].spec), e.moves);
    }
  }

  lemma CallFollowsMoves(cfg: Settings, s: State, q: LeaseRequest, call: Call, op: RowOp, e: Effect, env: Env)
    requires q.job in s.jobs && ValidateLease(s, q, env) == Granted && OpForCall(cfg, s.jobs[q.job], q.job, call, env) == Ok(op)
    requires ApplyRow(cfg, s.jobs[q.job], op, env.now) == Ok(e)
    ensures var outcome := WorkerCall(cfg, s, q, call, env);
            match ApplyMoves(cfg, s.counters, Scopes(s.jobs[q.job].spec), e.moves)
            case Raised(code) => outcome == Outcome(s, Refused(code))
            case Ok(c) => outcome.reply == Done && Writes(s, outcome.state, q.job) && outcome.state.jobs[q.job] == e.record
  {
    var applied := ApplyOp(cfg, s, q.job, op, env.now);
    assert applied.Ok? ==> Replaces(s, applied.value, q.job, e.record);
  }

  // start_job: done exactly for a job that is leased.
  lemma StartOutcome(cfg: Settings, s: State, q: LeaseRequest, env: Env)
    requires AllSound(s) && Served(s, q, env)
    ensures var outcome := WorkerCall(cfg, s, q, StartCall, env);
            if s.jobs[q.job].status == Leased
            then outcome.reply == Done && Writes(s, outcome.state, q.job) && Begun(s.jobs[q.job], outcome.state.jobs[q.job], env.now)
            else outcome == Outcome(s, Refused(409))
  {
    var r := s.jobs[q.job];
    ServedRow(s, q, env);
    if r.status == Leased {
      BegunRow(cfg, r, env.now);
      CallIsMade(cfg, s, q, StartCall, Start, ApplyRow(cfg, r, Start, env.now).value, env);
    } else {
      CallIsRefused(cfg, s, q, StartCall, 409, env);
    }
  }

  // heartbeat_job: a live lease of a job under way is always renewed.
  lemma HeartbeatOutcome(cfg: Settings, s: State, q: LeaseRequest, env: Env)
    requires ValidSettings(cfg) && AllSound(s) && Served(s, q, env)
    ensures var outcome := WorkerCall(cfg, s, q, HeartbeatCall, env);
            if s.jobs[q.job].status in {Leased, Running}
            then outcome.reply == Done && Writes(s, outcome.state, q.job) && Beaten(cfg, s.jobs[q.job], outcome.state.jobs[q.job], env.now)
            else outcome == Outcome(s, Refused(409))
  {
    var r := s.jobs[q.job];
    ServedRow(s, q, env);
    if r.status in {Leased, Running} {
      BeatenRow(cfg, r, env.now);
      CallIsMade(cfg, s, q, HeartbeatCall, Heartbeat, ApplyRow(cfg, r, Heartbeat, env.now).value, env);
    } else {
      CallIsRefused(cfg, s, q, HeartbeatCall, 409, env);
    }
  }

  // report_progress: one line in the log of a running job, unless it looks like a
  // secret.
  lemma ProgressOutcome(cfg: Settings, s: State, q: LeaseRequest, sensitive: bool, env: Env)
    requires AllSound(s) && Served(s, q, env)
    ensures var r, outcome := s.jobs[q.job], WorkerCall(cfg, s, q, ProgressCall(sensitive), env);
            if r.status != Running then outcome == Outcome(s, Refused(409))
            else if sensitive then outcome == Outcome(s, Refused(422))
            else
              && outcome.reply == Done && Writes(s, outcome.state, q.job)
              && Logs(r, outcome.state.jobs[q.job], ProgressSeen)
              && outcome.state.jobs[q.job] == r.(events := outcome.state.jobs[q.job].events)
  {
    var r := s.jobs[q.job];
    ServedRow(s, q, env);
    if r.status != Running {
      CallIsRefused(cfg, s, q, ProgressCall(sensitive), 409, env);
    } else if sensitive {
      CallIsRefused(cfg, s, q, ProgressCall(sensitive), 422, env);
    } else {
      LogGrows(r, ProgressSeen);
      CallIsMade(cfg, s, q, ProgressCall(sensitive), Progress, ApplyRow(cfg, r, Progress, env.now).value, env);
    }
  }

  // How a request on a job ends that acknowledges a wish to stop, gives the job up,
  // or sends it back, which may be refused for want of a pending slot.
  ghost predicate EndsCancelled(cfg: Settings, s: State, q: LeaseRequest, outcome: Outcome, env: Env)
    requires q.job in s.jobs
  {
    && outcome.reply == Done && Writes(s, outcome.state, q.job)
    && Acknowledged(s.jobs[q.job], outcome.state.jobs[q.job], env.now)
    && Settles(cfg, s.jobs[q.job], outcome.state.jobs[q.job], SessionOf(env, q.job))
  }

  ghost predicate EndsDead(cfg: Settings, s: State, q: LeaseRequest, outcome: Outcome, env: Env)
    requires q.job in s.jobs
  {
    && outcome.reply == Done && Writes(s, outcome.state, q.job)
    && Buried(s.jobs[q.job], outcome.state.jobs[q.job], AttemptDeadLetter, env.now)
    && Settles(cfg, s.jobs[q.job], outcome.state.jobs[q.job], SessionOf(env, q.job))
  }

  ghost predicate EndsWaiting(cfg: Settings, s: State, q: LeaseRequest, outcome: Outcome, how: AttemptOutcome, uncertain: bool, env: Env)
    requires q.job in s.jobs
  {
    if outcome.reply == Done
    then Writes(s, outcome.state, q.job) && WaitsAgain(cfg, q.job, s.jobs[q.job], outcome.state.jobs[q.job], how, uncertain, env.now)
    else outcome.state == s && outcome.reply.Refused?
  }

  lemma CancelledCall(cfg: Settings, s: State, q: LeaseRequest, call: Call, env: Env)
    requires AllSound(s) && Served(s, q, env) && s.jobs[q.job].status == CancelRequested
    requires OpForCall(cfg, s.jobs[q.job], q.job, call, env) == Ok(CancelLeased(SessionOf(env, q.job), true))
    ensures EndsCancelled(cfg, s, q, WorkerCall(cfg, s, q, call, env), env)
  {
    var op := CancelLeased(SessionOf(env, q.job), true);
    AcknowledgedRow(cfg, s.jobs[q.job], SessionOf(env, q.job), env.now);
    CallIsMade(cfg, s, q, call, op, ApplyRow(cfg, s.jobs[q.job], op, env.now).value, env);
  }

  lemma DeadCall(cfg: Settings, s: State, q: LeaseRequest, call: Call, env: Env)
    requires AllSound(s) && Served(s, q, env) && s.jobs[q.job].status in {Leased, Running}
    requires OpForCall(cfg, s.jobs[q.job], q.job, call, env) == Ok(Bury(AttemptDeadLetter, SessionOf(env, q.job)))
    ensures EndsDead(cfg, s, q, WorkerCall(cfg, s, q, call, env), env)
  {
    var op := Bury(AttemptDeadLetter, SessionOf(env, q.job));
    BuriedRow(cfg, s.jobs[q.job], AttemptDeadLetter, SessionOf(env, q.job), env.now);
    CallIsMade(cfg, s, q, call, op, ApplyRow(cfg, s.jobs[q.job], op, env.now).value, env);
  }

  lemma WaitingCall(cfg: Settings, s: State, q: LeaseRequest, call: Call, how: AttemptOutcome, uncertain: bool, env: Env)
    requires AllSound(s) && Served(s, q, env) && s.jobs[q.job].status in {Leased, Running}
    requires OpForCall(cfg, s.jobs[q.job], q.job, call, env) == Ok(Requeue(how, uncertain, DelayFor(cfg, s.jobs[q.job], q.job)))
    ensures EndsWaiting(cfg, s, q, WorkerCall(cfg, s, q, call, env), how, uncertain, env)
  {
    var op := Requeue(how, uncertain, DelayFor(cfg, s.jobs[q.job], q.job));
    WaitsAgainRow(cfg, q.job, s.jobs[q.job], how, uncertain, env.now);
    CallIsMade(cfg, s, q, call, op, ApplyRow(cfg, s.jobs[q.job], op, env.now).value, env);
  }

  // complete_job: a running job whose result is accepted is completed with it. A
  // document whose result the knowledge base turns down is given up; a session
  // nobody recorded, and a result of the wrong shape, are refused.
  lemma CompleteOutcome(cfg: Settings, s: State, q: LeaseRequest, verdict: Verdict, payload: string, env: Env)
    requires AllSound(s) && Served(s, q, env)
    ensures var r, outcome := s.jobs[q.job], WorkerCall(cfg, s, q, CompleteCall(verdict, payload), env);
            if r.status != Running then outcome == Outcome(s, Refused(409))
            else if verdict == ResultInvalid then outcome == Outcome(s, Refused(422))
            else if verdict == DocumentRejected && r.spec.jobType in {DocumentIngest, DocumentEmbed} then
              EndsDead(cfg, s, q, outcome, env)
            else if r.spec.jobType == VastSessionStart && (q.job !in env.sessions || !env.sessions[q.job].found) then
              outcome == Outcome(s, Refused(409))
            else
              && outcome.reply == Done && Writes(s, outcome.state, q.job)
              && Completes(cfg, r, outcome.state.jobs[q.job], q, payload, SessionOf(env, q.job), env.now)
  {
    var r, call, session := s.jobs[q.job], CompleteCall(verdict, payload), SessionOf(env, q.job);
    ServedRow(s, q, env);
    if r.status != Running {
      CallIsRefused(cfg, s, q, call, 409, env);
    } else if verdict == ResultInvalid {
      CallIsRefused(cfg, s, q, call, 422, env);
    } else if verdict == DocumentRejected && r.spec.jobType in {DocumentIngest, DocumentEmbed} {
      DeadCall(cfg, s, q, call, env);
    } else if r.spec.jobType == VastSessionStart && !session.found {
      UnrecordedIsRefused(cfg, s, q, verdict, payload, env);
    } else {
      CompletesRow(cfg, r, q, payload, session, env.now);
      CallIsMade(cfg, s, q, call, Complete(payload, session), ApplyRow(cfg, r, Complete(payload, session), env.now).value, env);
    }
  }

  lemma UnrecordedIsRefused(cfg: Settings, s: State, q: LeaseRequest, verdict: Verdict, payload: string, env: Env)
    requires AllSound(s) && Served(s, q, env) && s.jobs[q.job].status == Running && verdict != ResultInvalid
    requires s.jobs[q.job].spec.jobType == VastSessionStart && !SessionOf(env, q.job).found
    ensures WorkerCall(cfg, s, q, CompleteCall(verdict, payload), env) == Outcome(s, Refused(409))
  {
    ServedIsGranted(s, q, env);
    UnrecordedRow(cfg, s.jobs[q.job], q.job, verdict, payload, env);
    assert ApplyOp(cfg, s, q.job, Complete(payload, SessionOf(env, q.job)), env.now) == Raised(409);
  }

  lemma UnrecordedRow(cfg: Settings, r: Record, id: nat, verdict: Verdict, payload: string, env: Env)
    requires r.status == Running && verdict != ResultInvalid && r.spec.jobType == VastSessionStart && !SessionOf(env, id).found
    ensures OpForCall(cfg, r, id, CompleteCall(verdict, payload), env) == Ok(Complete(payload, SessionOf(env, id)))
    ensures ApplyRow(cfg, r, Complete(payload, SessionOf(env, id)), env.now) == Raised(409)
  {
  }

  // The failures a worker may report for a job type, and those that are tried again.
  predicate MayReport(t: JobType, category: Category) {
    match category
    case PermanentInput => true
    case PermanentAuthorization => true
    case RetryableInfrastructure => true
    case RetryableProvider => t == VastSessionStart
    case UncertainExternalSideEffect => t == VastSessionStart
    case CancellationObserved => false
    case LeaseLoss => false
  }

  predicate MayPass(category: Category) {
    category in {RetryableInfrastructure, RetryableProvider, UncertainExternalSideEffect}
  }

  lemma FailureMeans(cfg: Settings, r: Record, id: nat, category: Category, env: Env)
    requires r.spec.deadlineAt.Some? && r.status in {Leased, Running, CancelRequested}
    ensures OpForCall(cfg, r, id, FailCall(category), env) ==
            if r.status == CancelRequested then
              Ok(CancelLeased(SessionOf(env, id), true))
            else if !MayReport(r.spec.jobType, category) then
              Raised(422)
            else if MayPass(category) && r.attemptCount < r.spec.maxAttempts && env.now < r.spec.deadlineAt.value then
              Ok(Requeue(AttemptRetryWait, category == UncertainExternalSideEffect, DelayFor(cfg, r, id)))
            else
              Ok(Bury(AttemptDeadLetter, SessionOf(env, id)))
  {
  }

  // fail_job: a failure the job's type does not know is refused. A failure that may
  // pass is tried again while there are attempts left and the deadline is ahead;
  // any other ends the job. A job asked to stop is cancelled whatever the failure.
  lemma FailOutcome(cfg: Settings, s: State, q: LeaseRequest, category: Category, env: Env)
    requires AllSound(s) && Served(s, q, env)
    ensures var r, outcome := s.jobs[q.job], WorkerCall(cfg, s, q, FailCall(category), env);
            if r.status == CancelRequested then
              EndsCancelled(cfg, s, q, outcome, env)
            else if !MayReport(r.spec.jobType, category) then
              outcome == Outcome(s, Refused(422))
            else if MayPass(category) && r.attemptCount < r.spec.maxAttempts && env.now < r.spec.deadlineAt.value then
              EndsWaiting(cfg, s, q, outcome, AttemptRetryWait, category == UncertainExternalSideEffect, env)
            else
              EndsDead(cfg, s, q, outcome, env)
  {
    var r, call := s.jobs[q.job], FailCall(category);
    ServedRow(s, q, env);
    FailureMeans(cfg, r, q.job, category, env);
    if r.status == CancelRequested {
      CancelledCall(cfg, s, q, call, env);
    } else if !MayReport(r.spec.jobType, category) {
      CallIsRefused(cfg, s, q, call, 422, env);
    } else if MayPass(category) && r.attemptCount < r.spec.maxAttempts && env.now < r.spec.deadlineAt.value {
      WaitingCall(cfg, s, q, call, AttemptRetryWait, category == UncertainExternalSideEffect, env);
    } else {
      DeadCall(cfg, s, q, call, env);
    }
  }

  // release_job: the job waits for another attempt, whatever its attempts and its
  // deadline; one asked to stop is cancelled.
  lemma ReleaseOutcome(cfg: Settings, s: State, q: LeaseRequest, env: Env)
    requires AllSound(s) && Served(s, q, env)
    ensures var outcome := WorkerCall(cfg, s, q, ReleaseCall, env);
            if s.jobs[q.job].status == CancelRequested
            then EndsCancelled(cfg, s, q, outcome, env)
            else EndsWaiting(cfg, s, q, outcome, AttemptReleased, false, env)
  {
    ServedRow(s, q, env);
    if s.jobs[q.job].status == CancelRequested {
      CancelledCall(cfg, s, q, ReleaseCall, env);
    } else {
      WaitingCall(cfg, s, q, ReleaseCall, AttemptReleased, false, env);
    }
  }

  // The calls that send a job back.
  predicate SendsBack(r: Record, call: Call, now: int) {
    match call
    case ReleaseCall => true
    case FailCall(category) =>
      && MayReport(r.spec.jobType, category) && MayPass(category) && r.attemptCount < r.spec.maxAttempts
      && r.spec.deadlineAt.Some? && now < r.spec.deadlineAt.value
    case _ => false
  }

  // Every scope of the job has a free slot to wait in, or to be held in.
  ghost predicate RoomToWait(cfg: Settings, s: State, spec: JobSpec) {
    forall k :: InScope(k, spec.jobType, spec.owner, spec.organization) ==> Get(s.counters, k).pending < WaitingLimit(cfg, k)
  }

  ghost predicate RoomToHold(cfg: Settings, s: State, spec: JobSpec) {
    forall k :: InScope(k, spec.jobType, spec.owner, spec.organization) ==> Get(s.counters, k).running < HoldingLimit(cfg, k)
  }

  lemma RoomByColumn(cfg: Settings, s: State, spec: JobSpec)
    ensures RoomToWait(cfg, s, spec) <==> HasPendingRoom(cfg, s.counters, Scopes(spec))
    ensures RoomToHold(cfg, s, spec) <==> HasRunningRoom(cfg, s.counters, Scopes(spec))
  {
    forall k
      ensures k in Scopes(spec) <==> InScope(k, spec.jobType, spec.owner, spec.organization)
      ensures PendingLimit(cfg, k) == WaitingLimit(cfg, k) && RunningLimit(cfg, k) == HoldingLimit(cfg, k)
    {
      ScopesByColumn(cfg, k, spec);
    }
  }

  // With exact counters a job is sent back exactly when each of its scopes has a
  // free pending slot, and is refused with 429 otherwise.
  lemma SendingBackNeedsRoom(cfg: Settings, s: State, q: LeaseRequest, call: Call, env: Env)
    requires AllSound(s) && Exact(s) && Served(s, q, env)
    requires s.jobs[q.job].status in {Leased, Running} && SendsBack(s.jobs[q.job], call, env.now)
    ensures var outcome := WorkerCall(cfg, s, q, call, env);
            outcome.reply == if RoomToWait(cfg, s, s.jobs[q.job].spec) then Done else Refused(429)
  {
    var r := s.jobs[q.job];
    ServedIsGranted(s, q, env);
    ServedRow(s, q, env);
    RoomByColumn(cfg, s, r.spec);
    var op := SendingBackMeans(cfg, r, q.job, call, env);
    RequeueNeedsRoom(cfg, s, q.job, op, env.now);
    CallFollowsMoves(cfg, s, q, call, op, ApplyRow(cfg, r, op, env.now).value, env);
  }

  lemma SendingBackMeans(cfg: Settings, r: Record, id: nat, call: Call, env: Env) returns (op: RowOp)
    requires Sound(r) && r.status in {Leased, Running} && SendsBack(r, call, env.now)
    ensures OpForCall(cfg, r, id, call, env) == Ok(op)
    ensures op.Requeue? && op.delay == DelayFor(cfg, r, id) && Fits(r, op)
  {
    op := OpForCall(cfg, r, id, call, env).value;
  }

  lemma RequeueNeedsRoom(cfg: Settings, s: State, id: nat, op: RowOp, now: int)
    requires Exact(s) && id in s.jobs && Sound(s.jobs[id]) && s.jobs[id].status in {Leased, Running}
    requires op.Requeue? && op.delay == DelayFor(cfg, s.jobs[id], id) && Fits(s.jobs[id], op)
    ensures ApplyRow(cfg, s.jobs[id], op, now).Ok?
    ensures var moved := ApplyMoves(cfg, s.counters, Scopes(s.jobs[id].spec), ApplyRow(cfg, s.jobs[id], op, now).value.moves);
            if HasPendingRoom(cfg, s.counters, Scopes(s.jobs[id].spec)) then moved.Ok? else moved == Raised(429)
  {
    WaitsAgainRow(cfg, id, s.jobs[id], op.outcome, op.uncertain, now);
    ChangesAreExact(cfg, s, id, op, now);
  }

  // ---- jobs that wait ----

  // A waiting job that fails gives its reserved money back.
  predicate FailsWaiting(r: Record, r': Record, deletedAt: Option<int>, now: int) {
    && r' == r.(status := Failed, failedAt := Some(now), completedAt := None, deletedAt := deletedAt,
                reservedCost := 0, cost := r'.cost, events := r'.events)
    && Logs(r, r', Moved(r.status, Failed)) && Returns(r, r')
  }

  predicate Returns(r: Record, r': Record) {
    r'.cost == if r.reservedCost == 0 || r.cost.None? then r.cost else Some(r.cost.value.(reserved := 0, status := CostReleased))
  }

  // A waiting job that its owner cancels passes through both statuses at once.
  predicate CancelsWaiting(r: Record, r': Record, now: int) {
    && r' == r.(status := Cancelled, cancelRequestedAt := if r.cancelRequestedAt.Some? then r.cancelRequestedAt else Some(now),
                reservedCost := 0, cost := r'.cost, events := r'.events)
    && r'.events == r.events + [Event(|r.events| + 1, Moved(r.status, CancelRequested)), Event(|r.events| + 2, Moved(CancelRequested, Cancelled))]
    && Returns(r, r')
  }

  lemma FailsWaitingRow(cfg: Settings, r: Record, delete: bool, now: int)
    requires Sound(r) && r.status in {Queued, RetryWait}
    ensures ApplyRow(cfg, r, FailPending(delete), now).Ok?
    ensures ApplyRow(cfg, r, FailPending(delete), now).value.moves == [ReleasePending]
    ensures FailsWaiting(r, ApplyRow(cfg, r, FailPending(delete), now).value.record, if delete then Some(now) else r.deletedAt, now)
  {
    LogGrows(r, Moved(r.status, Failed));
  }

  lemma CancelsWaitingRow(cfg: Settings, r: Record, now: int)
    requires Sound(r) && r.status in {Queued, RetryWait}
    ensures ApplyRow(cfg, r, CancelPending, now).Ok?
    ensures ApplyRow(cfg, r, CancelPending, now).value.moves == [ReleasePending]
    ensures CancelsWaiting(r, ApplyRow(cfg, r, CancelPending, now).value.record, now)
  {
    TwoLines(r, now);
  }

  lemma TwoLines(r: Record, now: int)
    requires Sound(r) && r.status in {Queued, RetryWait}
    ensures Transition(r, CancelRequested, now).Ok?
    ensures Append(Transition(r, CancelRequested, now).value.events, Moved(CancelRequested, Cancelled)) ==
            r.events + [Event(|r.events| + 1, Moved(r.status, CancelRequested)), Event(|r.events| + 2, Moved(CancelRequested, Cancelled))]
  {
    LogGrows(r, Moved(r.status, CancelRequested));
    TransitionKeepsLog(r, CancelRequested, now);
    MaxOfRun(Transition(r, CancelRequested, now).value.events, 0);
  }

  lemma OneRelease(cfg: Settings, c: Counters, scopes: seq<Scope>)
    ensures ApplyMoves(cfg, c, scopes, [ReleasePending]).Ok?
  {
    OneMove(cfg, c, scopes, ReleasePending);
  }

  // cancel_job: not to be seen by a stranger; a job that waits is cancelled at once;
  // one under way is asked to stop; a finished one, or one already asked, stays.
  lemma CancelOutcome(cfg: Settings, s: State, id: nat, allowed: bool, env: Env)
    requires AllSound(s)
    ensures var outcome := CancelJob(cfg, s, id, allowed, env);
            if id !in s.jobs || s.jobs[id].deletedAt.Some? || !allowed then
              outcome == Outcome(s, Refused(404))
            else if s.jobs[id].status in {Queued, RetryWait} then
              outcome.reply == Done && Writes(s, outcome.state, id) && CancelsWaiting(s.jobs[id], outcome.state.jobs[id], env.now)
            else if s.jobs[id].status in {Leased, Running} then
              outcome.reply == Done && Writes(s, outcome.state, id) && CancelAsked(s.jobs[id], outcome.state.jobs[id], env.now)
            else
              outcome == Outcome(s, Done)
  {
    if id in s.jobs {
      var r := s.jobs[id];
      assert Sound(r);
      if r.status in {Queued, RetryWait} {
        CancelsWaitingRow(cfg, r, env.now);
        OneRelease(cfg, s.counters, Scopes(r.spec));
      } else if r.status in {Leased, Running} {
        CancelAskedRow(cfg, r, env.now);
      }
    }
  }

  // ---- passes ----

  // What recovery makes of a job: one that waited too long fails; one whose lease
  // is over is cancelled if it was asked to stop, waits again while it has
  // attempts left and its deadline is ahead, and is given up otherwise.
  predicate AfterRecovery(cfg: Settings, id: nat, r: Record, r': Record, env: Env) {
    if r.deletedAt.Some? then
      r' == r
    else if r.status in {Queued, RetryWait} && r.spec.queueExpiresAt.Some? && r.spec.queueExpiresAt.value <= env.now then
      FailsWaiting(r, r', None, env.now)
    else if r.status in {Leased, Running, CancelRequested} && r.leaseExpiresAt.Some? && r.leaseExpiresAt.value <= env.now then
      if r.status == CancelRequested then
        Acknowledged(r, r', env.now) && Settles(cfg, r, r', SessionOf(env, id))
      else if r.attemptCount < r.spec.maxAttempts && r.spec.deadlineAt.Some? && env.now < r.spec.deadlineAt.value then
        WaitsAgain(cfg, id, r, r', LeaseExpiredRetry, false, env.now)
      else
        Buried(r, r', LeaseExpiredDeadLetter, env.now) && Settles(cfg, r, r', SessionOf(env, id))
    else
      r' == r
  }

  // A revoked job that waits fails; one under way is asked to stop.
  predicate AfterRevocation(r: Record, r': Record, now: int) {
    if r.deletedAt.Some? then r' == r
    else if r.status in {Queued, RetryWait} then FailsWaiting(r, r', None, now)
    else if r.status in {Leased, Running} then CancelAsked(r, r', now)
    else r' == r
  }

  // With its account a waiting job fails and is deleted, a finished one is deleted,
  // and one under way is asked to stop and stays until its worker answers.
  predicate AfterDisposal(r: Record, r': Record, now: int) {
    if r.deletedAt.Some? then r' == r
    else if r.status in {Queued, RetryWait} then FailsWaiting(r, r', Some(now), now)
    else if r.status in {Leased, Running} then CancelAsked(r, r', now)
    else r.status != CancelRequested && r' == r.(deletedAt := Some(now))
  }

  // The scan fails the jobs its worker might run that are revoked or of a schema no
  // longer supported.
  predicate AfterScan(cfg: Settings, q: ClaimRequest, id: nat, r: Record, r': Record, env: Env) {
    if q.worker in cfg.workers && RunsFor(cfg.workers[q.worker], q.types, r.spec) && (id in env.revoked || id in env.unsupported)
    then FailsWaiting(r, r', None, env.now) else r' == r
  }

  // A worker runs the types its credential and its registration both allow, and one
  // that belongs to an organization runs only jobs of that organization.
  predicate RunsFor(worker: Worker, types: set<JobType>, spec: JobSpec) {
    && spec.jobType in types && spec.jobType in worker.allowedTypes
    && match worker.organization
       case None => true
       case Some(organization) => spec.organization.Some? && spec.organization.value == organization
  }

  lemma RecoveryRow(cfg: Settings, id: nat, r: Record, env: Env)
    requires Sound(r)
    ensures AfterRecovery(cfg, id, r, PassRecord(cfg, RecoverExpired, id, r, env), env)
  {
    if Expired(r, env.now) {
      if r.status in {Queued, RetryWait} {
        FailsWaitingRow(cfg, r, false, env.now);
      } else {
        CurrentAttempt(r);
        LeaseOverRow(cfg, id, r, env);
      }
    }
  }

  lemma LeaseOverRow(cfg: Settings, id: nat, r: Record, env: Env)
    requires Sound(r) && r.deletedAt.None? && r.status in {Leased, Running, CancelRequested} && r.leaseExpiresAt.value <= env.now
    requires AttemptIndex(r.attempts, r.leaseGeneration).Some?
    ensures AfterRecovery(cfg, id, r, PassRecord(cfg, RecoverExpired, id, r, env), env)
  {
    var op := RecoverOp(cfg, id, r, env);
    if r.status == CancelRequested {
      AcknowledgedRow(cfg, r, SessionOf(env, id), env.now);
    } else if op.Requeue? {
      WaitsAgainRow(cfg, id, r, LeaseExpiredRetry, false, env.now);
    } else {
      BuriedRow(cfg, r, LeaseExpiredDeadLetter, SessionOf(env, id), env.now);
    }
  }

  lemma RevocationRow(cfg: Settings, id: nat, r: Record, env: Env)
    requires Sound(r)
    ensures AfterRevocation(r, PassRecord(cfg, RevokeAuthorization, id, r, env), env.now)
    ensures var r' := PassRecord(cfg, RevalidateAuthorization, id, r, env);
            if id in env.revoked then AfterRevocation(r, r', env.now) else r' == r
    ensures OnlyReleases(cfg, RevalidateAuthorization, id, r, env)
  {
    if r.status in {Queued, RetryWait} {
      FailsWaitingRow(cfg, r, false, env.now);
    } else if r.status in {Leased, Running} {
      CancelAskedRow(cfg, r, env.now);
    }
  }

  lemma DisposalRow(cfg: Settings, id: nat, r: Record, env: Env)
    requires Sound(r) && RowAllows(cfg, DisposeAccount, id, r, env)
    ensures AfterDisposal(r, PassRecord(cfg, DisposeAccount, id, r, env), env.now)
  {
    if r.status in {Queued, RetryWait} {
      FailsWaitingRow(cfg, r, true, env.now);
    } else if r.status in {Leased, Running} {
      CancelAskedRow(cfg, r, env.now);
    } else {
      DisposeRow(cfg, id, r, env);
    }
  }

  // A recovery pass that goes through, job by job.
  lemma RecoveryOutcome(cfg: Settings, s: State, order: seq<nat>, env: Env)
    requires AllSound(s) && Distinct(order) && RunPass(cfg, s, RecoverExpired, order, env).Ok?
    ensures var s' := RunPass(cfg, s, RecoverExpired, order, env).value;
            && s'.jobs.Keys == s.jobs.Keys
            && forall id :: id in s.jobs ==>
                 if id in order then AfterRecovery(cfg, id, s.jobs[id], s'.jobs[id], env) else s'.jobs[id] == s.jobs[id]
  {
    PassIsPointwise(cfg, s, RecoverExpired, order, env);
    forall id | id in s.jobs
      ensures AfterRecovery(cfg, id, s.jobs[id], PassRecord(cfg, RecoverExpired, id, s.jobs[id], env), env)
    {
      RecoveryRow(cfg, id, s.jobs[id], env);
    }
  }

  // Revoking an authorization, job by job.
  lemma RevocationOutcome(cfg: Settings, s: State, order: seq<nat>, env: Env)
    requires AllSound(s) && Distinct(order)
    ensures var outcome := WholePass(cfg, s, RevokeAuthorization, order, env);
            && outcome.reply == Done && outcome.state.jobs.Keys == s.jobs.Keys
            && forall id :: id in s.jobs ==>
                 if id in order then AfterRevocation(s.jobs[id], outcome.state.jobs[id], env.now) else outcome.state.jobs[id] == s.jobs[id]
  {
    RevocationStopsJobs(cfg, s, order, env);
    PassIsPointwise(cfg, s, RevokeAuthorization, order, env);
    forall id | id in s.jobs
      ensures AfterRevocation(s.jobs[id], PassRecord(cfg, RevokeAuthorization, id, s.jobs[id], env), env.now)
    {
      RevocationRow(cfg, id, s.jobs[id], env);
    }
  }

  // Revalidation always goes through, and does the same to the revoked jobs alone.
  lemma RevalidationOutcome(cfg: Settings, s: State, order: seq<nat>, env: Env)
    requires AllSound(s) && Distinct(order)
    ensures RunPass(cfg, s, RevalidateAuthorization, order, env).Ok?
    ensures var s' := RunPass(cfg, s, RevalidateAuthorization, order, env).value;
            && s'.jobs.Keys == s.jobs.Keys
            && forall id :: id in s.jobs ==>
                 if id in order && id in env.revoked then AfterRevocation(s.jobs[id], s'.jobs[id], env.now) else s'.jobs[id] == s.jobs[id]
  {
    forall id | id in s.jobs
      ensures OnlyReleases(cfg, RevalidateAuthorization, id, s.jobs[id], env)
      ensures var r' := PassRecord(cfg, RevalidateAuthorization, id, s.jobs[id], env);
              if id in env.revoked then AfterRevocation(s.jobs[id], r', env.now) else r' == s.jobs[id]
    {
      RevocationRow(cfg, id, s.jobs[id], env);
    }
    ReleasingPassCompletes(cfg, s, RevalidateAuthorization, order, env);
    PassIsPointwise(cfg, s, RevalidateAuthorization, order, env);
  }

  // A disposal that goes through, job by job.
  lemma DisposalOutcome(cfg: Settings, s: State, order: seq<nat>, env: Env)
    requires AllSound(s) && Distinct(order) && WholePass(cfg, s, DisposeAccount, order, env).reply == Done
    ensures var s' := WholePass(cfg, s, DisposeAccount, order, env).state;
            && s'.jobs.Keys == s.jobs.Keys
            && forall id :: id in s.jobs ==>
                 if id in order then AfterDisposal(s.jobs[id], s'.jobs[id], env.now) else s'.jobs[id] == s.jobs[id]
  {
    PassIsPointwise(cfg, s, DisposeAccount, order, env);
    forall id | id in s.jobs && id in order
      ensures AfterDisposal(s.jobs[id], PassRecord(cfg, DisposeAccount, id, s.jobs[id], env), env.now)
    {
      DisposalRow(cfg, id, s.jobs[id], env);
    }
  }

  lemma ScannedRow(cfg: Settings, q: ClaimRequest, id: nat, r: Record, env: Env)
    requires Sound(r) && Claimable(r, env.now)
    ensures AfterScan(cfg, q, id, r, PassRecord(cfg, ScanWindow(q.worker, q.types), id, r, env), env)
  {
    FailsWaitingRow(cfg, r, false, env.now);
  }

  // The scan of a claim over its window, job by job.
  lemma ScanOutcome(cfg: Settings, s: State, q: ClaimRequest, env: Env)
    requires AllSound(s) && IsScanWindow(cfg, s.jobs, q.window, env.now)
    requires RunPass(cfg, s, ScanWindow(q.worker, q.types), q.window, env).Ok?
    ensures var s' := RunPass(cfg, s, ScanWindow(q.worker, q.types), q.window, env).value;
            && s'.jobs.Keys == s.jobs.Keys
            && forall id :: id in s.jobs ==>
                 if id in q.window then AfterScan(cfg, q, id, s.jobs[id], s'.jobs[id], env) else s'.jobs[id] == s.jobs[id]
  {
    WindowIsDistinct(cfg, s.jobs, q.window, env.now);
    PassIsPointwise(cfg, s, ScanWindow(q.worker, q.types), q.window, env);
    forall id | id in s.jobs && id in q.window
      ensures AfterScan(cfg, q, id, s.jobs[id], PassRecord(cfg, ScanWindow(q.worker, q.types), id, s.jobs[id], env), env)
    {
      ScannedRow(cfg, q, id, s.jobs[id], env);
    }
  }

  // ---- durable recovery ----

  // What both passes make of one job.
  ghost predicate AfterBothPasses(cfg: Settings, id: nat, r: Record, r': Record, expired: bool, active: bool, env: Env) {
    exists middle: Record ::
      && (if expired then AfterRecovery(cfg, id, r, middle, env) else middle == r)
      && (if active && id in env.revoked then AfterRevocation(middle, r', env.now) else r' == middle)
  }

  // Durable recovery changes nothing when it is refused or only tried; done, it has
  // recovered the expired jobs, stopped the revoked ones and made the counters
  // exact.
  lemma DurableRecoveryOutcome(cfg: Settings, s: State, expired: seq<nat>, active: seq<nat>, dryRun: bool, env: Env)
    requires AllSound(s) && Distinct(expired) && Distinct(active)
    ensures var outcome := RecoverDurable(cfg, s, expired, active, dryRun, env);
            && (outcome.reply == Done <==> RunPass(cfg, s, RecoverExpired, expired, env).Ok?)
            && (outcome.reply != Done || dryRun ==> outcome.state == s)
            && (outcome.reply == Done && !dryRun ==>
                 && Exact(outcome.state) && outcome.state.jobs.Keys == s.jobs.Keys
                 && forall id :: id in s.jobs ==>
                      AfterBothPasses(cfg, id, s.jobs[id], outcome.state.jobs[id], id in expired, id in active, env))
  {
    var first := RunPass(cfg, s, RecoverExpired, expired, env);
    if first.Ok? {
      var s1 := first.value;
      RecoveryOutcome(cfg, s, expired, env);
      var t1 := PassTrace(cfg, s, RecoverExpired, expired, (set i | i in expired), env);
      RevalidationOutcome(cfg, s1, active, env);
      var t2 := PassTrace(cfg, s1, RevalidateAuthorization, active, (set i | i in active), env);
      var s2 := RunPass(cfg, s1, RevalidateAuthorization, active, env).value;
      ReconcileMakesExact(s2, env.now);
      BothPasses(cfg, s, s1, s2, expired, active, env);
    }
  }

  lemma BothPasses(cfg: Settings, s: State, s1: State, s2: State, expired: seq<nat>, active: seq<nat>, env: Env)
    requires s1.jobs.Keys == s.jobs.Keys == s2.jobs.Keys
    requires forall id :: id in s.jobs ==>
               if id in expired then AfterRecovery(cfg, id, s.jobs[id], s1.jobs[id], env) else s1.jobs[id] == s.jobs[id]
    requires forall id :: id in s1.jobs ==>
               if id in active && id in env.revoked then AfterRevocation(s1.jobs[id], s2.jobs[id], env.now) else s2.jobs[id] == s1.jobs[id]
    ensures forall id :: id in s.jobs ==> AfterBothPasses(cfg, id, s.jobs[id], s2.jobs[id], id in expired, id in active, env)
  {
    forall id | id in s.jobs
      ensures AfterBothPasses(cfg, id, s.jobs[id], s2.jobs[id], id in expired, id in active, env)
    {
      assert if id in expired then AfterRecovery(cfg, id, s.jobs[id], s1.jobs[id], env) else s1.jobs[id] == s.jobs[id];
    }
  }

  // A session without a cost row gets one of today: what its row has reserved and
  // paid, completed with the job, released when nothing is reserved, running
  // while a worker holds it.
  lemma RebuiltCost(r: Record, now: int)
    ensures var r' := RebuildCost(r, now);
            && r' == r.(cost := r'.cost)
            && (r.spec.jobType != VastSessionStart || r.cost.Some? ==> r' == r)
            && (r.spec.jobType == VastSessionStart && r.cost.None? ==>
                 r'.cost == Some(CostRow(now / 86400, r.reservedCost, r.actualCost,
                                         if r.status == Completed then CostCompleted
                                         else if r.reservedCost == 0 then CostReleased
                                         else if r.status in {Leased, Running, CancelRequested} then CostRunning
                                         else CostReserved)))
  {
  }
}
