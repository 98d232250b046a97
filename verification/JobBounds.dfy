// How often a job can be tried and moved over a whole run, and what voluntary
// releases have to do with it.

module JobBounds {
  import opened Outcomes
  import opened JobRegistry
  import opened JobStatusMachine
  import opened JobRows
  import opened JobRowProofs
  import opened JobProtocol
  import opened JobInvariants
  import opened JobTheorems
  import opened JobTraces

  // ---- releases, change by change ----

  lemma LeavingReleases(cfg: Settings, r: Record, op: RowOp, now: int)
    requires Sound(r) && Fits(r, op)
    requires op.Complete? || op.CancelLeased? || op.Bury? || op.Requeue?
    requires ApplyRow(cfg, r, op, now).Ok?
    ensures Releases(ApplyRow(cfg, r, op, now).value.record.attempts) == Releases(r.attempts) + if IsRelease(op) then 1 else 0
  {
    var r' := ApplyRow(cfg, r, op, now).value.record;
    match op
    case Complete(_, _) => EndAttemptCloses(r, AttemptCompleted, now);
    case CancelLeased(session, _) =>
      FinalizeTouchesCostOnly(cfg, r, session);
      EndAttemptCloses(r, AttemptCancelled, now);
    case Bury(outcome, session) =>
      FinalizeTouchesCostOnly(cfg, r, session);
      EndAttemptCloses(r, outcome, now);
    case Requeue(outcome, _, _) => EndAttemptCloses(r, outcome, now);
  }

  lemma HoldingReleases(cfg: Settings, r: Record, op: RowOp, now: int)
    requires Sound(r) && (op.Lease? || op.Start?)
    requires ApplyRow(cfg, r, op, now).Ok?
    ensures Releases(ApplyRow(cfg, r, op, now).value.record.attempts) == Releases(r.attempts)
  {
    var r' := ApplyRow(cfg, r, op, now).value.record;
    if op.Lease? {
      assert r'.attempts == r.attempts + [r'.attempts[|r.attempts|]];
      ReleasesOfAppend(r.attempts, r'.attempts[|r.attempts|]);
    } else {
      CurrentAttempt(r);
      AttemptsAfterStart(r, r', now);
    }
  }

  // Only a release gives an attempt up, and it gives up one.
  lemma ChangeReleases(cfg: Settings, r: Record, op: RowOp, now: int)
    requires Sound(r) && Fits(r, op)
    requires ApplyRow(cfg, r, op, now).Ok?
    ensures Releases(ApplyRow(cfg, r, op, now).value.record.attempts) == Releases(r.attempts) + if IsRelease(op) then 1 else 0
  {
    if op.Lease? || op.Start? {
      HoldingReleases(cfg, r, op, now);
    } else if op.Complete? || op.CancelLeased? || op.Bury? || op.Requeue? {
      LeavingReleases(cfg, r, op, now);
    }
  }

  // The attempts of a job given up so far.
  function ReleasesOf(s: State, id: nat): nat {
    if id in s.jobs then Releases(s.jobs[id].attempts) else 0
  }

  lemma OpReleases(cfg: Settings, s: State, job: nat, op: RowOp, now: int, id: nat)
    requires job in s.jobs && Sound(s.jobs[job]) && Fits(s.jobs[job], op) && ApplyOp(cfg, s, job, op, now).Ok?
    ensures ReleasesOf(ApplyOp(cfg, s, job, op, now).value, id) == ReleasesOf(s, id) + if IsRelease(op) && job == id then 1 else 0
  {
    ChangeReleases(cfg, s.jobs[job], op, now);
  }

  lemma CreateReleases(cfg: Settings, s: State, job: nat, q: Submission, now: int, id: nat)
    requires job !in s.jobs && CreateJob(cfg, s, job, q, now).Ok?
    ensures ReleasesOf(CreateJob(cfg, s, job, q, now).value, id) == ReleasesOf(s, id)
  {
  }

  lemma MicroReleases(cfg: Settings, s: State, m: Micro, now: int, id: nat)
    requires AllSound(s) && MicroFits(cfg, s, m, now)
    ensures ReleasesOf(MicroResult(cfg, s, m, now), id) == ReleasesOf(s, id) + if GivesUp(m) && m.job == id then 1 else 0
  {
    match m
    case Change(job, op) => OpReleases(cfg, s, job, op, now, id);
    case Create(job, q) => CreateReleases(cfg, s, job, q, now, id);
    case Recount => NothingToRebuild(s, now);
    case _ =>
  }

  lemma {:induction false} QuietTraceReleases(cfg: Settings, s: State, t: seq<Micro>, now: int, s': State, id: nat)
    requires ValidSettings(cfg) && AllSound(s) && Traces(cfg, s, t, now, s') && ReleasesNone(t)
    ensures ReleasesOf(s', id) == ReleasesOf(s, id)
    decreases |t|
  {
    if t != [] {
      MicroReleases(cfg, s, t[0], now, id);
      MicroKeepsSound(cfg, s, t[0], now);
      QuietTraceReleases(cfg, MicroResult(cfg, s, t[0], now), t[1..], now, s', id);
    }
  }

  // ---- releases, step by step ----

  predicate ReleasesJob(action: Action, id: nat) {
    action.Calling? && action.call.ReleaseCall? && action.request.job == id
  }

  // The release requests for a job in a run, granted or not.
  function ReleaseRequests(steps: seq<Step>, id: nat): nat {
    if steps == [] then 0
    else (if ReleasesJob(steps[0].action, id) then 1 else 0) + ReleaseRequests(steps[1..], id)
  }

  lemma StepReleases(cfg: Settings, s: State, step: Step, id: nat)
    requires ValidSettings(cfg) && AllSound(s) && Enabled(cfg, s, step)
    ensures ReleasesOf(Perform(cfg, s, step).state, id) <= ReleasesOf(s, id) + if ReleasesJob(step.action, id) then 1 else 0
  {
    var t := StepTrace(cfg, s, step);
    var now, s' := step.env.now, Perform(cfg, s, step).state;
    if ReleasesNone(t) {
      QuietTraceReleases(cfg, s, t, now, s', id);
    } else {
      MicroReleases(cfg, s, t[0], now, id);
      assert Traces(cfg, MicroResult(cfg, s, t[0], now), t[1..], now, s');
    }
  }

  lemma {:induction false} RunReleases(cfg: Settings, s: State, steps: seq<Step>, id: nat)
    requires ValidSettings(cfg) && Core(cfg, s) && IsRun(cfg, s, steps)
    ensures ReleasesOf(After(cfg, s, steps), id) <= ReleasesOf(s, id) + ReleaseRequests(steps, id)
    decreases |steps|
  {
    if steps != [] {
      var s' := Perform(cfg, s, steps[0]).state;
      StepKeepsCore(cfg, s, steps[0]);
      StepReleases(cfg, s, steps[0], id);
      RunReleases(cfg, s', steps[1..], id);
    }
  }

  // In every run: a job is tried at most as often as its limit and the release
  // requests for it allow, and changes its status at most three times for each,
  // and twice more. However long the run, a job that is released finitely often
  // comes to rest.
  lemma RunsComeToRest(cfg: Settings, steps: seq<Step>, id: nat)
    requires ValidSettings(cfg) && IsRun(cfg, EMPTY, steps) && id in After(cfg, EMPTY, steps).jobs
    ensures var r := After(cfg, EMPTY, steps).jobs[id];
            && r.attemptCount <= r.spec.maxAttempts + ReleaseRequests(steps, id)
            && Moves(r.events) <= 3 * (r.spec.maxAttempts + ReleaseRequests(steps, id)) + 2
  {
    EmptyIsCore(cfg);
    RunsKeepCore(cfg, EMPTY, steps);
    RunReleases(cfg, EMPTY, steps, id);
    SoundIsWellKept(After(cfg, EMPTY, steps).jobs[id]);
  }

  // ---- the retry limit ----

  // In every run: from the limit on, each attempt that was followed by another, or
  // after which the job waits, was given up by a voluntary release.
  lemma OnlyReleasesReachTheLimit(cfg: Settings, steps: seq<Step>, id: nat)
    requires ValidSettings(cfg) && IsRun(cfg, EMPTY, steps) && id in After(cfg, EMPTY, steps).jobs
    ensures var r := After(cfg, EMPTY, steps).jobs[id];
            && (Pending(r.status) && r.attemptCount >= r.spec.maxAttempts ==>
                 r.attempts != [] && r.attempts[|r.attempts| - 1].outcome == AttemptReleased)
            && (forall i :: 0 <= i < |r.attempts| && r.spec.maxAttempts <= r.attempts[i].number < r.attemptCount ==>
                 r.attempts[i].outcome == AttemptReleased)
  {
    EmptyIsCore(cfg);
    RunsKeepCore(cfg, EMPTY, steps);
    assert Sound(After(cfg, EMPTY, steps).jobs[id]);
  }

  // A granted release changes no column that the next claim counts from.
  lemma ReleaseRow(cfg: Settings, r: Record, id: nat, env: Env)
    requires OpForCall(cfg, r, id, ReleaseCall, env).Ok?
    ensures var done := ApplyRow(cfg, r, OpForCall(cfg, r, id, ReleaseCall, env).value, env.now);
            done.Ok? ==> done.value.record.spec == r.spec && done.value.record.leaseGeneration == r.leaseGeneration
  {
    if r.status == CancelRequested {
      FinalizeTouchesCostOnly(cfg, r, SessionOf(env, id));
    }
  }

  lemma GrantedCall(cfg: Settings, s: State, q: LeaseRequest, call: Call, env: Env) returns (op: RowOp, e: Effect)
    requires WorkerCall(cfg, s, q, call, env).reply == Done
    ensures q.job in s.jobs && OpForCall(cfg, s.jobs[q.job], q.job, call, env) == Ok(op)
    ensures ApplyRow(cfg, s.jobs[q.job], op, env.now) == Ok(e)
    ensures WorkerCall(cfg, s, q, call, env).state.jobs == s.jobs[q.job := e.record]
  {
    op := OpForCall(cfg, s.jobs[q.job], q.job, call, env).value;
    e := ApplyRow(cfg, s.jobs[q.job], op, env.now).value;
  }

  lemma ReleasedJobWaits(cfg: Settings, s: State, q: LeaseRequest, env: Env)
    requires WorkerCall(cfg, s, q, ReleaseCall, env).reply == Done
    ensures q.job in s.jobs && q.job in WorkerCall(cfg, s, q, ReleaseCall, env).state.jobs
    ensures var r, r' := s.jobs[q.job], WorkerCall(cfg, s, q, ReleaseCall, env).state.jobs[q.job];
            r'.spec == r.spec && r'.leaseGeneration == r.leaseGeneration
  {
    var op, e := GrantedCall(cfg, s, q, ReleaseCall, env);
    ReleaseRow(cfg, s.jobs[q.job], q.job, env);
  }

  // A release, anything after it, and the next lease of the job: that lease is past
  // the limit exactly when the limit was used up at the release.
  lemma ReleaseOutrunsTheLimitIff(cfg: Settings, s: State, q: LeaseRequest, env: Env, steps: seq<Step>)
    requires ValidSettings(cfg) && Core(cfg, s)
    requires WorkerCall(cfg, s, q, ReleaseCall, env).reply == Done
    requires IsRun(cfg, WorkerCall(cfg, s, q, ReleaseCall, env).state, steps)
    requires var later := After(cfg, WorkerCall(cfg, s, q, ReleaseCall, env).state, steps);
             q.job in later.jobs && q.job in s.jobs && Held(later.jobs[q.job].status)
             && later.jobs[q.job].leaseGeneration == s.jobs[q.job].leaseGeneration + 1
    ensures var later := After(cfg, WorkerCall(cfg, s, q, ReleaseCall, env).state, steps);
            later.jobs[q.job].attemptCount > later.jobs[q.job].spec.maxAttempts <==>
            s.jobs[q.job].attemptCount >= s.jobs[q.job].spec.maxAttempts
  {
    var released := WorkerCall(cfg, s, q, ReleaseCall, env).state;
    CallKeepsCore(cfg, s, q, ReleaseCall, env);
    RunsKeepCore(cfg, released, steps);
    ReleasedJobWaits(cfg, s, q, env);
    assert Sound(s.jobs[q.job]) && Sound(After(cfg, released, steps).jobs[q.job]);
    assert Advances(released.jobs[q.job], After(cfg, released, steps).jobs[q.job]);
  }
}
