// What the columns of a job say about the run behind it: whose worker holds it,
// which call its result came from, and which submission made it.

module JobLineage {
  import opened Outcomes
  import opened JobRegistry
  import opened JobStatusMachine
  import opened JobRows
  import opened JobRowProofs
  import opened Capacity
  import opened JobProtocol
  import opened JobInvariants
  import opened JobTheorems
  import opened JobTraces
  import opened JobOutcomes
  import opened JobClaims

  // ---- which changes a step can make ----

  // No job is handed out, or none completed.
  predicate LeasesNone(t: seq<Micro>) {
    forall i :: 0 <= i < |t| && t[i].Change? ==> !t[i].op.Lease?
  }

  predicate CompletesNone(t: seq<Micro>) {
    forall i :: 0 <= i < |t| && t[i].Change? ==> !t[i].op.Complete?
  }

  predicate Plain(t: seq<Micro>) {
    LeasesNone(t) && CompletesNone(t)
  }

  lemma PlainOfTwo(t1: seq<Micro>, t2: seq<Micro>)
    ensures Plain(t1) && Plain(t2) ==> Plain(t1 + t2)
    ensures CompletesNone(t1) && CompletesNone(t2) ==> CompletesNone(t1 + t2)
  {
  }

  lemma DecisionIsPlain(cfg: Settings, s: State, pass: Pass, id: nat, env: Env)
    ensures Plain(PassOneChanges(cfg, s, pass, id, env))
  {
  }

  lemma {:induction false} PassIsPlain(cfg: Settings, s: State, pass: Pass, order: seq<nat>, env: Env)
    ensures Plain(PassChanges(cfg, s, pass, order, env))
    decreases |order|
  {
    if order != [] && PassOne(cfg, s, pass, order[0], env).Ok? {
      var s' := PassOne(cfg, s, pass, order[0], env).value;
      DecisionIsPlain(cfg, s, pass, order[0], env);
      PassIsPlain(cfg, s', pass, order[1..], env);
      PlainOfTwo(PassOneChanges(cfg, s, pass, order[0], env), PassChanges(cfg, s', pass, order[1..], env));
    }
  }

  lemma CallIsPlain(cfg: Settings, s: State, q: LeaseRequest, call: Call, env: Env)
    ensures LeasesNone(CallChanges(cfg, s, q, call, env))
    ensures !call.CompleteCall? ==> CompletesNone(CallChanges(cfg, s, q, call, env))
  {
  }

  lemma RecoveryIsPlain(cfg: Settings, s: State, expired: seq<nat>, active: seq<nat>, dryRun: bool, env: Env)
    ensures LeasesNone(RecoverChanges(cfg, s, expired, active, dryRun, env))
    ensures CompletesNone(RecoverChanges(cfg, s, expired, active, dryRun, env))
  {
    if !dryRun && RecoverDurable(cfg, s, expired, active, dryRun, env).reply == Done {
      PassIsPlain(cfg, s, RecoverExpired, expired, env);
      PassIsPlain(cfg, RunPass(cfg, s, RecoverExpired, expired, env).value, RevalidateAuthorization, active, env);
    }
  }

  lemma PickCompletesNone(cfg: Settings, s: State, q: ClaimRequest, env: Env)
    ensures CompletesNone(PickChanges(cfg, s, q, env))
  {
  }

  lemma ScanAndPickCompletesNone(cfg: Settings, s: State, q: ClaimRequest, env: Env)
    requires q.worker in cfg.workers && ScanAndPick(cfg, s, q, env).Ok?
    ensures CompletesNone(ScanAndPickChanges(cfg, s, q, env))
  {
    if |WorkerJobs(s.jobs, q.worker)| < cfg.workers[q.worker].maxConcurrency {
      var scan := ScanWindow(q.worker, q.types);
      var scanned := RunPass(cfg, s, scan, q.window, env).value;
      PassIsPlain(cfg, s, scan, q.window, env);
      PickCompletesNone(cfg, scanned, q, env);
      PlainOfTwo(PassChanges(cfg, s, scan, q.window, env), PickChanges(cfg, scanned, q, env));
    }
  }

  lemma ClaimCompletesNone(cfg: Settings, s: State, q: ClaimRequest, env: Env)
    ensures CompletesNone(ClaimChanges(cfg, s, q, env))
  {
    if q.worker in cfg.workers && ClaimAll(cfg, s, q, env).Ok? {
      var recovered := RunPass(cfg, s, RecoverExpired, q.expired, env).value;
      PassIsPlain(cfg, s, RecoverExpired, q.expired, env);
      ScanAndPickCompletesNone(cfg, recovered, q, env);
      PlainOfTwo(PassChanges(cfg, s, RecoverExpired, q.expired, env), ScanAndPickChanges(cfg, recovered, q, env));
    }
  }

  // Only a claim hands out a job, and only a report of completion completes one.
  lemma StepIsPlain(cfg: Settings, s: State, step: Step)
    ensures !step.action.Claiming? ==> LeasesNone(StepChanges(cfg, s, step))
    ensures !(step.action.Calling? && step.action.call.CompleteCall?) ==> CompletesNone(StepChanges(cfg, s, step))
  {
    var env := step.env;
    match step.action
    case Claiming(q) => ClaimCompletesNone(cfg, s, q, env);
    case Calling(q, call) => CallIsPlain(cfg, s, q, call, env);
    case Revoking(order) => PassIsPlain(cfg, s, RevokeAuthorization, order, env);
    case Disposing(order) => PassIsPlain(cfg, s, DisposeAccount, order, env);
    case Recovering(expired, active, dryRun) => RecoveryIsPlain(cfg, s, expired, active, dryRun, env);
    case _ =>
  }

  lemma PlainRow(cfg: Settings, r: Record, op: RowOp, now: int)
    requires ApplyRow(cfg, r, op, now).Ok?
    ensures var r' := ApplyRow(cfg, r, op, now).value.record;
            && r'.spec == r.spec
            && (!op.Complete? ==> r'.result == r.result)
            && (op.Lease? ==> r'.leasedBy == Some(op.worker))
            && (!op.Lease? ==> r'.leasedBy == r.leasedBy || r'.leasedBy.None?)
  {
    if op.CancelLeased? || op.Bury? {
      FinalizeTouchesCostOnly(cfg, r, op.session);
    }
  }

  // ---- whose worker holds a job ----

  // A worker holds only jobs of the types it is registered for, and one that belongs
  // to an organization only jobs of that organization.
  ghost predicate HeldByItsWorker(cfg: Settings, r: Record) {
    r.leasedBy.Some? ==> r.leasedBy.value in cfg.workers && RunsFor(cfg.workers[r.leasedBy.value], {r.spec.jobType}, r.spec)
  }

  ghost predicate AllHeldByTheirs(cfg: Settings, s: State) {
    forall id :: id in s.jobs ==> HeldByItsWorker(cfg, s.jobs[id])
  }

  lemma CreatedIsUnheld(cfg: Settings, s: State, id: nat, q: Submission, now: int)
    requires CreateJob(cfg, s, id, q, now).Ok?
    ensures var s' := CreateJob(cfg, s, id, q, now).value;
            && id in s'.jobs && s'.jobs == s.jobs[id := s'.jobs[id]]
            && s'.jobs[id].leasedBy.None? && s'.jobs[id].result.None?
  {
  }

  lemma MicroKeepsHolders(cfg: Settings, s: State, m: Micro, now: int)
    requires AllSound(s) && AllHeldByTheirs(cfg, s) && MicroFits(cfg, s, m, now)
    requires m.Change? && m.op.Lease? ==> m.op.worker in cfg.workers && RunsFor(cfg.workers[m.op.worker], {s.jobs[m.job].spec.jobType}, s.jobs[m.job].spec)
    ensures AllHeldByTheirs(cfg, MicroResult(cfg, s, m, now))
  {
    match m
    case Change(id, op) =>
      ApplyReplaces(cfg, s, id, op, now);
      PlainRow(cfg, s.jobs[id], op, now);
    case Create(id, q) => CreatedIsUnheld(cfg, s, id, q, now);
    case Recount => NothingToRebuild(s, now);
    case _ =>
  }

  lemma {:induction false} PlainTraceKeepsHolders(cfg: Settings, s: State, t: seq<Micro>, now: int, s': State)
    requires ValidSettings(cfg) && AllSound(s) && AllHeldByTheirs(cfg, s) && Traces(cfg, s, t, now, s') && LeasesNone(t)
    ensures AllHeldByTheirs(cfg, s')
    decreases |t|
  {
    if t != [] {
      MicroKeepsSound(cfg, s, t[0], now);
      MicroKeepsHolders(cfg, s, t[0], now);
      PlainTraceKeepsHolders(cfg, MicroResult(cfg, s, t[0], now), t[1..], now, s');
    }
  }

  lemma PassKeepsHolders(cfg: Settings, s: State, pass: Pass, order: seq<nat>, ids: set<nat>, env: Env)
    requires ValidSettings(cfg) && AllSound(s) && AllHeldByTheirs(cfg, s)
    requires Scannable(s, pass, ids) && forall i :: 0 <= i < |order| ==> order[i] in ids
    requires RunPass(cfg, s, pass, order, env).Ok?
    ensures AllSound(RunPass(cfg, s, pass, order, env).value) && AllHeldByTheirs(cfg, RunPass(cfg, s, pass, order, env).value)
  {
    var t := PassTrace(cfg, s, pass, order, ids, env);
    PassIsPlain(cfg, s, pass, order, env);
    PlainTraceKeepsHolders(cfg, s, t, env.now, RunPass(cfg, s, pass, order, env).value);
  }

  lemma PickedKeepsHolders(cfg: Settings, s: State, id: nat, q: ClaimRequest, env: Env)
    requires AllHeldByTheirs(cfg, s) && MayRun(cfg, s, q, id, env)
    requires ClaimPicked(cfg, s, id, q, env).Ok?
    ensures AllHeldByTheirs(cfg, ClaimPicked(cfg, s, id, q, env).value.state)
  {
    PickEnds(cfg, s, id, q, env);
    match PickOutcomeOf(cfg, s, id, q, env)
    case PickExpired =>
      var moved := s.(counters := MoveToRunning(cfg, s.counters, Scopes(s.jobs[id].spec)).counters);
      ApplyReplaces(cfg, moved, id, FailPending(false), env.now);
      PlainRow(cfg, s.jobs[id], FailPending(false), env.now);
    case PickLeased =>
      ApplyReplaces(cfg, s, id, Lease(q.worker, q.token), env.now);
      PlainRow(cfg, s.jobs[id], Lease(q.worker, q.token), env.now);
    case _ =>
  }

  lemma ScanAndPickKeepsHolders(cfg: Settings, s: State, q: ClaimRequest, env: Env)
    requires ValidSettings(cfg) && AllSound(s) && AllHeldByTheirs(cfg, s) && q.worker in cfg.workers
    requires IsScanWindow(cfg, s.jobs, q.window, env.now) && ScanAndPick(cfg, s, q, env).Ok?
    ensures AllHeldByTheirs(cfg, ScanAndPick(cfg, s, q, env).value.state)
  {
    if |WorkerJobs(s.jobs, q.worker)| < cfg.workers[q.worker].maxConcurrency {
      WindowIsScannable(cfg, s, q, env.now);
      PassKeepsHolders(cfg, s, ScanWindow(q.worker, q.types), q.window, (set i | i in q.window), env);
      PickKeepsHolders(cfg, ScannedAfter(cfg, s, q, env).value, q, env);
    }
  }

  lemma PickKeepsHolders(cfg: Settings, s: State, q: ClaimRequest, env: Env)
    requires AllHeldByTheirs(cfg, s) && PickOne(cfg, s, q, env).Ok?
    ensures AllHeldByTheirs(cfg, PickOne(cfg, s, q, env).value.state)
  {
    var eligible := EligibleFor(cfg, s, q, env);
    if eligible != [] {
      EligibleExactly(cfg, s, q, q.window, env, Pick(s, eligible));
      PickedKeepsHolders(cfg, s, Pick(s, eligible), q, env);
    }
  }

  lemma ClaimKeepsHolders(cfg: Settings, s: State, q: ClaimRequest, env: Env)
    requires ValidSettings(cfg) && AllSound(s) && AllHeldByTheirs(cfg, s) && Enabled(cfg, s, Step(env, Claiming(q)))
    ensures AllHeldByTheirs(cfg, Claim(cfg, s, q, env).state)
  {
    if q.worker in cfg.workers && ClaimAll(cfg, s, q, env).Ok? {
      PassKeepsHolders(cfg, s, RecoverExpired, q.expired, (set i | i in q.expired), env);
      ScanAndPickKeepsHolders(cfg, RunPass(cfg, s, RecoverExpired, q.expired, env).value, q, env);
    }
  }

  lemma StepKeepsHolders(cfg: Settings, s: State, step: Step)
    requires ValidSettings(cfg) && AllSound(s) && AllHeldByTheirs(cfg, s) && Enabled(cfg, s, step)
    ensures AllHeldByTheirs(cfg, Perform(cfg, s, step).state)
  {
    if step.action.Claiming? {
      ClaimKeepsHolders(cfg, s, step.action.claim, step.env);
    } else {
      var t := StepTrace(cfg, s, step);
      StepIsPlain(cfg, s, step);
      PlainTraceKeepsHolders(cfg, s, t, step.env.now, Perform(cfg, s, step).state);
    }
  }

  lemma {:induction false} RunsKeepHolders(cfg: Settings, s: State, steps: seq<Step>)
    requires ValidSettings(cfg) && Core(cfg, s) && AllHeldByTheirs(cfg, s) && IsRun(cfg, s, steps)
    ensures AllHeldByTheirs(cfg, After(cfg, s, steps))
    decreases |steps|
  {
    if steps != [] {
      StepKeepsCore(cfg, s, steps[0]);
      StepKeepsHolders(cfg, s, steps[0]);
      RunsKeepHolders(cfg, Perform(cfg, s, steps[0]).state, steps[1..]);
    }
  }

  // In every run, a job under way is held by a registered worker that is allowed its
  // type; and no worker of an organization holds a job of another, or of none.
  lemma NoForeignJobs(cfg: Settings, steps: seq<Step>, id: nat)
    requires ValidSettings(cfg) && IsRun(cfg, EMPTY, steps)
    requires id in After(cfg, EMPTY, steps).jobs && After(cfg, EMPTY, steps).jobs[id].status in {Leased, Running, CancelRequested}
    ensures var r := After(cfg, EMPTY, steps).jobs[id];
            && r.leasedBy.Some? && r.leasedBy.value in cfg.workers
            && r.spec.jobType in cfg.workers[r.leasedBy.value].allowedTypes
            && (cfg.workers[r.leasedBy.value].organization.Some? ==>
                 r.spec.organization == cfg.workers[r.leasedBy.value].organization)
  {
    EmptyIsCore(cfg);
    RunsKeepCore(cfg, EMPTY, steps);
    RunsKeepHolders(cfg, EMPTY, steps);
    assert Sound(After(cfg, EMPTY, steps).jobs[id]);
  }

  // And the job a claim hands out is of a type that the claim asks for.
  lemma ClaimedFitsWorker(cfg: Settings, s: State, q: ClaimRequest, env: Env, id: nat, generation: nat, token: nat)
    requires Enabled(cfg, s, Step(env, Claiming(q)))
    requires Claim(cfg, s, q, env).reply == Claimed(id, generation, token)
    ensures q.worker in cfg.workers && id in Claim(cfg, s, q, env).state.jobs
    ensures var spec, worker := Claim(cfg, s, q, env).state.jobs[id].spec, cfg.workers[q.worker];
            && spec.jobType in q.types && spec.jobType in worker.allowedTypes
            && (worker.organization.Some? ==> spec.organization == worker.organization)
  {
    ClaimedIsFirstInLine(cfg, s, q, env, id, generation, token);
    var recovered := Recovered(cfg, s, q, env).value;
    ScanKeepsSpec(cfg, recovered, q, env, id);
  }

  lemma ScanKeepsSpec(cfg: Settings, s: State, q: ClaimRequest, env: Env, id: nat)
    requires IsScanWindow(cfg, s.jobs, q.window, env.now) && ScannedAfter(cfg, s, q, env).Ok?
    requires id in s.jobs
    ensures id in ScannedAfter(cfg, s, q, env).value.jobs && ScannedAfter(cfg, s, q, env).value.jobs[id].spec == s.jobs[id].spec
  {
    var scan := ScanWindow(q.worker, q.types);
    WindowIsDistinct(cfg, s.jobs, q.window, env.now);
    PassIsPointwise(cfg, s, scan, q.window, env);
    var op := Decide(cfg, scan, id, s.jobs[id], env);
    if op.Some? && ApplyRow(cfg, s.jobs[id], op.value, env.now).Ok? {
      PlainRow(cfg, s.jobs[id], op.value, env.now);
    }
  }

  // ---- where a result comes from ----

  // A result is neither changed nor made up.
  ghost predicate KeepsResults(s: State, s': State) {
    forall id :: id in s'.jobs ==> s'.jobs[id].result == if id in s.jobs then s.jobs[id].result else None
  }

  lemma MicroKeepsResults(cfg: Settings, s: State, m: Micro, now: int)
    requires AllSound(s) && MicroFits(cfg, s, m, now) && (m.Change? ==> !m.op.Complete?)
    ensures KeepsResults(s, MicroResult(cfg, s, m, now)) && s.jobs.Keys <= MicroResult(cfg, s, m, now).jobs.Keys
  {
    match m
    case Change(id, op) => ChangeKeepsResults(cfg, s, id, op, now);
    case Create(id, q) => CreatedIsUnheld(cfg, s, id, q, now);
    case Recount => NothingToRebuild(s, now);
    case _ =>
  }

  lemma ChangeKeepsResults(cfg: Settings, s: State, id: nat, op: RowOp, now: int)
    requires id in s.jobs && !op.Complete? && ApplyOp(cfg, s, id, op, now).Ok?
    ensures KeepsResults(s, ApplyOp(cfg, s, id, op, now).value) && ApplyOp(cfg, s, id, op, now).value.jobs.Keys == s.jobs.Keys
  {
    ApplyReplaces(cfg, s, id, op, now);
    PlainRow(cfg, s.jobs[id], op, now);
  }

  lemma {:induction false} TraceKeepsResults(cfg: Settings, s: State, t: seq<Micro>, now: int, s': State)
    requires ValidSettings(cfg) && AllSound(s) && Traces(cfg, s, t, now, s') && CompletesNone(t)
    ensures KeepsResults(s, s') && s.jobs.Keys <= s'.jobs.Keys
    decreases |t|
  {
    if t != [] {
      MicroKeepsSound(cfg, s, t[0], now);
      MicroKeepsResults(cfg, s, t[0], now);
      TraceKeepsResults(cfg, MicroResult(cfg, s, t[0], now), t[1..], now, s');
    }
  }

  // The step reports the completion of the job, with this result.
  predicate Reports(step: Step, id: nat, result: JobResult) {
    && step.action.Calling? && step.action.call.CompleteCall? && step.action.call.verdict != ResultInvalid
    && step.action.request.job == id
    && result == JobResult(step.action.request.worker, step.action.request.generation, step.action.call.payload)
  }

  lemma StepResults(cfg: Settings, s: State, step: Step, id: nat)
    requires ValidSettings(cfg) && AllSound(s) && Enabled(cfg, s, step)
    requires id in Perform(cfg, s, step).state.jobs && Perform(cfg, s, step).state.jobs[id].result.Some?
    ensures var result := Perform(cfg, s, step).state.jobs[id].result;
            (id in s.jobs && s.jobs[id].result == result) || Reports(step, id, result.value)
  {
    StepIsPlain(cfg, s, step);
    if step.action.Calling? && step.action.call.CompleteCall? {
      CompletionResults(cfg, s, step.action.request, step.action.call, step.env, id);
    } else {
      var t := StepTrace(cfg, s, step);
      TraceKeepsResults(cfg, s, t, step.env.now, Perform(cfg, s, step).state);
    }
  }

  lemma CompletionResults(cfg: Settings, s: State, q: LeaseRequest, call: Call, env: Env, id: nat)
    requires AllSound(s) && call.CompleteCall?
    requires id in WorkerCall(cfg, s, q, call, env).state.jobs
    ensures var result := WorkerCall(cfg, s, q, call, env).state.jobs[id].result;
            || (id in s.jobs && s.jobs[id].result == result)
            || (call.verdict != ResultInvalid && q.job == id && result == Some(JobResult(q.worker, q.generation, call.payload)))
  {
    if Served(s, q, env) {
      CompleteOutcome(cfg, s, q, call.verdict, call.payload, env);
    } else {
      UnservedIsRefused(cfg, s, q, call, env);
    }
  }

  lemma {:induction false} ResultHasReport(cfg: Settings, s: State, steps: seq<Step>, id: nat)
    requires ValidSettings(cfg) && Core(cfg, s) && IsRun(cfg, s, steps)
    requires id in After(cfg, s, steps).jobs && After(cfg, s, steps).jobs[id].result.Some?
    ensures var result := After(cfg, s, steps).jobs[id].result;
            (id in s.jobs && s.jobs[id].result == result) || exists i :: 0 <= i < |steps| && Reports(steps[i], id, result.value)
    decreases |steps|
  {
    if steps != [] {
      var s' := Perform(cfg, s, steps[0]).state;
      var result := After(cfg, s, steps).jobs[id].result;
      StepKeepsCore(cfg, s, steps[0]);
      ResultHasReport(cfg, s', steps[1..], id);
      if id in s'.jobs && s'.jobs[id].result == result {
        StepResults(cfg, s, steps[0], id);
        assert Reports(steps[0], id, result.value) ==> exists i :: 0 <= i < |steps| && Reports(steps[i], id, result.value);
      } else {
        var i :| 0 <= i < |steps[1..]| && Reports(steps[1..][i], id, result.value);
        assert Reports(steps[i + 1], id, result.value);
      }
    }
  }

  // In every run, the result of a completed job is what a worker reported for it in
  // that run, quoting the job's last generation; and that worker is the one that
  // generation was handed to.
  lemma ResultsAreReported(cfg: Settings, steps: seq<Step>, id: nat)
    requires ValidSettings(cfg) && IsRun(cfg, EMPTY, steps)
    requires id in After(cfg, EMPTY, steps).jobs && After(cfg, EMPTY, steps).jobs[id].status == Completed
    ensures var r := After(cfg, EMPTY, steps).jobs[id];
            && r.result.Some? && r.attempts != []
            && r.result.value.generation == r.leaseGeneration
            && r.result.value.worker == r.attempts[|r.attempts| - 1].worker
            && exists i :: 0 <= i < |steps| && Reports(steps[i], id, r.result.value)
  {
    EmptyIsCore(cfg);
    RunsKeepCore(cfg, EMPTY, steps);
    assert Sound(After(cfg, EMPTY, steps).jobs[id]);
    ResultHasReport(cfg, EMPTY, steps, id);
  }
}
