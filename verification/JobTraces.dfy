// Every step of the protocol, taken apart into changes to one job and a few
// changes beside the jobs. Invariants about counters and money are proved for
// one such change and then hold for every step and every run, at every point
// between two changes.

module JobTraces {
  import opened Outcomes
  import opened JobRegistry
  import opened JobStatusMachine
  import opened JobRows
  import opened JobRowProofs
  import opened Capacity
  import opened JobProtocol
  import opened JobInvariants
  import opened JobTheorems

  datatype Micro =
    | Change(job: nat, op: RowOp)
    | Create(job: nat, submission: Submission)
    | TryMove(job: nat)
    | Issue(token: nat, ticket: Ticket)
    | Draw(key: QuotaKey, limit: nat, amount: nat)
    | Recount

  // The capacity move of a claim that hands out no lease: refused, or followed
  // by the job's failure, which only the horizon of a provider session allows.
  ghost predicate MicroFits(cfg: Settings, s: State, m: Micro, now: int) {
    match m
    case Change(id, op) => id in s.jobs && Fits(s.jobs[id], op) && ApplyOp(cfg, s, id, op, now).Ok?
    case Create(id, q) => id !in s.jobs && CreateJob(cfg, s, id, q, now).Ok?
    case TryMove(id) =>
      && id in s.jobs && Pending(s.jobs[id].status)
      && (MoveToRunning(cfg, s.counters, Scopes(s.jobs[id].spec)).SlotsRefused? || s.jobs[id].spec.jobType == VastSessionStart)
    case _ => true
  }

  ghost function MicroResult(cfg: Settings, s: State, m: Micro, now: int): State
    requires MicroFits(cfg, s, m, now)
  {
    match m
    case Change(id, op) => ApplyOp(cfg, s, id, op, now).value
    case Create(id, q) => CreateJob(cfg, s, id, q, now).value
    case TryMove(id) => s.(counters := MoveToRunning(cfg, s.counters, Scopes(s.jobs[id].spec)).counters)
    case Issue(token, ticket) => s.(tickets := s.tickets[token := ticket])
    case Draw(key, limit, amount) => ConsumeQuota(s, key, limit, amount).state
    case Recount => Reconcile(s, now)
  }

  // The changes t lead from s to s'.
  ghost predicate Traces(cfg: Settings, s: State, t: seq<Micro>, now: int, s': State)
    decreases |t|
  {
    if t == [] then s' == s
    else MicroFits(cfg, s, t[0], now) && Traces(cfg, MicroResult(cfg, s, t[0], now), t[1..], now, s')
  }

  lemma TraceOfOne(cfg: Settings, s: State, m: Micro, now: int)
    requires MicroFits(cfg, s, m, now)
    ensures Traces(cfg, s, [m], now, MicroResult(cfg, s, m, now))
  {
    assert [m][1..] == [];
  }

  lemma {:induction false} TraceOfTwo(cfg: Settings, s0: State, t1: seq<Micro>, s1: State, t2: seq<Micro>, s2: State, now: int)
    requires Traces(cfg, s0, t1, now, s1) && Traces(cfg, s1, t2, now, s2)
    ensures Traces(cfg, s0, t1 + t2, now, s2)
    decreases |t1|
  {
    if t1 == [] {
      assert t1 + t2 == t2;
    } else {
      assert (t1 + t2)[0] == t1[0] && (t1 + t2)[1..] == t1[1..] + t2;
      TraceOfTwo(cfg, MicroResult(cfg, s0, t1[0], now), t1[1..], s1, t2, s2, now);
    }
  }

  predicate GivesUp(m: Micro) {
    m.Change? && IsRelease(m.op)
  }

  // No attempts are given up voluntarily on the way.
  ghost predicate ReleasesNone(t: seq<Micro>) {
    forall i :: 0 <= i < |t| ==> !GivesUp(t[i])
  }

  // And no jobs are created either.
  ghost predicate Routine(t: seq<Micro>) {
    ReleasesNone(t) && forall i :: 0 <= i < |t| ==> !t[i].Create?
  }

  lemma RoutineOfTwo(cfg: Settings, s0: State, t1: seq<Micro>, s1: State, t2: seq<Micro>, s2: State, now: int)
    requires Traces(cfg, s0, t1, now, s1) && Traces(cfg, s1, t2, now, s2) && Routine(t1) && Routine(t2)
    ensures Traces(cfg, s0, t1 + t2, now, s2) && Routine(t1 + t2)
  {
    TraceOfTwo(cfg, s0, t1, s1, t2, s2, now);
  }

  // ---- the changes a step is made of ----

  ghost function PassOneChanges(cfg: Settings, s: State, pass: Pass, id: nat, env: Env): seq<Micro> {
    if id in s.jobs && Decide(cfg, pass, id, s.jobs[id], env).Some?
    then [Change(id, Decide(cfg, pass, id, s.jobs[id], env).value)] else []
  }

  ghost function PassChanges(cfg: Settings, s: State, pass: Pass, order: seq<nat>, env: Env): seq<Micro>
    decreases |order|
  {
    if order == [] || PassOne(cfg, s, pass, order[0], env).Raised? then []
    else PassOneChanges(cfg, s, pass, order[0], env) +
         PassChanges(cfg, PassOne(cfg, s, pass, order[0], env).value, pass, order[1..], env)
  }

  // A pass that is raised is rolled back.
  ghost function WholePassChanges(cfg: Settings, s: State, pass: Pass, order: seq<nat>, env: Env): seq<Micro> {
    if RunPass(cfg, s, pass, order, env).Ok? then PassChanges(cfg, s, pass, order, env) else []
  }

  ghost function CallChanges(cfg: Settings, s: State, q: LeaseRequest, call: Call, env: Env): seq<Micro> {
    var op := CallOp(cfg, s, q, call, env);
    if op.Some? then [Change(q.job, op.value)] else []
  }

  ghost function CancelChanges(cfg: Settings, s: State, id: nat, allowed: bool, env: Env): seq<Micro> {
    if id !in s.jobs || CancelJob(cfg, s, id, allowed, env).state == s then []
    else [Change(id, if s.jobs[id].leasedBy.None? then CancelPending else RequestCancel)]
  }

  ghost function RecoverChanges(cfg: Settings, s: State, expired: seq<nat>, active: seq<nat>, dryRun: bool, env: Env): seq<Micro> {
    if dryRun || RecoverDurable(cfg, s, expired, active, dryRun, env).reply != Done then []
    else PassChanges(cfg, s, RecoverExpired, expired, env) +
         PassChanges(cfg, RunPass(cfg, s, RecoverExpired, expired, env).value, RevalidateAuthorization, active, env) +
         [Recount]
  }

  ghost function PickedChanges(cfg: Settings, s: State, id: nat, q: ClaimRequest, env: Env): seq<Micro>
    requires id in s.jobs
  {
    match PickOutcomeOf(cfg, s, id, q, env)
    case PickRefused => [TryMove(id)]
    case PickExpired => [TryMove(id), Change(id, FailPending(false))]
    case PickLeased => [Change(id, Lease(q.worker, q.token)), Issue(q.token, Ticket(id, s.jobs[id].leaseGeneration + 1))]
    case PickRaised => []
  }

  ghost function PickChanges(cfg: Settings, s: State, q: ClaimRequest, env: Env): seq<Micro> {
    var eligible := Eligible(cfg, s, q.worker, q.types, q.window, env);
    if eligible == [] then [] else PickedChanges(cfg, s, Pick(s, eligible), q, env)
  }

  ghost function ScanAndPickChanges(cfg: Settings, s: State, q: ClaimRequest, env: Env): seq<Micro>
    requires q.worker in cfg.workers && ScanAndPick(cfg, s, q, env).Ok?
  {
    var scan := ScanWindow(q.worker, q.types);
    if |WorkerJobs(s.jobs, q.worker)| >= cfg.workers[q.worker].maxConcurrency then []
    else PassChanges(cfg, s, scan, q.window, env) + PickChanges(cfg, RunPass(cfg, s, scan, q.window, env).value, q, env)
  }

  ghost function ClaimChanges(cfg: Settings, s: State, q: ClaimRequest, env: Env): seq<Micro> {
    if q.worker !in cfg.workers || ClaimAll(cfg, s, q, env).Raised? then []
    else PassChanges(cfg, s, RecoverExpired, q.expired, env) +
         ScanAndPickChanges(cfg, RunPass(cfg, s, RecoverExpired, q.expired, env).value, q, env)
  }

  ghost function SubmitChanges(cfg: Settings, s: State, id: nat, q: Submission, now: int): seq<Micro> {
    if q.refusal.None? && FindByKey(s.jobs, KeyOf(q)).None? && CreateJob(cfg, s, id, q, now).Ok? then [Create(id, q)] else []
  }

  // The changes of a step, in the order in which the step makes them.
  ghost function StepChanges(cfg: Settings, s: State, step: Step): seq<Micro> {
    var env := step.env;
    match step.action
    case Submitting(id, submission) => SubmitChanges(cfg, s, id, submission, env.now)
    case Claiming(q) => ClaimChanges(cfg, s, q, env)
    case Consuming(key, limit, amount) => [Draw(key, limit, amount)]
    case Calling(request, call) => CallChanges(cfg, s, request, call, env)
    case Cancelling(id, allowed) => CancelChanges(cfg, s, id, allowed, env)
    case Revoking(order) => WholePassChanges(cfg, s, RevokeAuthorization, order, env)
    case Disposing(order) => WholePassChanges(cfg, s, DisposeAccount, order, env)
    case Recovering(expired, active, dryRun) => RecoverChanges(cfg, s, expired, active, dryRun, env)
  }

  // ---- taking the steps apart ----

  lemma OpKeepsSound(cfg: Settings, s: State, id: nat, op: RowOp, now: int)
    requires AllSound(s) && id in s.jobs && Fits(s.jobs[id], op)
    requires ApplyOp(cfg, s, id, op, now).Ok?
    ensures AllSound(ApplyOp(cfg, s, id, op, now).value)
  {
    ApplyKeepsSound(cfg, s.jobs[id], op, now);
    ApplyReplaces(cfg, s, id, op, now);
  }

  lemma ChangeTrace(cfg: Settings, s: State, id: nat, op: RowOp, now: int)
    requires id in s.jobs && Fits(s.jobs[id], op) && ApplyOp(cfg, s, id, op, now).Ok?
    ensures Traces(cfg, s, [Change(id, op)], now, ApplyOp(cfg, s, id, op, now).value)
  {
    TraceOfOne(cfg, s, Change(id, op), now);
  }

  lemma PassOneTrace(cfg: Settings, s: State, pass: Pass, id: nat, env: Env) returns (t: seq<Micro>)
    requires AllSound(s) && Scannable(s, pass, {id})
    requires PassOne(cfg, s, pass, id, env).Ok?
    ensures t == PassOneChanges(cfg, s, pass, id, env)
    ensures Traces(cfg, s, t, env.now, PassOne(cfg, s, pass, id, env).value) && Routine(t)
    ensures AllSound(PassOne(cfg, s, pass, id, env).value)
  {
    t := [];
    if id in s.jobs && Decide(cfg, pass, id, s.jobs[id], env).Some? {
      var op := Decide(cfg, pass, id, s.jobs[id], env).value;
      assert id in {id};
      DecisionFits(cfg, pass, id, s.jobs[id], env);
      OpKeepsSound(cfg, s, id, op, env.now);
      ChangeTrace(cfg, s, id, op, env.now);
      t := [Change(id, op)];
    }
  }

  lemma {:induction false} PassTrace(cfg: Settings, s: State, pass: Pass, order: seq<nat>, ids: set<nat>, env: Env) returns (t: seq<Micro>)
    requires AllSound(s)
    requires Scannable(s, pass, ids) && forall i :: 0 <= i < |order| ==> order[i] in ids
    requires RunPass(cfg, s, pass, order, env).Ok?
    ensures t == PassChanges(cfg, s, pass, order, env)
    ensures Traces(cfg, s, t, env.now, RunPass(cfg, s, pass, order, env).value) && Routine(t)
    ensures AllSound(RunPass(cfg, s, pass, order, env).value)
    decreases |order|
  {
    t := [];
    if order != [] {
      var s' := PassOne(cfg, s, pass, order[0], env).value;
      assert Scannable(s, pass, {order[0]});
      var first := PassOneTrace(cfg, s, pass, order[0], env);
      PassOneKeepsScannable(cfg, s, pass, order[0], ids, env);
      var rest := PassTrace(cfg, s', pass, order[1..], ids, env);
      t := first + rest;
      RoutineOfTwo(cfg, s, first, s', rest, RunPass(cfg, s', pass, order[1..], env).value, env.now);
    }
  }

  lemma CallTrace(cfg: Settings, s: State, q: LeaseRequest, call: Call, env: Env) returns (t: seq<Micro>)
    ensures t == CallChanges(cfg, s, q, call, env)
    ensures Traces(cfg, s, t, env.now, WorkerCall(cfg, s, q, call, env).state)
    ensures t == [] || (|t| == 1 && t[0].Change? && t[0].job == q.job && (GivesUp(t[0]) ==> call.ReleaseCall?))
  {
    var op := CallIsOneOp(cfg, s, q, call, env);
    t := if op.Some? then [Change(q.job, op.value)] else [];
    if op.Some? {
      ChangeTrace(cfg, s, q.job, op.value, env.now);
    }
  }

  lemma CancelTrace(cfg: Settings, s: State, id: nat, allowed: bool, env: Env) returns (t: seq<Micro>)
    requires AllSound(s)
    ensures t == CancelChanges(cfg, s, id, allowed, env)
    ensures Traces(cfg, s, t, env.now, CancelJob(cfg, s, id, allowed, env).state) && Routine(t)
  {
    t := CancelChanges(cfg, s, id, allowed, env);
    if t != [] {
      var r := s.jobs[id];
      assert Sound(r);
      ChangeTrace(cfg, s, id, if r.leasedBy.None? then CancelPending else RequestCancel, env.now);
    }
  }

  lemma WholePassTrace(cfg: Settings, s: State, pass: Pass, order: seq<nat>, env: Env) returns (t: seq<Micro>)
    requires AllSound(s) && !pass.ScanWindow?
    ensures t == WholePassChanges(cfg, s, pass, order, env)
    ensures Traces(cfg, s, t, env.now, WholePass(cfg, s, pass, order, env).state) && Routine(t)
  {
    t := [];
    if RunPass(cfg, s, pass, order, env).Ok? {
      t := PassTrace(cfg, s, pass, order, (set i | i in order), env);
    }
  }

  lemma ThenRecount(cfg: Settings, s: State, t: seq<Micro>, s': State, now: int)
    requires Traces(cfg, s, t, now, s') && Routine(t)
    ensures Traces(cfg, s, t + [Recount], now, Reconcile(s', now)) && Routine(t + [Recount])
  {
    TraceOfOne(cfg, s', Recount, now);
    TraceOfTwo(cfg, s, t, s', [Recount], MicroResult(cfg, s', Recount, now), now);
  }

  lemma RecoverTrace(cfg: Settings, s: State, expired: seq<nat>, active: seq<nat>, dryRun: bool, env: Env) returns (t: seq<Micro>)
    requires AllSound(s)
    ensures t == RecoverChanges(cfg, s, expired, active, dryRun, env)
    ensures Traces(cfg, s, t, env.now, RecoverDurable(cfg, s, expired, active, dryRun, env).state) && Routine(t)
  {
    t := [];
    if !dryRun && RecoverDurable(cfg, s, expired, active, dryRun, env).reply == Done {
      var s1 := RunPass(cfg, s, RecoverExpired, expired, env).value;
      var first := PassTrace(cfg, s, RecoverExpired, expired, (set i | i in expired), env);
      var s2 := RunPass(cfg, s1, RevalidateAuthorization, active, env).value;
      var second := PassTrace(cfg, s1, RevalidateAuthorization, active, (set i | i in active), env);
      RoutineOfTwo(cfg, s, first, s1, second, s2, env.now);
      ThenRecount(cfg, s, first + second, s2, env.now);
      t := first + second + [Recount];
    }
  }

  // ---- claims ----

  // A claimable job of any type but a provider session gets a lease that has
  // not run out when it starts.
  lemma ClaimableLeaseIsLive(cfg: Settings, r: Record, now: int)
    requires ValidSettings(cfg) && Claimable(r, now)
    requires r.spec.jobType != VastSessionStart
    ensures LeaseDeadline(cfg, r, now, Some(AttemptHorizon(cfg, r, now))) > now
  {
  }

  // The job of a claim: pending, and not expired on the spot unless it is a
  // provider session.
  ghost predicate Pickable(cfg: Settings, r: Record, now: int) {
    && Pending(r.status)
    && (r.spec.jobType == VastSessionStart || LeaseDeadline(cfg, r, now, Some(AttemptHorizon(cfg, r, now))) > now)
  }

  lemma PickedTrace(cfg: Settings, s: State, id: nat, q: ClaimRequest, env: Env) returns (t: seq<Micro>)
    requires id in s.jobs && Pickable(cfg, s.jobs[id], env.now)
    requires ClaimPicked(cfg, s, id, q, env).Ok?
    ensures t == PickedChanges(cfg, s, id, q, env)
    ensures Traces(cfg, s, t, env.now, ClaimPicked(cfg, s, id, q, env).value.state) && Routine(t)
  {
    PickEnds(cfg, s, id, q, env);
    var now := env.now;
    match PickOutcomeOf(cfg, s, id, q, env)
    case PickRefused =>
      t := [TryMove(id)];
      TraceOfOne(cfg, s, TryMove(id), now);
    case PickExpired =>
      TraceOfOne(cfg, s, TryMove(id), now);
      ExpiredTrace(cfg, s, id, MicroResult(cfg, s, TryMove(id), now), ClaimPicked(cfg, s, id, q, env).value.state, now);
      t := [TryMove(id), Change(id, FailPending(false))];
    case PickLeased =>
      t := LeasedTrace(cfg, s, id, q, now);
    case PickRaised => assert false;
  }

  lemma ThenChange(cfg: Settings, s: State, first: Micro, moved: State, id: nat, op: RowOp, now: int)
    requires Traces(cfg, s, [first], now, moved)
    requires id in moved.jobs && Fits(moved.jobs[id], op) && ApplyOp(cfg, moved, id, op, now).Ok?
    ensures Traces(cfg, s, [first, Change(id, op)], now, ApplyOp(cfg, moved, id, op, now).value)
  {
    TraceOfOne(cfg, moved, Change(id, op), now);
    TraceOfTwo(cfg, s, [first], moved, [Change(id, op)], ApplyOp(cfg, moved, id, op, now).value, now);
    assert [first] + [Change(id, op)] == [first, Change(id, op)];
  }

  lemma ExpiredTrace(cfg: Settings, s: State, id: nat, moved: State, failed: State, now: int)
    requires Traces(cfg, s, [TryMove(id)], now, moved)
    requires id in moved.jobs && ApplyOp(cfg, moved, id, FailPending(false), now) == Ok(failed) && Pending(moved.jobs[id].status)
    ensures Traces(cfg, s, [TryMove(id), Change(id, FailPending(false))], now, failed)
  {
    ThenChange(cfg, s, TryMove(id), moved, id, FailPending(false), now);
  }

  lemma LeasedTrace(cfg: Settings, s: State, id: nat, q: ClaimRequest, now: int) returns (t: seq<Micro>)
    requires id in s.jobs
    requires ApplyOp(cfg, s, id, Lease(q.worker, q.token), now).Ok?
    ensures Traces(cfg, s, t, now, Ticketed(ApplyOp(cfg, s, id, Lease(q.worker, q.token), now).value,
                                            q.token, id, s.jobs[id].leaseGeneration + 1))
    ensures t == [Change(id, Lease(q.worker, q.token)), Issue(q.token, Ticket(id, s.jobs[id].leaseGeneration + 1))]
  {
    var leased := ApplyOp(cfg, s, id, Lease(q.worker, q.token), now).value;
    var first := [Change(id, Lease(q.worker, q.token))];
    ChangeTrace(cfg, s, id, Lease(q.worker, q.token), now);
    var issue := Issue(q.token, Ticket(id, s.jobs[id].leaseGeneration + 1));
    TraceOfOne(cfg, leased, issue, now);
    TraceOfTwo(cfg, s, first, leased, [issue], MicroResult(cfg, leased, issue, now), now);
    t := first + [issue];
  }

  lemma WindowIsDistinct(cfg: Settings, jobs: map<nat, Record>, window: seq<nat>, now: int)
    requires IsScanWindow(cfg, jobs, window, now)
    ensures Distinct(window)
  {
    forall i, j | 0 <= i < j < |window|
      ensures window[i] != window[j]
    {
      assert ScanBefore(jobs, window[i], window[j]);
    }
  }

  // The scan leaves the jobs it does not fail as they were.
  lemma EligibleIsPickable(cfg: Settings, s: State, q: ClaimRequest, id: nat, env: Env)
    requires ValidSettings(cfg) && IsScanWindow(cfg, s.jobs, q.window, env.now)
    requires RunPass(cfg, s, ScanWindow(q.worker, q.types), q.window, env).Ok?
    requires id in Eligible(cfg, RunPass(cfg, s, ScanWindow(q.worker, q.types), q.window, env).value, q.worker, q.types, q.window, env)
    ensures Pickable(cfg, RunPass(cfg, s, ScanWindow(q.worker, q.types), q.window, env).value.jobs[id], env.now)
  {
    var scan := ScanWindow(q.worker, q.types);
    WindowIsDistinct(cfg, s.jobs, q.window, env.now);
    PassIsPointwise(cfg, s, scan, q.window, env);
    assert Decide(cfg, scan, id, s.jobs[id], env).None?;
    if s.jobs[id].spec.jobType != VastSessionStart {
      ClaimableLeaseIsLive(cfg, s.jobs[id], env.now);
    }
  }

  lemma PickTrace(cfg: Settings, s: State, q: ClaimRequest, env: Env) returns (t: seq<Micro>)
    requires forall id :: id in Eligible(cfg, s, q.worker, q.types, q.window, env) ==> Pickable(cfg, s.jobs[id], env.now)
    requires PickOne(cfg, s, q, env).Ok?
    ensures t == PickChanges(cfg, s, q, env)
    ensures Traces(cfg, s, t, env.now, PickOne(cfg, s, q, env).value.state) && Routine(t)
  {
    t := [];
    var eligible := Eligible(cfg, s, q.worker, q.types, q.window, env);
    if eligible != [] {
      t := PickedTrace(cfg, s, Pick(s, eligible), q, env);
    }
  }

  lemma ScanTrace(cfg: Settings, s: State, q: ClaimRequest, env: Env) returns (t: seq<Micro>)
    requires ValidSettings(cfg) && AllSound(s) && IsScanWindow(cfg, s.jobs, q.window, env.now)
    requires RunPass(cfg, s, ScanWindow(q.worker, q.types), q.window, env).Ok?
    ensures t == PassChanges(cfg, s, ScanWindow(q.worker, q.types), q.window, env)
    ensures var scanned := RunPass(cfg, s, ScanWindow(q.worker, q.types), q.window, env).value;
            && Traces(cfg, s, t, env.now, scanned) && Routine(t)
            && (forall id :: id in Eligible(cfg, scanned, q.worker, q.types, q.window, env) ==> Pickable(cfg, scanned.jobs[id], env.now))
  {
    var scan := ScanWindow(q.worker, q.types);
    var scanned := RunPass(cfg, s, scan, q.window, env).value;
    WindowIsScannable(cfg, s, q, env.now);
    t := PassTrace(cfg, s, scan, q.window, (set i | i in q.window), env);
    forall id | id in Eligible(cfg, scanned, q.worker, q.types, q.window, env)
      ensures Pickable(cfg, scanned.jobs[id], env.now)
    {
      EligibleIsPickable(cfg, s, q, id, env);
    }
  }

  lemma ScanAndPickTrace(cfg: Settings, s: State, q: ClaimRequest, env: Env) returns (t: seq<Micro>)
    requires ValidSettings(cfg) && AllSound(s) && q.worker in cfg.workers
    requires IsScanWindow(cfg, s.jobs, q.window, env.now)
    requires ScanAndPick(cfg, s, q, env).Ok?
    ensures t == ScanAndPickChanges(cfg, s, q, env)
    ensures Traces(cfg, s, t, env.now, ScanAndPick(cfg, s, q, env).value.state) && Routine(t)
  {
    t := [];
    if |WorkerJobs(s.jobs, q.worker)| < cfg.workers[q.worker].maxConcurrency {
      var scanned := RunPass(cfg, s, ScanWindow(q.worker, q.types), q.window, env).value;
      var first := ScanTrace(cfg, s, q, env);
      var second := PickTrace(cfg, scanned, q, env);
      RoutineOfTwo(cfg, s, first, scanned, second, PickOne(cfg, scanned, q, env).value.state, env.now);
      t := first + second;
    }
  }

  lemma ClaimTrace(cfg: Settings, s: State, q: ClaimRequest, env: Env) returns (t: seq<Micro>)
    requires ValidSettings(cfg) && AllSound(s) && Enabled(cfg, s, Step(env, Claiming(q)))
    ensures t == ClaimChanges(cfg, s, q, env)
    ensures Traces(cfg, s, t, env.now, Claim(cfg, s, q, env).state) && Routine(t)
  {
    t := [];
    if q.worker in cfg.workers && ClaimAll(cfg, s, q, env).Ok? {
      var recovered := RunPass(cfg, s, RecoverExpired, q.expired, env).value;
      var first := PassTrace(cfg, s, RecoverExpired, q.expired, (set i | i in q.expired), env);
      var second := ScanAndPickTrace(cfg, recovered, q, env);
      RoutineOfTwo(cfg, s, first, recovered, second, ScanAndPick(cfg, recovered, q, env).value.state, env.now);
      t := first + second;
    }
  }

  // ---- every step ----

  // The only job a step can create is the one it submits.
  ghost predicate CreatesOnly(t: seq<Micro>, action: Action) {
    forall i :: 0 <= i < |t| && t[i].Create? ==> action.Submitting? && t[i].submission == action.submission
  }

  // The only attempt a step can give up is the one its worker releases.
  ghost predicate ReleasesOnly(t: seq<Micro>, action: Action) {
    || ReleasesNone(t)
    || (action.Calling? && action.call.ReleaseCall? && |t| == 1 && t[0].Change? && t[0].job == action.request.job)
  }

  lemma SubmitTrace(cfg: Settings, s: State, id: nat, q: Submission, now: int) returns (t: seq<Micro>)
    requires id !in s.jobs
    ensures t == SubmitChanges(cfg, s, id, q, now)
    ensures Traces(cfg, s, t, now, Submit(cfg, s, id, q, now).state) && CreatesOnly(t, Submitting(id, q)) && ReleasesNone(t)
  {
    t := SubmitChanges(cfg, s, id, q, now);
    if t != [] {
      TraceOfOne(cfg, s, Create(id, q), now);
    }
  }

  // Every enabled step is the sequence of its changes, and each of them fits.
  lemma StepTrace(cfg: Settings, s: State, step: Step) returns (t: seq<Micro>)
    requires ValidSettings(cfg) && AllSound(s) && Enabled(cfg, s, step)
    ensures t == StepChanges(cfg, s, step)
    ensures Traces(cfg, s, t, step.env.now, Perform(cfg, s, step).state)
    ensures CreatesOnly(t, step.action) && ReleasesOnly(t, step.action)
  {
    var env := step.env;
    match step.action
    case Submitting(id, submission) => t := SubmitTrace(cfg, s, id, submission, env.now);
    case Calling(request, call) => t := CallTrace(cfg, s, request, call, env);
    case _ => t := RoutineTrace(cfg, s, step);
  }

  lemma RoutineTrace(cfg: Settings, s: State, step: Step) returns (t: seq<Micro>)
    requires ValidSettings(cfg) && AllSound(s) && Enabled(cfg, s, step)
    requires !step.action.Submitting? && !step.action.Calling?
    ensures t == StepChanges(cfg, s, step)
    ensures Traces(cfg, s, t, step.env.now, Perform(cfg, s, step).state) && Routine(t)
  {
    var env := step.env;
    match step.action
    case Claiming(q) => t := ClaimTrace(cfg, s, q, env);
    case Consuming(key, limit, amount) =>
      t := [Draw(key, limit, amount)];
      TraceOfOne(cfg, s, Draw(key, limit, amount), env.now);
    case Cancelling(id, allowed) => t := CancelTrace(cfg, s, id, allowed, env);
    case Revoking(order) => t := WholePassTrace(cfg, s, RevokeAuthorization, order, env);
    case Disposing(order) => t := WholePassTrace(cfg, s, DisposeAccount, order, env);
    case Recovering(expired, active, dryRun) => t := RecoverTrace(cfg, s, expired, active, dryRun, env);
  }

  // One such change keeps every job sound.
  lemma MicroKeepsSound(cfg: Settings, s: State, m: Micro, now: int)
    requires ValidSettings(cfg) && AllSound(s) && MicroFits(cfg, s, m, now)
    ensures AllSound(MicroResult(cfg, s, m, now))
  {
    match m
    case Change(id, op) => OpKeepsSound(cfg, s, id, op, now);
    case Create(id, q) => CreateAdds(cfg, s, id, q, now);
    case Recount => NothingToRebuild(s, now);
    case _ =>
  }
}
