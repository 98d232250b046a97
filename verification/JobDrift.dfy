// The capacity counters over all runs, provider sessions included: exact at every
// point exactly when no change on the way makes them drift.

module JobDrift {
  import opened JobRegistry
  import opened JobStatusMachine
  import opened JobRows
  import opened JobRowProofs
  import opened Capacity
  import opened JobProtocol
  import opened JobInvariants
  import opened JobTraces
  import opened JobCapacityProofs
  import opened JobClaims

  ghost predicate SomeoneWaits(jobs: map<nat, Record>) {
    exists id :: id in jobs && Pending(jobs[id].status)
  }

  // Settling a provider session that was never submitted, while some job waits.
  ghost predicate LosesPending(s: State, m: Micro) {
    m.Change? && m.job in s.jobs && SettlesAsPending(s.jobs[m.job], m.op) && SomeoneWaits(s.jobs)
  }

  // Taking the running slots of a job whose lease would be over at once.
  ghost predicate LeaksRunning(cfg: Settings, s: State, m: Micro) {
    m.TryMove? && m.job in s.jobs && MoveToRunning(cfg, s.counters, Scopes(s.jobs[m.job].spec)).SlotsTaken?
  }

  ghost predicate Drifts(cfg: Settings, s: State, m: Micro) {
    LosesPending(s, m) || LeaksRunning(cfg, s, m)
  }

  // ---- one change ----

  lemma WaitingIsCounted(s: State)
    requires Exact(s)
    ensures Get(s.counters, GlobalScope).pending > 0 <==> SomeoneWaits(s.jobs)
  {
    var waiting := SlotIds(s.jobs, GlobalScope, PendingSlot);
    assert Get(s.counters, GlobalScope).pending == |waiting|;
    if id :| id in s.jobs && Pending(s.jobs[id].status) {
      assert GlobalScope == Scopes(s.jobs[id].spec)[0];
      assert id in waiting;
    } else {
      assert waiting == {};
    }
  }

  lemma SettlingKeepsLimits(cfg: Settings, s: State, id: nat, op: RowOp, now: int)
    requires WithinLimits(cfg, s.counters) && id in s.jobs && Fits(s.jobs[id], op)
    requires SettlesAsPending(s.jobs[id], op) && ApplyOp(cfg, s, id, op, now).Ok?
    ensures WithinLimits(cfg, ApplyOp(cfg, s, id, op, now).value.counters)
  {
    var s' := ApplyOp(cfg, s, id, op, now).value;
    forall k
      ensures Get(s'.counters, k).pending <= PendingLimit(cfg, k) && Get(s'.counters, k).running <= RunningLimit(cfg, k)
    {
      var e := SettlingCounters(cfg, s, id, op, now, k);
    }
  }

  ghost predicate ExactUnless(cfg: Settings, s': State, drifts: bool) {
    WithinLimits(cfg, s'.counters) && (Exact(s') <==> !drifts)
  }

  lemma ChangeExactIff(cfg: Settings, s: State, id: nat, op: RowOp, now: int)
    requires Exact(s) && WithinLimits(cfg, s.counters)
    requires id in s.jobs && Sound(s.jobs[id]) && Fits(s.jobs[id], op) && ApplyOp(cfg, s, id, op, now).Ok?
    ensures ExactUnless(cfg, ApplyOp(cfg, s, id, op, now).value, SettlesAsPending(s.jobs[id], op) && SomeoneWaits(s.jobs))
  {
    if SettlesAsPending(s.jobs[id], op) {
      SettlingDriftsIff(cfg, s, id, op, now);
      SettlingKeepsLimits(cfg, s, id, op, now);
      WaitingIsCounted(s);
    } else {
      OpKeepsCounts(cfg, s, id, op, now);
    }
  }

  lemma TakenIsShift(cfg: Settings, s: State, id: nat)
    requires Exact(s) && id in s.jobs && Pending(s.jobs[id].status)
    requires MoveToRunning(cfg, s.counters, Scopes(s.jobs[id].spec)).SlotsTaken?
    ensures HasRunningRoom(cfg, s.counters, Scopes(s.jobs[id].spec)) && Covered(s.counters, Scopes(s.jobs[id].spec), PendingSlot)
    ensures MoveToRunning(cfg, s.counters, Scopes(s.jobs[id].spec)) == SlotsTaken(Shift(s.counters, Scopes(s.jobs[id].spec), -1, 1))
  {
    CountedIsCovered(s, id);
    LoopsAreShifts(cfg, s.counters, Scopes(s.jobs[id].spec));
  }

  lemma ShiftKeepsLimits(cfg: Settings, c: Counters, scopes: seq<Scope>)
    requires WithinLimits(cfg, c) && HasRunningRoom(cfg, c, scopes) && forall k :: k in scopes ==> Get(c, k).pending > 0
    ensures WithinLimits(cfg, Shift(c, scopes, -1, 1))
    ensures GlobalScope in scopes ==> Get(Shift(c, scopes, -1, 1), GlobalScope).running == Get(c, GlobalScope).running + 1
  {
  }

  lemma TakenSlots(cfg: Settings, s: State, id: nat)
    requires Exact(s) && WithinLimits(cfg, s.counters) && id in s.jobs && Pending(s.jobs[id].status)
    requires MoveToRunning(cfg, s.counters, Scopes(s.jobs[id].spec)).SlotsTaken?
    ensures ExactUnless(cfg, s.(counters := MoveToRunning(cfg, s.counters, Scopes(s.jobs[id].spec)).counters), true)
  {
    TakenIsShift(cfg, s, id);
    ShiftKeepsLimits(cfg, s.counters, Scopes(s.jobs[id].spec));
    assert GlobalScope == Scopes(s.jobs[id].spec)[0];
    NotExactWith(s, Shift(s.counters, Scopes(s.jobs[id].spec), -1, 1));
  }

  lemma NotExactWith(s: State, c: Counters)
    requires Exact(s) && Get(c, GlobalScope).running != Get(s.counters, GlobalScope).running
    ensures !Exact(s.(counters := c))
  {
  }

  // Every change keeps exact counters within their limits, and exact if and only
  // if it is not one that drifts.
  lemma MicroExactIff(cfg: Settings, s: State, m: Micro, now: int)
    requires AllSound(s) && Exact(s) && WithinLimits(cfg, s.counters) && MicroFits(cfg, s, m, now)
    ensures ExactUnless(cfg, MicroResult(cfg, s, m, now), Drifts(cfg, s, m))
  {
    match m
    case Change(id, op) => ChangeExactIff(cfg, s, id, op, now);
    case Create(id, q) => CreateKeepsCounts(cfg, s, id, q, now);
    case TryMove(id) =>
      if Drifts(cfg, s, m) {
        TakenSlots(cfg, s, id);
      } else {
        RefusedMoveKeepsCounts(cfg, s, id);
      }
    case Recount => ReconcileKeepsCounts(cfg, s, now);
    case _ =>
  }

  // ---- the points of a step and of a run ----

  // Exact before each of the changes, and after the last.
  ghost predicate ExactAlong(cfg: Settings, s: State, t: seq<Micro>, now: int)
    decreases |t|
  {
    Exact(s) && (t != [] && MicroFits(cfg, s, t[0], now) ==> ExactAlong(cfg, MicroResult(cfg, s, t[0], now), t[1..], now))
  }

  ghost predicate DriftlessAlong(cfg: Settings, s: State, t: seq<Micro>, now: int)
    decreases |t|
  {
    t != [] && MicroFits(cfg, s, t[0], now) ==>
      !Drifts(cfg, s, t[0]) && DriftlessAlong(cfg, MicroResult(cfg, s, t[0], now), t[1..], now)
  }

  ghost predicate ExactThroughout(cfg: Settings, s: State, steps: seq<Step>)
    decreases |steps|
  {
    Exact(s) &&
    (steps != [] ==>
      && ExactAlong(cfg, s, StepChanges(cfg, s, steps[0]), steps[0].env.now)
      && ExactThroughout(cfg, Perform(cfg, s, steps[0]).state, steps[1..]))
  }

  ghost predicate Driftless(cfg: Settings, s: State, steps: seq<Step>)
    decreases |steps|
  {
    steps != [] ==>
      && DriftlessAlong(cfg, s, StepChanges(cfg, s, steps[0]), steps[0].env.now)
      && Driftless(cfg, Perform(cfg, s, steps[0]).state, steps[1..])
  }

  lemma {:induction false} ExactAlongIff(cfg: Settings, s: State, t: seq<Micro>, now: int, s': State)
    requires ValidSettings(cfg) && AllSound(s) && Exact(s) && WithinLimits(cfg, s.counters) && Traces(cfg, s, t, now, s')
    ensures ExactAlong(cfg, s, t, now) <==> DriftlessAlong(cfg, s, t, now)
    ensures AllSound(s') && (DriftlessAlong(cfg, s, t, now) ==> Exact(s') && WithinLimits(cfg, s'.counters))
    decreases |t|
  {
    if t != [] {
      var next := MicroResult(cfg, s, t[0], now);
      MicroKeepsSound(cfg, s, t[0], now);
      MicroExactIff(cfg, s, t[0], now);
      if Exact(next) {
        ExactAlongIff(cfg, next, t[1..], now, s');
      } else {
        TraceKeepsSound(cfg, next, t[1..], now, s');
      }
    }
  }

  lemma {:induction false} TraceKeepsSound(cfg: Settings, s: State, t: seq<Micro>, now: int, s': State)
    requires ValidSettings(cfg) && AllSound(s) && Traces(cfg, s, t, now, s')
    ensures AllSound(s')
    decreases |t|
  {
    if t != [] {
      MicroKeepsSound(cfg, s, t[0], now);
      TraceKeepsSound(cfg, MicroResult(cfg, s, t[0], now), t[1..], now, s');
    }
  }

  lemma {:induction false} ExactAllAlongIff(cfg: Settings, s: State, steps: seq<Step>)
    requires ValidSettings(cfg) && AllSound(s) && Exact(s) && WithinLimits(cfg, s.counters) && IsRun(cfg, s, steps)
    ensures ExactThroughout(cfg, s, steps) <==> Driftless(cfg, s, steps)
    ensures Driftless(cfg, s, steps) ==>
              AllSound(After(cfg, s, steps)) && Exact(After(cfg, s, steps)) && WithinLimits(cfg, After(cfg, s, steps).counters)
    decreases |steps|
  {
    if steps != [] {
      var s' := Perform(cfg, s, steps[0]).state;
      var t := StepTrace(cfg, s, steps[0]);
      ExactAlongIff(cfg, s, t, steps[0].env.now, s');
      if DriftlessAlong(cfg, s, t, steps[0].env.now) {
        ExactAllAlongIff(cfg, s', steps[1..]);
      }
    }
  }

  // In every run, whatever it submits: the counters are exact at every point, within
  // each step too, if and only if no unsubmitted session is settled while a job
  // waits and no claim takes running slots for a lease that is over at once.
  lemma ExactThroughoutIff(cfg: Settings, steps: seq<Step>)
    requires ValidSettings(cfg) && IsRun(cfg, EMPTY, steps)
    ensures ExactThroughout(cfg, EMPTY, steps) <==> Driftless(cfg, EMPTY, steps)
  {
    EmptyIsCounted(cfg);
    ExactAllAlongIff(cfg, EMPTY, steps);
  }

  // And then they end as the number of jobs waiting and held in each scope, within
  // its limits: no user, organization or job type, and not all of them together,
  // has more.
  lemma DriftlessCountersAreExact(cfg: Settings, steps: seq<Step>)
    requires ValidSettings(cfg) && IsRun(cfg, EMPTY, steps) && Driftless(cfg, EMPTY, steps)
    ensures var s := After(cfg, EMPTY, steps);
            forall k ::
              && Get(s.counters, k).pending == |WaitingIn(s.jobs, k)| <= WaitingLimit(cfg, k)
              && Get(s.counters, k).running == |HeldIn(s.jobs, k)| <= HoldingLimit(cfg, k)
  {
    var s := After(cfg, EMPTY, steps);
    DriftlessIsExact(cfg, steps);
    forall k
      ensures Get(s.counters, k).pending == |WaitingIn(s.jobs, k)| <= WaitingLimit(cfg, k)
      ensures Get(s.counters, k).running == |HeldIn(s.jobs, k)| <= HoldingLimit(cfg, k)
    {
      CountsByColumn(cfg, s, k);
      LimitsByColumn(cfg, k);
    }
  }

  // The jobs of a scope that wait, and that workers hold.
  function WaitingIn(jobs: map<nat, Record>, k: Scope): set<nat> {
    set id | id in jobs && jobs[id].status in {Queued, RetryWait} && InScope(k, jobs[id].spec.jobType, jobs[id].spec.owner, jobs[id].spec.organization)
  }

  function HeldIn(jobs: map<nat, Record>, k: Scope): set<nat> {
    set id | id in jobs && jobs[id].status in {Leased, Running, CancelRequested} && InScope(k, jobs[id].spec.jobType, jobs[id].spec.owner, jobs[id].spec.organization)
  }

  lemma CountsByColumn(cfg: Settings, s: State, k: Scope)
    requires Exact(s)
    ensures |WaitingIn(s.jobs, k)| == Get(s.counters, k).pending && |HeldIn(s.jobs, k)| == Get(s.counters, k).running
  {
    ScopeMembers(cfg, s.jobs, k);
    assert WaitingIn(s.jobs, k) == SlotIds(s.jobs, k, PendingSlot);
    assert HeldIn(s.jobs, k) == SlotIds(s.jobs, k, RunningSlot);
  }

  lemma DriftlessIsExact(cfg: Settings, steps: seq<Step>)
    requires ValidSettings(cfg) && IsRun(cfg, EMPTY, steps) && Driftless(cfg, EMPTY, steps)
    ensures var s := After(cfg, EMPTY, steps);
            AllSound(s) && Exact(s) && WithinLimits(cfg, s.counters)
  {
    EmptyIsCounted(cfg);
    ExactAllAlongIff(cfg, EMPTY, steps);
  }

  // ---- runs that cannot drift ----

  lemma {:induction false} SessionlessAlong(cfg: Settings, s: State, t: seq<Micro>, now: int, s': State)
    requires ValidSettings(cfg) && Counted(cfg, s) && Traces(cfg, s, t, now, s')
    requires forall i :: 0 <= i < |t| && t[i].Create? ==> t[i].submission.jobType != VastSessionStart
    ensures DriftlessAlong(cfg, s, t, now) && Counted(cfg, s')
    decreases |t|
  {
    if t != [] {
      MicroKeepsCounts(cfg, s, t[0], now);
      SessionlessAlong(cfg, MicroResult(cfg, s, t[0], now), t[1..], now, s');
    }
  }

  // A run that submits no provider session never drifts.
  lemma {:induction false} SessionlessIsDriftless(cfg: Settings, s: State, steps: seq<Step>)
    requires ValidSettings(cfg) && Counted(cfg, s) && IsRun(cfg, s, steps) && SubmitsNoSession(steps)
    ensures Driftless(cfg, s, steps)
    decreases |steps|
  {
    if steps != [] {
      var s' := Perform(cfg, s, steps[0]).state;
      var t := StepTrace(cfg, s, steps[0]);
      SessionlessAlong(cfg, s, t, steps[0].env.now, s');
      assert SubmitsNoSession(steps[1..]);
      SessionlessIsDriftless(cfg, s', steps[1..]);
    }
  }

  // ---- settings that give provider sessions time ----

  ghost predicate LeaklessAlong(cfg: Settings, s: State, t: seq<Micro>, now: int)
    decreases |t|
  {
    t != [] && MicroFits(cfg, s, t[0], now) ==>
      !LeaksRunning(cfg, s, t[0]) && LeaklessAlong(cfg, MicroResult(cfg, s, t[0], now), t[1..], now)
  }

  lemma {:induction false} LeaklessOfTwo(cfg: Settings, s0: State, t1: seq<Micro>, s1: State, t2: seq<Micro>, now: int)
    requires Traces(cfg, s0, t1, now, s1) && LeaklessAlong(cfg, s0, t1, now) && LeaklessAlong(cfg, s1, t2, now)
    ensures LeaklessAlong(cfg, s0, t1 + t2, now)
    decreases |t1|
  {
    if t1 == [] {
      assert t1 + t2 == t2;
    } else {
      assert (t1 + t2)[0] == t1[0] && (t1 + t2)[1..] == t1[1..] + t2;
      LeaklessOfTwo(cfg, MicroResult(cfg, s0, t1[0], now), t1[1..], s1, t2, now);
    }
  }

  predicate MovesNothing(t: seq<Micro>) {
    forall i :: 0 <= i < |t| ==> !t[i].TryMove?
  }

  lemma {:induction false} MovingNothingLeaksNothing(cfg: Settings, s: State, t: seq<Micro>, now: int)
    requires MovesNothing(t)
    ensures LeaklessAlong(cfg, s, t, now)
    decreases |t|
  {
    if t != [] && MicroFits(cfg, s, t[0], now) {
      assert !t[0].TryMove?;
      MovingNothingLeaksNothing(cfg, MicroResult(cfg, s, t[0], now), t[1..], now);
    }
  }

  lemma {:induction false} PassMovesNothing(cfg: Settings, s: State, pass: Pass, order: seq<nat>, env: Env)
    ensures MovesNothing(PassChanges(cfg, s, pass, order, env))
    decreases |order|
  {
    if order != [] && PassOne(cfg, s, pass, order[0], env).Ok? {
      PassMovesNothing(cfg, PassOne(cfg, s, pass, order[0], env).value, pass, order[1..], env);
    }
  }

  lemma OnlyClaimsMove(cfg: Settings, s: State, step: Step)
    requires !step.action.Claiming?
    ensures MovesNothing(StepChanges(cfg, s, step))
  {
    var env := step.env;
    match step.action
    case Revoking(order) => PassMovesNothing(cfg, s, RevokeAuthorization, order, env);
    case Disposing(order) => PassMovesNothing(cfg, s, DisposeAccount, order, env);
    case Recovering(expired, active, dryRun) => RecoveryMovesNothing(cfg, s, expired, active, dryRun, env);
    case _ =>
  }

  lemma RecoveryMovesNothing(cfg: Settings, s: State, expired: seq<nat>, active: seq<nat>, dryRun: bool, env: Env)
    ensures MovesNothing(RecoverChanges(cfg, s, expired, active, dryRun, env))
  {
    if !dryRun && RecoverDurable(cfg, s, expired, active, dryRun, env).reply == Done {
      PassMovesNothing(cfg, s, RecoverExpired, expired, env);
      PassMovesNothing(cfg, RunPass(cfg, s, RecoverExpired, expired, env).value, RevalidateAuthorization, active, env);
    }
  }

  // A claim's pick, where the lease has time, leaves no slots taken for nothing.
  lemma PickLeaksNothing(cfg: Settings, s: State, id: nat, q: ClaimRequest, env: Env)
    requires ValidSettings(cfg) && id in s.jobs && Claimable(s.jobs[id], env.now)
    requires HorizonSeconds(cfg, s.jobs[id].spec.jobType) > 0
    ensures LeaklessAlong(cfg, s, PickedChanges(cfg, s, id, q, env), env.now)
  {
    LeaseEndsAtOnceIff(cfg, s.jobs[id], env.now);
    var t := PickedChanges(cfg, s, id, q, env);
    if PickOutcomeOf(cfg, s, id, q, env) == PickRefused {
      assert t[1..] == [];
    } else {
      MovingNothingLeaksNothing(cfg, s, t, env.now);
    }
  }

  lemma PickStageLeaksNothing(cfg: Settings, recovered: State, q: ClaimRequest, env: Env)
    requires ValidSettings(cfg) && HorizonSeconds(cfg, VastSessionStart) > 0
    requires IsScanWindow(cfg, recovered.jobs, q.window, env.now) && ScannedAfter(cfg, recovered, q, env).Ok?
    ensures LeaklessAlong(cfg, ScannedAfter(cfg, recovered, q, env).value, PickChanges(cfg, ScannedAfter(cfg, recovered, q, env).value, q, env), env.now)
  {
    var scanned := ScannedAfter(cfg, recovered, q, env).value;
    var eligible := EligibleFor(cfg, scanned, q, env);
    if eligible != [] {
      EligibleIsUntouched(cfg, recovered, q, env, Pick(scanned, eligible));
      PickLeaksNothing(cfg, scanned, Pick(scanned, eligible), q, env);
    }
  }

  lemma ScanAndPickLeaksNothing(cfg: Settings, recovered: State, q: ClaimRequest, env: Env)
    requires ValidSettings(cfg) && HorizonSeconds(cfg, VastSessionStart) > 0
    requires AllSound(recovered) && IsScanWindow(cfg, recovered.jobs, q.window, env.now)
    requires q.worker in cfg.workers && ScanAndPick(cfg, recovered, q, env).Ok?
    ensures LeaklessAlong(cfg, recovered, ScanAndPickChanges(cfg, recovered, q, env), env.now)
  {
    if |WorkerJobs(recovered.jobs, q.worker)| < cfg.workers[q.worker].maxConcurrency {
      var first := ScanTrace(cfg, recovered, q, env);
      PassMovesNothing(cfg, recovered, ScanWindow(q.worker, q.types), q.window, env);
      MovingNothingLeaksNothing(cfg, recovered, first, env.now);
      PickStageLeaksNothing(cfg, recovered, q, env);
      var scanned := ScannedAfter(cfg, recovered, q, env).value;
      LeaklessOfTwo(cfg, recovered, first, scanned, PickChanges(cfg, scanned, q, env), env.now);
    }
  }

  lemma ClaimLeaksNothing(cfg: Settings, s: State, q: ClaimRequest, env: Env)
    requires ValidSettings(cfg) && HorizonSeconds(cfg, VastSessionStart) > 0
    requires AllSound(s) && Enabled(cfg, s, Step(env, Claiming(q)))
    ensures LeaklessAlong(cfg, s, ClaimChanges(cfg, s, q, env), env.now)
  {
    if q.worker in cfg.workers && ClaimAll(cfg, s, q, env).Ok? {
      var recovered := Recovered(cfg, s, q, env).value;
      var first := PassTrace(cfg, s, RecoverExpired, q.expired, (set i | i in q.expired), env);
      PassMovesNothing(cfg, s, RecoverExpired, q.expired, env);
      MovingNothingLeaksNothing(cfg, s, first, env.now);
      ScanAndPickLeaksNothing(cfg, recovered, q, env);
      LeaklessOfTwo(cfg, s, first, recovered, ScanAndPickChanges(cfg, recovered, q, env), env.now);
    }
  }

  lemma StepLeaksNothing(cfg: Settings, s: State, step: Step)
    requires ValidSettings(cfg) && HorizonSeconds(cfg, VastSessionStart) > 0
    requires AllSound(s) && Enabled(cfg, s, step)
    ensures LeaklessAlong(cfg, s, StepChanges(cfg, s, step), step.env.now)
  {
    if step.action.Claiming? {
      ClaimLeaksNothing(cfg, s, step.action.claim, step.env);
    } else {
      OnlyClaimsMove(cfg, s, step);
      MovingNothingLeaksNothing(cfg, s, StepChanges(cfg, s, step), step.env.now);
    }
  }

  // No unsubmitted session is settled while a job waits.
  ghost predicate SettledAloneAlong(cfg: Settings, s: State, t: seq<Micro>, now: int)
    decreases |t|
  {
    t != [] && MicroFits(cfg, s, t[0], now) ==>
      !LosesPending(s, t[0]) && SettledAloneAlong(cfg, MicroResult(cfg, s, t[0], now), t[1..], now)
  }

  ghost predicate SettledAlone(cfg: Settings, s: State, steps: seq<Step>)
    decreases |steps|
  {
    steps != [] ==>
      && SettledAloneAlong(cfg, s, StepChanges(cfg, s, steps[0]), steps[0].env.now)
      && SettledAlone(cfg, Perform(cfg, s, steps[0]).state, steps[1..])
  }

  lemma {:induction false} LeaklessDrifts(cfg: Settings, s: State, t: seq<Micro>, now: int)
    requires LeaklessAlong(cfg, s, t, now)
    ensures DriftlessAlong(cfg, s, t, now) <==> SettledAloneAlong(cfg, s, t, now)
    decreases |t|
  {
    if t != [] && MicroFits(cfg, s, t[0], now) {
      LeaklessDrifts(cfg, MicroResult(cfg, s, t[0], now), t[1..], now);
    }
  }

  lemma {:induction false} HorizonLeavesSettling(cfg: Settings, s: State, steps: seq<Step>)
    requires ValidSettings(cfg) && HorizonSeconds(cfg, VastSessionStart) > 0
    requires Core(cfg, s) && IsRun(cfg, s, steps)
    ensures Driftless(cfg, s, steps) <==> SettledAlone(cfg, s, steps)
    decreases |steps|
  {
    if steps != [] {
      StepLeaksNothing(cfg, s, steps[0]);
      LeaklessDrifts(cfg, s, StepChanges(cfg, s, steps[0]), steps[0].env.now);
      StepKeepsCore(cfg, s, steps[0]);
      HorizonLeavesSettling(cfg, Perform(cfg, s, steps[0]).state, steps[1..]);
    }
  }

  // With settings that give provider sessions any time at all, only the settling of
  // unsubmitted sessions is left: the counters are exact at every point of a run
  // if and only if none is settled while a job waits.
  lemma OnlySettlingDrifts(cfg: Settings, steps: seq<Step>)
    requires ValidSettings(cfg) && HorizonSeconds(cfg, VastSessionStart) > 0 && IsRun(cfg, EMPTY, steps)
    ensures ExactThroughout(cfg, EMPTY, steps) <==> SettledAlone(cfg, EMPTY, steps)
  {
    EmptyIsCore(cfg);
    ExactThroughoutIff(cfg, steps);
    HorizonLeavesSettling(cfg, EMPTY, steps);
  }
}
