// What a claim hands out, to whom, and exactly when.

module JobClaims {
  import opened Outcomes
  import opened JobRegistry
  import opened JobStatusMachine
  import opened JobRows
  import opened JobRowProofs
  import opened Capacity
  import opened JobProtocol
  import opened JobInvariants
  import opened JobTheorems
  import opened JobTraces
  import opened JobCapacityProofs
  import opened JobOutcomes

  // A job of the window that the worker may run now: of a type its credential and
  // its registration allow, of its organization if it belongs to one, neither
  // revoked nor of a schema no longer supported.
  predicate MayRun(cfg: Settings, s: State, q: ClaimRequest, id: nat, env: Env) {
    && id in s.jobs && q.worker in cfg.workers && RunsFor(cfg.workers[q.worker], q.types, s.jobs[id].spec)
    && id !in env.unsupported && id !in env.revoked
  }

  function EligibleFor(cfg: Settings, s: State, q: ClaimRequest, env: Env): seq<nat> {
    Eligible(cfg, s, q.worker, q.types, q.window, env)
  }

  lemma {:induction false} EligibleExactly(cfg: Settings, s: State, q: ClaimRequest, window: seq<nat>, env: Env, id: nat)
    ensures id in Eligible(cfg, s, q.worker, q.types, window, env) <==> id in window && MayRun(cfg, s, q, id, env)
  {
    if window != [] {
      EligibleExactly(cfg, s, q, window[1..], env, id);
      assert id in window <==> id == window[0] || id in window[1..];
    }
  }

  // Some job is eligible exactly when the worker may run some job of the window.
  lemma SomeoneIsEligible(cfg: Settings, s: State, q: ClaimRequest, env: Env)
    ensures EligibleFor(cfg, s, q, env) != [] <==> exists id :: id in q.window && MayRun(cfg, s, q, id, env)
  {
    var eligible := EligibleFor(cfg, s, q, env);
    if eligible != [] {
      EligibleExactly(cfg, s, q, q.window, env, eligible[0]);
    }
    if id :| id in q.window && MayRun(cfg, s, q, id, env) {
      EligibleExactly(cfg, s, q, q.window, env, id);
    }
  }

  // ---- the window ----

  // A job that can be handed out now: it waits, is available, and neither its time in
  // the queue nor its deadline is over.
  predicate ReadyNow(r: Record, now: int) {
    && r.deletedAt.None? && r.status in {Queued, RetryWait} && r.availableAt <= now
    && (r.spec.queueExpiresAt.None? || now < r.spec.queueExpiresAt.value)
    && (r.spec.deadlineAt.None? || now < r.spec.deadlineAt.value)
  }

  // The window holds such jobs only, and all of them unless it is full.
  lemma WindowIsReady(cfg: Settings, jobs: map<nat, Record>, window: seq<nat>, now: int)
    requires IsScanWindow(cfg, jobs, window, now)
    ensures forall id :: id in window ==> id in jobs && ReadyNow(jobs[id], now)
    ensures |window| < cfg.scanLimit ==> forall id :: id in jobs && ReadyNow(jobs[id], now) ==> id in window
    ensures |window| <= cfg.scanLimit
  {
  }

  // A job that is left out of a full window comes after every job in it:
  // administrators first, then by availability, age and id.
  lemma WindowIsFirst(cfg: Settings, jobs: map<nat, Record>, window: seq<nat>, now: int, id: nat, i: nat)
    requires IsScanWindow(cfg, jobs, window, now) && i < |window|
    requires id in jobs && ReadyNow(jobs[id], now) && id !in window
    ensures |window| == cfg.scanLimit
    ensures var x, y := jobs[window[i]], jobs[id];
            && (y.spec.admin ==> x.spec.admin)
            && (x.spec.admin == y.spec.admin ==>
                 && x.availableAt <= y.availableAt
                 && (x.availableAt == y.availableAt ==>
                      && x.spec.createdAt <= y.spec.createdAt
                      && (x.spec.createdAt == y.spec.createdAt ==> window[i] < id)))
  {
  }

  // ---- the final pick ----

  // The jobs of a user, and of an organization, that workers hold.
  function HeldFor(jobs: map<nat, Record>, owner: string): set<nat> {
    set id | id in jobs && jobs[id].status in {Leased, Running, CancelRequested} && jobs[id].spec.owner == owner
  }

  function HeldIn(jobs: map<nat, Record>, organization: Option<string>): set<nat> {
    set id | id in jobs && organization.Some? && jobs[id].status in {Leased, Running, CancelRequested} && jobs[id].spec.organization == organization
  }

  // The order among the jobs a worker may run: the owner with fewer jobs running
  // first, then the organization with fewer, then by availability, age and id.
  predicate GoesBefore(jobs: map<nat, Record>, a: nat, b: nat)
    requires a in jobs && b in jobs
  {
    var x, y := jobs[a], jobs[b];
    var (user, user') := (|HeldFor(jobs, x.spec.owner)|, |HeldFor(jobs, y.spec.owner)|);
    var (org, org') := (|HeldIn(jobs, x.spec.organization)|, |HeldIn(jobs, y.spec.organization)|);
    || user < user'
    || (user == user' && org < org')
    || (user == user' && org == org' && x.availableAt < y.availableAt)
    || (user == user' && org == org' && x.availableAt == y.availableAt && x.spec.createdAt < y.spec.createdAt)
    || (user == user' && org == org' && x.availableAt == y.availableAt && x.spec.createdAt == y.spec.createdAt && a < b)
  }

  lemma RunningIsHeld(cfg: Settings, s: State, r: Record)
    requires Exact(s)
    ensures UserRunning(s, r) == |HeldFor(s.jobs, r.spec.owner)|
    ensures OrganizationRunning(s, r) == |HeldIn(s.jobs, r.spec.organization)|
  {
    ScopeMembers(cfg, s.jobs, UserScope(r.spec.owner));
    assert SlotIds(s.jobs, UserScope(r.spec.owner), RunningSlot) == HeldFor(s.jobs, r.spec.owner);
    if r.spec.organization.Some? {
      ScopeMembers(cfg, s.jobs, OrganizationScope(r.spec.organization.value));
      assert SlotIds(s.jobs, OrganizationScope(r.spec.organization.value), RunningSlot) == HeldIn(s.jobs, r.spec.organization);
    } else {
      assert HeldIn(s.jobs, r.spec.organization) == {};
    }
  }

  // With exact counters the pick follows that order.
  lemma PickFollowsHeld(cfg: Settings, s: State, a: nat, b: nat)
    requires Exact(s) && a in s.jobs && b in s.jobs
    ensures PickBefore(s, a, b) <==> GoesBefore(s.jobs, a, b)
  {
    RunningIsHeld(cfg, s, s.jobs[a]);
    RunningIsHeld(cfg, s, s.jobs[b]);
  }

  lemma PickOrderIsTransitive(s: State, a: nat, b: nat, c: nat)
    requires a in s.jobs && b in s.jobs && c in s.jobs
    requires PickBefore(s, a, b) && PickBefore(s, b, c)
    ensures PickBefore(s, a, c)
  {
  }

  lemma PickOrderIsTotal(s: State, a: nat, b: nat)
    requires a in s.jobs && b in s.jobs
    ensures PickBefore(s, a, b) || PickBefore(s, b, a) || a == b
    ensures !(PickBefore(s, a, b) && PickBefore(s, b, a))
  {
  }

  // The pick comes before every other eligible job.
  lemma {:induction false} PickIsFirst(s: State, eligible: seq<nat>)
    requires eligible != [] && forall id :: id in eligible ==> id in s.jobs
    ensures forall id :: id in eligible && id != Pick(s, eligible) ==> PickBefore(s, Pick(s, eligible), id)
  {
    if |eligible| > 1 {
      var rest := eligible[1..];
      PickIsFirst(s, rest);
      forall id | id in eligible && id != Pick(s, eligible)
        ensures PickBefore(s, Pick(s, eligible), id)
      {
        PickOrderIsTotal(s, eligible[0], Pick(s, rest));
        if id != eligible[0] && id != Pick(s, rest) && Pick(s, eligible) == eligible[0] && eligible[0] != Pick(s, rest) {
          PickOrderIsTransitive(s, eligible[0], Pick(s, rest), id);
        }
      }
    }
  }

  // ---- the stages of a claim ----

  // The state after the recovery of expired jobs, and after the scan.
  function Recovered(cfg: Settings, s: State, q: ClaimRequest, env: Env): Result<State> {
    RunPass(cfg, s, RecoverExpired, q.expired, env)
  }

  function ScannedAfter(cfg: Settings, recovered: State, q: ClaimRequest, env: Env): Result<State> {
    RunPass(cfg, recovered, ScanWindow(q.worker, q.types), q.window, env)
  }

  // What the worker that gets a job sees in it.
  ghost predicate LeasedNow(before: Record, after: Record, worker: string, token: nat, now: int) {
    && after.status == Leased && after.leasedBy == Some(worker) && after.tokenHash == Some(HashOf(token))
    && after.leaseGeneration == before.leaseGeneration + 1 && after.attemptCount == before.attemptCount + 1
    && after.leaseExpiresAt.Some? && now < after.leaseExpiresAt.value
    && after.spec == before.spec
  }

  lemma PickedIsLeased(cfg: Settings, s: State, id: nat, q: ClaimRequest, env: Env)
    requires id in s.jobs && ClaimPicked(cfg, s, id, q, env).Ok?
    requires ClaimPicked(cfg, s, id, q, env).value.reply.Claimed?
    ensures var outcome := ClaimPicked(cfg, s, id, q, env).value;
            && outcome.reply == Claimed(id, s.jobs[id].leaseGeneration + 1, q.token)
            && id in outcome.state.jobs && LeasedNow(s.jobs[id], outcome.state.jobs[id], q.worker, q.token, env.now)
            && outcome.state.tickets == s.tickets[q.token := Ticket(id, s.jobs[id].leaseGeneration + 1)]
  {
  }

  lemma ClaimIsItsStages(cfg: Settings, s: State, q: ClaimRequest, env: Env)
    requires Claim(cfg, s, q, env).reply.Claimed?
    ensures q.worker in cfg.workers && Recovered(cfg, s, q, env).Ok?
    ensures var recovered := Recovered(cfg, s, q, env).value;
            && |WorkerJobs(recovered.jobs, q.worker)| < cfg.workers[q.worker].maxConcurrency
            && ScannedAfter(cfg, recovered, q, env).Ok?
            && var scanned := ScannedAfter(cfg, recovered, q, env).value;
               && EligibleFor(cfg, scanned, q, env) != []
               && ClaimPicked(cfg, scanned, Pick(scanned, EligibleFor(cfg, scanned, q, env)), q, env) == Ok(Claim(cfg, s, q, env))
  {
  }

  // The scan leaves an eligible job as recovery left it.
  lemma EligibleIsUntouched(cfg: Settings, recovered: State, q: ClaimRequest, env: Env, id: nat)
    requires IsScanWindow(cfg, recovered.jobs, q.window, env.now) && ScannedAfter(cfg, recovered, q, env).Ok?
    requires id in EligibleFor(cfg, ScannedAfter(cfg, recovered, q, env).value, q, env)
    ensures id in q.window && id in recovered.jobs && Claimable(recovered.jobs[id], env.now)
    ensures ScannedAfter(cfg, recovered, q, env).value.jobs[id] == recovered.jobs[id]
  {
    WindowIsDistinct(cfg, recovered.jobs, q.window, env.now);
    PassIsPointwise(cfg, recovered, ScanWindow(q.worker, q.types), q.window, env);
    assert Decide(cfg, ScanWindow(q.worker, q.types), id, recovered.jobs[id], env).None?;
  }

  // A claim that hands out a job hands out one the worker may run: it was waiting,
  // available and not past its queue or deadline; the worker had room; and no other
  // job of the window that the worker may run belongs to a tenant with fewer
  // running jobs, or has waited longer among equals. The job is then leased to
  // that worker under the next generation and the fresh token.
  lemma ClaimedIsFirstInLine(cfg: Settings, s: State, q: ClaimRequest, env: Env, id: nat, generation: nat, token: nat)
    requires Enabled(cfg, s, Step(env, Claiming(q)))
    requires Claim(cfg, s, q, env).reply == Claimed(id, generation, token)
    ensures q.worker in cfg.workers && Recovered(cfg, s, q, env).Ok? && ScannedAfter(cfg, Recovered(cfg, s, q, env).value, q, env).Ok?
    ensures var recovered := Recovered(cfg, s, q, env).value;
            var scanned := ScannedAfter(cfg, recovered, q, env).value;
            var s' := Claim(cfg, s, q, env).state;
            && |WorkerJobs(recovered.jobs, q.worker)| < cfg.workers[q.worker].maxConcurrency
            && id in q.window && id in recovered.jobs && Claimable(recovered.jobs[id], env.now)
            && MayRun(cfg, scanned, q, id, env)
            && (forall other :: other in q.window && other != id && MayRun(cfg, scanned, q, other, env) ==> PickBefore(scanned, id, other))
            && token == q.token && generation == recovered.jobs[id].leaseGeneration + 1
            && id in s'.jobs && LeasedNow(recovered.jobs[id], s'.jobs[id], q.worker, token, env.now)
  {
    ClaimIsItsStages(cfg, s, q, env);
    var recovered := Recovered(cfg, s, q, env).value;
    var scanned := ScannedAfter(cfg, recovered, q, env).value;
    var eligible := EligibleFor(cfg, scanned, q, env);
    PickedIsLeased(cfg, scanned, Pick(scanned, eligible), q, env);
    EligibleIsUntouched(cfg, recovered, q, env, id);
    FirstOfWindow(cfg, scanned, q, env);
  }

  // In a run without provider sessions: among the jobs of the window that the worker
  // may run, none belongs to an owner with fewer jobs running, or comes earlier
  // in the further order.
  lemma ClaimedIsFairest(cfg: Settings, s: State, q: ClaimRequest, env: Env, id: nat, generation: nat, token: nat, other: nat)
    requires ValidSettings(cfg) && Counted(cfg, s) && Enabled(cfg, s, Step(env, Claiming(q)))
    requires Claim(cfg, s, q, env).reply == Claimed(id, generation, token)
    requires other in q.window && other != id
    ensures Recovered(cfg, s, q, env).Ok? && ScannedAfter(cfg, Recovered(cfg, s, q, env).value, q, env).Ok?
    ensures var scanned := ScannedAfter(cfg, Recovered(cfg, s, q, env).value, q, env).value;
            id in scanned.jobs && (MayRun(cfg, scanned, q, other, env) ==> GoesBefore(scanned.jobs, id, other))
  {
    ClaimedIsFirstInLine(cfg, s, q, env, id, generation, token);
    StagesAreCounted(cfg, s, q, env);
    var scanned := ScannedAfter(cfg, Recovered(cfg, s, q, env).value, q, env).value;
    if MayRun(cfg, scanned, q, other, env) {
      PickFollowsHeld(cfg, scanned, id, other);
    }
  }

  // The row of the job a claim hands out; the other rows are as the scan left them.
  lemma ClaimOutcome(cfg: Settings, s: State, q: ClaimRequest, env: Env, id: nat, generation: nat, token: nat)
    requires AllSound(s) && Enabled(cfg, s, Step(env, Claiming(q)))
    requires Claim(cfg, s, q, env).reply == Claimed(id, generation, token)
    ensures Recovered(cfg, s, q, env).Ok? && ScannedAfter(cfg, Recovered(cfg, s, q, env).value, q, env).Ok?
    ensures var scanned, s' := ScannedAfter(cfg, Recovered(cfg, s, q, env).value, q, env).value, Claim(cfg, s, q, env).state;
            && id in scanned.jobs && id in s'.jobs && s'.jobs == scanned.jobs[id := s'.jobs[id]]
            && HandedOut(cfg, scanned.jobs[id], s'.jobs[id], q.worker, q.token, env.now)
            && generation == s'.jobs[id].leaseGeneration && token == q.token
  {
    ClaimIsItsStages(cfg, s, q, env);
    var recovered := Recovered(cfg, s, q, env).value;
    var scanned := ScannedAfter(cfg, recovered, q, env).value;
    var pick := Pick(scanned, EligibleFor(cfg, scanned, q, env));
    RecoveredIsSound(cfg, s, q, env);
    EligibleIsUntouched(cfg, recovered, q, env, pick);
    PickedIsHandedOut(cfg, scanned, pick, q, env, Claim(cfg, s, q, env));
  }

  lemma RecoveredIsSound(cfg: Settings, s: State, q: ClaimRequest, env: Env)
    requires AllSound(s) && Recovered(cfg, s, q, env).Ok?
    ensures AllSound(Recovered(cfg, s, q, env).value)
  {
    var t := PassTrace(cfg, s, RecoverExpired, q.expired, (set i | i in q.expired), env);
  }

  lemma PickedIsHandedOut(cfg: Settings, s: State, id: nat, q: ClaimRequest, env: Env, outcome: Outcome)
    requires id in s.jobs && Sound(s.jobs[id]) && ClaimPicked(cfg, s, id, q, env) == Ok(outcome) && outcome.reply.Claimed?
    ensures outcome.reply == Claimed(id, s.jobs[id].leaseGeneration + 1, q.token)
    ensures id in outcome.state.jobs && outcome.state.jobs == s.jobs[id := outcome.state.jobs[id]]
    ensures HandedOut(cfg, s.jobs[id], outcome.state.jobs[id], q.worker, q.token, env.now)
  {
    PickedWrites(cfg, s, id, q, env, outcome);
    HandedOutRow(cfg, s.jobs[id], q.worker, q.token, env.now);
  }

  lemma PickedWrites(cfg: Settings, s: State, id: nat, q: ClaimRequest, env: Env, outcome: Outcome)
    requires id in s.jobs && ClaimPicked(cfg, s, id, q, env) == Ok(outcome) && outcome.reply.Claimed?
    ensures outcome.reply == Claimed(id, s.jobs[id].leaseGeneration + 1, q.token)
    ensures LeaseRow(cfg, s.jobs[id], q.worker, q.token, env.now).Ok?
    ensures outcome.state.jobs == s.jobs[id := LeaseRow(cfg, s.jobs[id], q.worker, q.token, env.now).value.record]
  {
  }

  lemma FirstOfWindow(cfg: Settings, s: State, q: ClaimRequest, env: Env)
    requires EligibleFor(cfg, s, q, env) != []
    ensures var id := Pick(s, EligibleFor(cfg, s, q, env));
            && MayRun(cfg, s, q, id, env)
            && forall other :: other in q.window && other != id && MayRun(cfg, s, q, other, env) ==> PickBefore(s, id, other)
  {
    var eligible := EligibleFor(cfg, s, q, env);
    PickIsFirst(s, eligible);
    EligibleExactly(cfg, s, q, q.window, env, Pick(s, eligible));
    forall other | other in q.window && other != Pick(s, eligible) && MayRun(cfg, s, q, other, env)
      ensures PickBefore(s, Pick(s, eligible), other)
    {
      EligibleExactly(cfg, s, q, q.window, env, other);
    }
  }

  // ---- how the last part of a claim ends ----

  lemma PickedRefused(cfg: Settings, s: State, id: nat, q: ClaimRequest, env: Env)
    requires id in s.jobs && MoveToRunning(cfg, s.counters, Scopes(s.jobs[id].spec)).SlotsRefused?
    ensures ClaimPicked(cfg, s, id, q, env) ==
            Ok(Outcome(s.(counters := MoveToRunning(cfg, s.counters, Scopes(s.jobs[id].spec)).counters), NothingToClaim))
  {
  }

  ghost predicate TakenLate(cfg: Settings, s: State, id: nat, now: int)
    requires id in s.jobs
  {
    && MoveToRunning(cfg, s.counters, Scopes(s.jobs[id].spec)).SlotsTaken?
    && LeaseDeadline(cfg, s.jobs[id], now, Some(AttemptHorizon(cfg, s.jobs[id], now))) <= now
  }

  lemma PickedExpired(cfg: Settings, s: State, id: nat, q: ClaimRequest, env: Env)
    requires id in s.jobs && TakenLate(cfg, s, id, env.now)
    ensures var taken := s.(counters := MoveToRunning(cfg, s.counters, Scopes(s.jobs[id].spec)).counters);
            ClaimPicked(cfg, s, id, q, env) ==
            match ApplyOp(cfg, taken, id, FailPending(false), env.now)
            case Ok(s') => Ok(Outcome(s', NothingToClaim))
            case Raised(n) => Raised(n)
  {
  }

  ghost predicate TakenLive(cfg: Settings, s: State, id: nat, now: int)
    requires id in s.jobs
  {
    && MoveToRunning(cfg, s.counters, Scopes(s.jobs[id].spec)).SlotsTaken?
    && LeaseDeadline(cfg, s.jobs[id], now, Some(AttemptHorizon(cfg, s.jobs[id], now))) > now
  }

  lemma PickedLive(cfg: Settings, s: State, id: nat, q: ClaimRequest, env: Env)
    requires id in s.jobs && TakenLive(cfg, s, id, env.now)
    ensures var r, c := s.jobs[id], MoveToRunning(cfg, s.counters, Scopes(s.jobs[id].spec)).counters;
            ClaimPicked(cfg, s, id, q, env) ==
            match LeaseRow(cfg, r, q.worker, q.token, env.now)
            case Ok(e) => Ok(Outcome(State(s.jobs[id := e.record], c, s.quotas, s.tickets[q.token := Ticket(id, r.leaseGeneration + 1)]),
                                     Claimed(id, r.leaseGeneration + 1, q.token)))
            case Raised(n) => Raised(n)
  {
    OneMove(cfg, s.counters, Scopes(s.jobs[id].spec), ToRunning);
  }

  // ---- when a claim hands out a job ----

  lemma ScanRow(cfg: Settings, q: ClaimRequest, id: nat, r: Record, env: Env)
    requires r.status !in {Leased, Running} && Pending(r.status)
    ensures OnlyReleases(cfg, ScanWindow(q.worker, q.types), id, r, env)
  {
  }

  // The scan cannot be refused.
  lemma ScanCompletes(cfg: Settings, s: State, q: ClaimRequest, env: Env)
    requires IsScanWindow(cfg, s.jobs, q.window, env.now)
    ensures ScannedAfter(cfg, s, q, env).Ok?
  {
    WindowIsDistinct(cfg, s.jobs, q.window, env.now);
    forall i | 0 <= i < |q.window| && q.window[i] in s.jobs
      ensures OnlyReleases(cfg, ScanWindow(q.worker, q.types), q.window[i], s.jobs[q.window[i]], env)
    {
      ScanRow(cfg, q, q.window[i], s.jobs[q.window[i]], env);
    }
    ReleasingPassCompletes(cfg, s, ScanWindow(q.worker, q.types), q.window, env);
  }

  lemma LeaseApplies(cfg: Settings, s: State, id: nat, worker: string, token: nat, now: int)
    requires id in s.jobs && Pending(s.jobs[id].status)
    requires MoveToRunning(cfg, s.counters, Scopes(s.jobs[id].spec)).SlotsTaken?
    ensures ApplyOp(cfg, s, id, Lease(worker, token), now).Ok?
  {
    OneMove(cfg, s.counters, Scopes(s.jobs[id].spec), ToRunning);
  }

  // In an exact state the last part of a claim succeeds exactly when every scope
  // of the job has a free running slot.
  lemma PickedSucceedsIff(cfg: Settings, s: State, id: nat, q: ClaimRequest, env: Env)
    requires ValidSettings(cfg) && Exact(s) && id in s.jobs && Claimable(s.jobs[id], env.now)
    requires s.jobs[id].spec.jobType != VastSessionStart
    ensures ClaimPicked(cfg, s, id, q, env).Ok?
    ensures ClaimPicked(cfg, s, id, q, env).value.reply.Claimed? <==> HasRunningRoom(cfg, s.counters, Scopes(s.jobs[id].spec))
  {
    ClaimableLeaseIsLive(cfg, s.jobs[id], env.now);
    SlotsTakenIff(cfg, s, id);
    if MoveToRunning(cfg, s.counters, Scopes(s.jobs[id].spec)).SlotsTaken? {
      LeaseApplies(cfg, s, id, q.worker, q.token, env.now);
    }
  }

  // In a run without provider sessions, once the recovery in it went through, a
  // claim hands out a job exactly when the worker is below its concurrency, some
  // job of the window may run, and every scope of the first in line has room.
  lemma ClaimSucceedsIff(cfg: Settings, s: State, q: ClaimRequest, env: Env)
    requires ValidSettings(cfg) && Counted(cfg, s) && Enabled(cfg, s, Step(env, Claiming(q)))
    requires q.worker in cfg.workers && Recovered(cfg, s, q, env).Ok?
    ensures var recovered := Recovered(cfg, s, q, env).value;
            ScannedAfter(cfg, recovered, q, env).Ok? &&
            var scanned := ScannedAfter(cfg, recovered, q, env).value;
            var eligible := EligibleFor(cfg, scanned, q, env);
            (Claim(cfg, s, q, env).reply.Claimed? <==>
              && |WorkerJobs(recovered.jobs, q.worker)| < cfg.workers[q.worker].maxConcurrency
              && (exists id :: id in q.window && MayRun(cfg, scanned, q, id, env))
              && (eligible != [] ==> RoomToHold(cfg, scanned, scanned.jobs[Pick(scanned, eligible)].spec)))
  {
    var recovered := Recovered(cfg, s, q, env).value;
    ScanCompletes(cfg, recovered, q, env);
    var scanned := ScannedAfter(cfg, recovered, q, env).value;
    StagesAreCounted(cfg, s, q, env);
    var eligible := EligibleFor(cfg, scanned, q, env);
    SomeoneIsEligible(cfg, scanned, q, env);
    if eligible != [] {
      var id := Pick(scanned, eligible);
      EligibleIsUntouched(cfg, recovered, q, env, id);
      RoomByColumn(cfg, scanned, scanned.jobs[id].spec);
      PickedSucceedsIff(cfg, scanned, id, q, env);
    }
    ClaimFromStages(cfg, s, q, env);
  }

  // Both passes of a claim keep the counters exact.
  lemma StagesAreCounted(cfg: Settings, s: State, q: ClaimRequest, env: Env)
    requires ValidSettings(cfg) && Counted(cfg, s) && Enabled(cfg, s, Step(env, Claiming(q)))
    requires Recovered(cfg, s, q, env).Ok? && ScannedAfter(cfg, Recovered(cfg, s, q, env).value, q, env).Ok?
    ensures Counted(cfg, ScannedAfter(cfg, Recovered(cfg, s, q, env).value, q, env).value)
  {
    var recovered := Recovered(cfg, s, q, env).value;
    var first := PassTrace(cfg, s, RecoverExpired, q.expired, (set i | i in q.expired), env);
    TraceKeepsCounts(cfg, s, first, env.now, recovered);
    WindowIsScannable(cfg, recovered, q, env.now);
    var second := PassTrace(cfg, recovered, ScanWindow(q.worker, q.types), q.window, (set i | i in q.window), env);
    TraceKeepsCounts(cfg, recovered, second, env.now, ScannedAfter(cfg, recovered, q, env).value);
  }

  lemma ClaimFromStages(cfg: Settings, s: State, q: ClaimRequest, env: Env)
    requires q.worker in cfg.workers && Recovered(cfg, s, q, env).Ok?
    requires ScannedAfter(cfg, Recovered(cfg, s, q, env).value, q, env).Ok?
    ensures var recovered := Recovered(cfg, s, q, env).value;
            var scanned := ScannedAfter(cfg, recovered, q, env).value;
            var eligible := EligibleFor(cfg, scanned, q, env);
            && (|WorkerJobs(recovered.jobs, q.worker)| >= cfg.workers[q.worker].maxConcurrency ==> Claim(cfg, s, q, env).reply == NothingToClaim)
            && (|WorkerJobs(recovered.jobs, q.worker)| < cfg.workers[q.worker].maxConcurrency ==>
                 && (eligible == [] ==> Claim(cfg, s, q, env).reply == NothingToClaim)
                 && (eligible != [] && ClaimPicked(cfg, scanned, Pick(scanned, eligible), q, env).Ok? ==>
                      Claim(cfg, s, q, env) == ClaimPicked(cfg, scanned, Pick(scanned, eligible), q, env).value))
  {
  }

  // ---- a horizon of zero ----

  // A claim looks at the lease's end only after it has taken the running slots.
  // With settings that give a type no time at all, the job fails right there and
  // its running slots are never given back.
  lemma LeaseEndsAtOnceIff(cfg: Settings, r: Record, now: int)
    requires ValidSettings(cfg) && Claimable(r, now)
    ensures LeaseDeadline(cfg, r, now, Some(AttemptHorizon(cfg, r, now))) <= now <==> HorizonSeconds(cfg, r.spec.jobType) == 0
  {
  }

  lemma LeaseKeepsExact(cfg: Settings, s: State, id: nat, worker: string, token: nat, now: int)
    requires Exact(s) && id in s.jobs && Sound(s.jobs[id])
    requires ApplyOp(cfg, s, id, Lease(worker, token), now).Ok?
    ensures Exact(ApplyOp(cfg, s, id, Lease(worker, token), now).value)
  {
    var op := Lease(worker, token);
    var e, c := AppliedOp(cfg, s, id, op, now);
    ChangesAreExact(cfg, s, id, op, now);
    SlotsOfChange(cfg, s.jobs[id], op, now);
    MovedKeepsExact(s, ApplyOp(cfg, s, id, op, now).value, id, e.record, c);
  }

  lemma FailedCounters(cfg: Settings, taken: State, id: nat, now: int) returns (e: Effect)
    requires id in taken.jobs && Pending(taken.jobs[id].status)
    ensures ApplyRow(cfg, taken.jobs[id], FailPending(false), now) == Ok(e) && SlotOf(e.record.status) == NoSlot
    ensures ApplyOp(cfg, taken, id, FailPending(false), now).Ok?
    ensures var s' := ApplyOp(cfg, taken, id, FailPending(false), now).value;
            s'.jobs == taken.jobs[id := e.record] && Get(s'.counters, GlobalScope).running == Get(taken.counters, GlobalScope).running
  {
    OneMove(cfg, taken.counters, Scopes(taken.jobs[id].spec), ReleasePending);
    var c;
    e, c := AppliedOp(cfg, taken, id, FailPending(false), now);
  }

  // Failing a job whose slots were already moved to running leaves them there.
  lemma FailedAfterMove(cfg: Settings, s: State, id: nat, now: int)
    requires Exact(s) && id in s.jobs && Pending(s.jobs[id].status)
    requires MoveToRunning(cfg, s.counters, Scopes(s.jobs[id].spec)).SlotsTaken?
    ensures var taken := s.(counters := MoveToRunning(cfg, s.counters, Scopes(s.jobs[id].spec)).counters);
            var failed := ApplyOp(cfg, taken, id, FailPending(false), now);
            failed.Ok? && !Exact(failed.value)
  {
    var scopes := Scopes(s.jobs[id].spec);
    var taken := s.(counters := MoveToRunning(cfg, s.counters, scopes).counters);
    var e := FailedCounters(cfg, taken, id, now);
    assert GlobalScope == scopes[0];
    assert Get(taken.counters, GlobalScope).running == Get(s.counters, GlobalScope).running + 1;
    SlotChange(s.jobs, id, e.record, GlobalScope, RunningSlot);
  }

  // The last part of a claim keeps exact counters exact if and only if it finds no
  // room or the job's type has a horizon.
  lemma ClaimKeepsExactIff(cfg: Settings, s: State, id: nat, q: ClaimRequest, env: Env)
    requires ValidSettings(cfg) && Exact(s)
    requires id in s.jobs && Sound(s.jobs[id]) && Claimable(s.jobs[id], env.now)
    ensures ClaimPicked(cfg, s, id, q, env).Ok?
    ensures Exact(ClaimPicked(cfg, s, id, q, env).value.state) <==>
            !HasRunningRoom(cfg, s.counters, Scopes(s.jobs[id].spec)) || HorizonSeconds(cfg, s.jobs[id].spec.jobType) > 0
  {
    var scopes := Scopes(s.jobs[id].spec);
    LeaseEndsAtOnceIff(cfg, s.jobs[id], env.now);
    SlotsTakenIff(cfg, s, id);
    if !HasRunningRoom(cfg, s.counters, scopes) {
      RefusedMoveIsClean(cfg, s, id);
      SameCountsStayExact(s, Ensure(s.counters, scopes));
    } else if HorizonSeconds(cfg, s.jobs[id].spec.jobType) > 0 {
      LeaseApplies(cfg, s, id, q.worker, q.token, env.now);
      LeaseKeepsExact(cfg, s, id, q.worker, q.token, env.now);
      TicketsAreBeside(ApplyOp(cfg, s, id, Lease(q.worker, q.token), env.now).value, s.tickets[q.token := Ticket(id, s.jobs[id].leaseGeneration + 1)]);
    } else {
      FailedAfterMove(cfg, s, id, env.now);
    }
  }

  lemma SlotsTakenIff(cfg: Settings, s: State, id: nat)
    requires Exact(s) && id in s.jobs && Pending(s.jobs[id].status)
    ensures var scopes := Scopes(s.jobs[id].spec);
            MoveToRunning(cfg, s.counters, scopes).SlotsTaken? <==> HasRunningRoom(cfg, s.counters, scopes)
  {
    CountedIsCovered(s, id);
    LoopsAreShifts(cfg, s.counters, Scopes(s.jobs[id].spec));
  }

  lemma SameCountsStayExact(s: State, c: Counters)
    requires Exact(s)
    requires forall k :: Get(c, k).pending == Get(s.counters, k).pending && Get(c, k).running == Get(s.counters, k).running
    ensures Exact(s.(counters := c))
  {
  }

  lemma TicketsAreBeside(s: State, tickets: map<nat, Ticket>)
    requires Exact(s)
    ensures Exact(s.(tickets := tickets))
  {
  }
}
