// Runs from the empty tables that reach the states where the protocol does not
// keep what one might expect of it.

module JobExamples {
  import opened Outcomes
  import opened JobRegistry
  import opened JobStatusMachine
  import opened JobRows
  import opened JobRowProofs
  import opened Capacity
  import opened JobProtocol
  import opened JobInvariants
  import opened JobTheorems
  import opened JobCapacityProofs
  import opened JobClaims
  import opened JobRecovery

  datatype Setup = Setup(attempts: nat, sessionSeconds: nat)

  // One worker; one pending job per user; leases of 30 seconds, a runtime of 100
  // and a queue age of 1000.
  function Demo(u: Setup): Settings {
    Settings(10, 10, 10, 10, 1, 10, 10, 10, 30, 10, 1000, u.attempts, 5, 1, 60, 100, u.sessionSeconds, 0, 0, 0, 0, 0, 5, 5, true,
             map["w" := Worker({DocumentIngest, VastSessionStart}, None, 5)], map[])
  }

  // Provider sessions are given no time at all, or 100 seconds.
  const ONCE := Setup(1, 0)
  const TWICE := Setup(2, 0)
  const TIMED := Setup(1, 100)

  function At(now: int): Env {
    Env(now, {}, {}, map[])
  }

  function Ask(t: JobType, key: string): Submission {
    Submission(None, None, t, "ann", None, true, AdminPlan, key, "f")
  }

  function Asked(u: Setup, t: JobType, key: string, now: int): Record {
    NewRecord(SpecOf(Demo(u), Ask(t, key), None, now))
  }

  function ClaimOf(id: nat, token: nat): ClaimRequest {
    ClaimRequest("w", {DocumentIngest, VastSessionStart}, token, [], [id])
  }

  function OnLease(id: nat, generation: nat, token: nat): LeaseRequest {
    LeaseRequest("w", {DocumentIngest, VastSessionStart}, id, generation, token)
  }

  ghost predicate Run(u: Setup, steps: seq<Step>) {
    u.attempts >= 1 && IsRun(Demo(u), EMPTY, steps)
  }

  ghost function End(u: Setup, steps: seq<Step>): State {
    After(Demo(u), EMPTY, steps)
  }

  lemma {:induction false} OneMoreStep(cfg: Settings, s: State, steps: seq<Step>, step: Step)
    requires IsRun(cfg, s, steps) && Enabled(cfg, After(cfg, s, steps), step)
    ensures IsRun(cfg, s, steps + [step])
    ensures After(cfg, s, steps + [step]) == Perform(cfg, After(cfg, s, steps), step).state
    decreases |steps|
  {
    if steps == [] {
      assert (steps + [step])[0] == step && (steps + [step])[1..] == [];
      var s' := Perform(cfg, s, step).state;
      assert IsRun(cfg, s', []) && After(cfg, s', []) == s';
    } else {
      assert (steps + [step])[0] == steps[0] && (steps + [step])[1..] == steps[1..] + [step];
      OneMoreStep(cfg, Perform(cfg, s, steps[0]).state, steps[1..], step);
    }
  }

  lemma RunIsCounted(u: Setup, steps: seq<Step>)
    requires Run(u, steps) && SubmitsNoSession(steps)
    ensures Counted(Demo(u), End(u, steps)) && Core(Demo(u), End(u, steps))
  {
    EmptyIsCounted(Demo(u));
    EmptyIsCore(Demo(u));
    RunsKeepCounts(Demo(u), EMPTY, steps);
    RunsKeepCore(Demo(u), EMPTY, steps);
  }

  // ---- room ----

  ghost predicate NobodyWaits(s: State) {
    forall id :: id in s.jobs ==> !Pending(s.jobs[id].status)
  }

  lemma RoomToWait(u: Setup, s: State, scopes: seq<Scope>)
    requires Exact(s) && NobodyWaits(s)
    ensures HasPendingRoom(Demo(u), s.counters, scopes)
  {
    forall k
      ensures Get(s.counters, k).pending == 0
    {
      assert SlotIds(s.jobs, k, PendingSlot) == {};
    }
  }

  lemma RoomToRun(u: Setup, s: State, scopes: seq<Scope>)
    requires Exact(s) && |s.jobs| <= 4 && forall k :: k in scopes ==> RunningLimit(Demo(u), k) > 4
    ensures HasRunningRoom(Demo(u), s.counters, scopes)
    ensures |WorkerJobs(s.jobs, "w")| <= 4
  {
    SubsetSize(WorkerJobs(s.jobs, "w"), s.jobs.Keys);
    forall k
      ensures Get(s.counters, k).running <= 4
    {
      SubsetSize(SlotIds(s.jobs, k, RunningSlot), s.jobs.Keys);
    }
  }

  // ---- single steps ----

  lemma SubmitSucceeds(u: Setup, s: State, id: nat, t: JobType, key: string, now: int)
    requires t in {DocumentIngest, VastSessionStart} && id !in s.jobs
    requires forall j :: j in s.jobs ==> s.jobs[j].spec.idempotency.key != key
    requires HasPendingRoom(Demo(u), s.counters, Scopes(Asked(u, t, key, now).spec))
    ensures Submit(Demo(u), s, id, Ask(t, key), now).reply == Created(id)
    ensures CreateJob(Demo(u), s, id, Ask(t, key), now).Ok?
    ensures Submit(Demo(u), s, id, Ask(t, key), now).state == CreateJob(Demo(u), s, id, Ask(t, key), now).value
    ensures var s' := Submit(Demo(u), s, id, Ask(t, key), now).state;
            s'.jobs == s.jobs[id := Asked(u, t, key, now)] && s'.tickets == s.tickets
  {
    assert FindByKey(s.jobs, KeyOf(Ask(t, key))).None?;
  }

  lemma LoneClaim(u: Setup, s: State, id: nat, token: nat, now: int)
    requires u.attempts >= 1 && id in s.jobs && s.jobs[id].spec.jobType in {DocumentIngest, VastSessionStart}
    requires Claimable(s.jobs[id], now) && forall j :: j in s.jobs && j != id ==> !Claimable(s.jobs[j], now)
    requires token !in s.tickets && |WorkerJobs(s.jobs, "w")| < 5
    ensures Enabled(Demo(u), s, Step(At(now), Claiming(ClaimOf(id, token))))
    ensures ClaimPicked(Demo(u), s, id, ClaimOf(id, token), At(now)).Ok? ==>
              Claim(Demo(u), s, ClaimOf(id, token), At(now)) == ClaimPicked(Demo(u), s, id, ClaimOf(id, token), At(now)).value
  {
    var cfg, q, env := Demo(u), ClaimOf(id, token), At(now);
    assert Recovered(cfg, s, q, env) == Ok(s);
    assert IsScanWindow(cfg, s.jobs, [id], now);
    LoneScan(u, s, id, token, now);
    ClaimFromStages(cfg, s, q, env);
  }

  lemma LoneScan(u: Setup, s: State, id: nat, token: nat, now: int)
    requires id in s.jobs && s.jobs[id].spec.jobType in {DocumentIngest, VastSessionStart}
    ensures ScannedAfter(Demo(u), s, ClaimOf(id, token), At(now)) == Ok(s)
    ensures EligibleFor(Demo(u), s, ClaimOf(id, token), At(now)) == [id]
    ensures Pick(s, [id]) == id
  {
    var cfg, q, env := Demo(u), ClaimOf(id, token), At(now);
    var scan := ScanWindow(q.worker, q.types);
    assert PassOne(cfg, s, scan, id, env) == Ok(s);
    assert [id][1..] == [];
    assert RunPass(cfg, s, scan, [], env) == Ok(s);
    assert Eligible(cfg, s, q.worker, q.types, [], env) == [];
  }

  lemma ClaimLeases(u: Setup, s: State, id: nat, token: nat, now: int) returns (s': State)
    requires u.attempts >= 1 && Exact(s) && |s.jobs| <= 4 && id in s.jobs && Sound(s.jobs[id])
    requires s.jobs[id].spec.jobType in {DocumentIngest, VastSessionStart} && HorizonSeconds(Demo(u), s.jobs[id].spec.jobType) > 0
    requires Claimable(s.jobs[id], now) && forall j :: j in s.jobs && j != id ==> !Claimable(s.jobs[j], now)
    requires token !in s.tickets
    ensures Exact(s')
    ensures Enabled(Demo(u), s, Step(At(now), Claiming(ClaimOf(id, token))))
    ensures Perform(Demo(u), s, Step(At(now), Claiming(ClaimOf(id, token)))).state == s'
    ensures LeaseRow(Demo(u), s.jobs[id], "w", token, now).Ok?
    ensures s'.jobs == s.jobs[id := LeaseRow(Demo(u), s.jobs[id], "w", token, now).value.record]
    ensures s'.tickets == s.tickets[token := Ticket(id, s.jobs[id].leaseGeneration + 1)]
  {
    RoomToRun(u, s, Scopes(s.jobs[id].spec));
    LoneClaim(u, s, id, token, now);
    ClaimKeepsExactIff(Demo(u), s, id, ClaimOf(id, token), At(now));
    s' := ClaimPicked(Demo(u), s, id, ClaimOf(id, token), At(now)).value.state;
    SlotsTakenIff(Demo(u), s, id);
    LeaseEndsAtOnceIff(Demo(u), s.jobs[id], now);
    PickedLive(Demo(u), s, id, ClaimOf(id, token), At(now));
  }

  // The worker of a lease that has not run out.
  ghost predicate HoldsLease(r: Record, token: nat, now: int) {
    && r.status == Leased && r.deletedAt.None? && r.spec.jobType == DocumentIngest
    && r.leasedBy == Some("w") && r.tokenHash == Some(HashOf(token))
    && r.leaseExpiresAt.Some? && r.leaseExpiresAt.value > now
  }

  function ReleaseOp(u: Setup, id: nat, r: Record): RowOp {
    Requeue(AttemptReleased, false, DelayFor(Demo(u), r, id))
  }

  lemma ReleaseGranted(u: Setup, s: State, id: nat, token: nat, now: int) returns (s': State)
    requires Counted(Demo(u), s) && NobodyWaits(s) && id in s.jobs && HoldsLease(s.jobs[id], token, now)
    ensures WorkerCall(Demo(u), s, OnLease(id, s.jobs[id].leaseGeneration, token), ReleaseCall, At(now)) == Outcome(s', Done)
    ensures ApplyOp(Demo(u), s, id, ReleaseOp(u, id, s.jobs[id]), now) == Ok(s')
  {
    RoomToWait(u, s, Scopes(s.jobs[id].spec));
    ReleaseApplies(u, s, id, ReleaseOp(u, id, s.jobs[id]), now);
    s' := ApplyOp(Demo(u), s, id, ReleaseOp(u, id, s.jobs[id]), now).value;
    LeaseIsGood(u, s, id, token, now);
    GrantedRelease(u, s, OnLease(id, s.jobs[id].leaseGeneration, token), ReleaseOp(u, id, s.jobs[id]), now);
  }

  lemma ReleaseWrites(u: Setup, s: State, id: nat, now: int)
    requires id in s.jobs && ApplyOp(Demo(u), s, id, ReleaseOp(u, id, s.jobs[id]), now).Ok?
    ensures var s' := ApplyOp(Demo(u), s, id, ReleaseOp(u, id, s.jobs[id]), now).value;
            var back := RequeueRow(s.jobs[id], AttemptReleased, false, DelayFor(Demo(u), s.jobs[id], id), now);
            back.Ok? && s'.jobs == s.jobs[id := back.value.record] && s'.tickets == s.tickets
  {
    ApplyReplaces(Demo(u), s, id, ReleaseOp(u, id, s.jobs[id]), now);
  }

  lemma LeaseIsGood(u: Setup, s: State, id: nat, token: nat, now: int)
    requires id in s.jobs && Sound(s.jobs[id]) && HoldsLease(s.jobs[id], token, now)
    ensures ValidateLease(s, OnLease(id, s.jobs[id].leaseGeneration, token), At(now)) == Granted
  {
    CurrentAttempt(s.jobs[id]);
  }

  lemma GrantedRelease(u: Setup, s: State, q: LeaseRequest, op: RowOp, now: int)
    requires ValidateLease(s, q, At(now)) == Granted && q.job in s.jobs && s.jobs[q.job].status == Leased
    requires op == Requeue(AttemptReleased, false, DelayFor(Demo(u), s.jobs[q.job], q.job))
    requires ApplyOp(Demo(u), s, q.job, op, now).Ok?
    ensures WorkerCall(Demo(u), s, q, ReleaseCall, At(now)) == Outcome(ApplyOp(Demo(u), s, q.job, op, now).value, Done)
  {
  }

  lemma ReleaseApplies(u: Setup, s: State, id: nat, op: RowOp, now: int)
    requires Counted(Demo(u), s) && id in s.jobs && s.jobs[id].status == Leased
    requires IsRelease(op) && HasPendingRoom(Demo(u), s.counters, Scopes(s.jobs[id].spec))
    ensures ApplyOp(Demo(u), s, id, op, now).Ok?
  {
    assert ApplyRow(Demo(u), s.jobs[id], op, now).Ok?;
    ChangesAreExact(Demo(u), s, id, op, now);
  }

  // ---- one step more in a run ----

  ghost predicate Goes(u: Setup, steps: seq<Step>, jobs: map<nat, Record>, tickets: map<nat, Ticket>) {
    && Run(u, steps) && SubmitsNoSession(steps)
    && End(u, steps).jobs == jobs && End(u, steps).tickets == tickets
  }

  lemma Extend(u: Setup, steps: seq<Step>, step: Step)
    requires Run(u, steps) && SubmitsNoSession(steps) && Enabled(Demo(u), End(u, steps), step)
    requires step.action.Submitting? ==> step.action.submission.jobType != VastSessionStart
    ensures Run(u, steps + [step]) && SubmitsNoSession(steps + [step])
    ensures End(u, steps + [step]) == Perform(Demo(u), End(u, steps), step).state
  {
    OneMoreStep(Demo(u), EMPTY, steps, step);
  }

  lemma ExtendTo(u: Setup, steps: seq<Step>, step: Step, jobs: map<nat, Record>, tickets: map<nat, Ticket>) returns (longer: seq<Step>)
    requires Run(u, steps) && SubmitsNoSession(steps) && Enabled(Demo(u), End(u, steps), step)
    requires step.action.Submitting? ==> step.action.submission.jobType != VastSessionStart
    requires Perform(Demo(u), End(u, steps), step).state.jobs == jobs && Perform(Demo(u), End(u, steps), step).state.tickets == tickets
    ensures Goes(u, longer, jobs, tickets)
  {
    Extend(u, steps, step);
    longer := steps + [step];
  }

  lemma NextSubmit(u: Setup, steps: seq<Step>, jobs: map<nat, Record>, tickets: map<nat, Ticket>, id: nat, key: string, now: int)
    returns (longer: seq<Step>)
    requires Goes(u, steps, jobs, tickets) && id !in jobs
    requires forall j :: j in jobs ==> !Pending(jobs[j].status) && jobs[j].spec.idempotency.key != key
    ensures Goes(u, longer, jobs[id := Asked(u, DocumentIngest, key, now)], tickets)
  {
    var s, step := End(u, steps), Step(At(now), Submitting(id, Ask(DocumentIngest, key)));
    RunIsCounted(u, steps);
    RoomToWait(u, s, Scopes(Asked(u, DocumentIngest, key, now).spec));
    SubmitSucceeds(u, s, id, DocumentIngest, key, now);
    longer := ExtendTo(u, steps, step, jobs[id := Asked(u, DocumentIngest, key, now)], tickets);
  }

  lemma NextClaim(u: Setup, steps: seq<Step>, jobs: map<nat, Record>, tickets: map<nat, Ticket>, id: nat, token: nat, now: int)
    returns (longer: seq<Step>)
    requires Goes(u, steps, jobs, tickets) && |jobs| <= 4 && id in jobs && jobs[id].spec.jobType == DocumentIngest
    requires Claimable(jobs[id], now) && forall j :: j in jobs && j != id ==> !Claimable(jobs[j], now)
    requires token !in tickets
    ensures LeaseRow(Demo(u), jobs[id], "w", token, now).Ok?
    ensures Goes(u, longer, jobs[id := LeaseRow(Demo(u), jobs[id], "w", token, now).value.record],
                 tickets[token := Ticket(id, jobs[id].leaseGeneration + 1)])
  {
    RunIsCounted(u, steps);
    longer := ClaimExtends(u, steps, End(u, steps), id, token, now);
  }

  lemma ClaimExtends(u: Setup, steps: seq<Step>, s: State, id: nat, token: nat, now: int) returns (longer: seq<Step>)
    requires Run(u, steps) && SubmitsNoSession(steps) && s == End(u, steps)
    requires Exact(s) && |s.jobs| <= 4 && id in s.jobs && Sound(s.jobs[id]) && s.jobs[id].spec.jobType == DocumentIngest
    requires Claimable(s.jobs[id], now) && forall j :: j in s.jobs && j != id ==> !Claimable(s.jobs[j], now)
    requires token !in s.tickets
    ensures LeaseRow(Demo(u), s.jobs[id], "w", token, now).Ok?
    ensures Goes(u, longer, s.jobs[id := LeaseRow(Demo(u), s.jobs[id], "w", token, now).value.record],
                 s.tickets[token := Ticket(id, s.jobs[id].leaseGeneration + 1)])
  {
    var s' := ClaimLeases(u, s, id, token, now);
    longer := ExtendTo(u, steps, Step(At(now), Claiming(ClaimOf(id, token))), s'.jobs, s'.tickets);
  }

  lemma NextRelease(u: Setup, steps: seq<Step>, jobs: map<nat, Record>, tickets: map<nat, Ticket>, id: nat, token: nat, now: int)
    returns (longer: seq<Step>)
    requires Goes(u, steps, jobs, tickets) && id in jobs && forall j :: j in jobs ==> !Pending(jobs[j].status)
    requires HoldsLease(jobs[id], token, now)
    ensures var back := RequeueRow(jobs[id], AttemptReleased, false, DelayFor(Demo(u), jobs[id], id), now);
            back.Ok? && Goes(u, longer, jobs[id := back.value.record], tickets)
  {
    var s, step := End(u, steps), Step(At(now), Calling(OnLease(id, jobs[id].leaseGeneration, token), ReleaseCall));
    RunIsCounted(u, steps);
    var s' := ReleaseGranted(u, s, id, token, now);
    ReleaseWrites(u, s, id, now);
    longer := ExtendTo(u, steps, step, s'.jobs, tickets);
  }

  lemma NextCancel(u: Setup, steps: seq<Step>, jobs: map<nat, Record>, tickets: map<nat, Ticket>, id: nat, now: int)
    returns (longer: seq<Step>)
    requires Goes(u, steps, jobs, tickets) && id in jobs
    requires jobs[id].status == Leased && jobs[id].deletedAt.None? && jobs[id].leasedBy.Some?
    ensures RequestCancelRow(jobs[id], now).Ok?
    ensures Goes(u, longer, jobs[id := RequestCancelRow(jobs[id], now).value.record], tickets)
  {
    var s, step := End(u, steps), Step(At(now), Cancelling(id, true));
    CancelRequestGranted(u, s, id, now);
    longer := ExtendTo(u, steps, step, Perform(Demo(u), s, step).state.jobs, tickets);
  }

  lemma CancelRequestGranted(u: Setup, s: State, id: nat, now: int)
    requires id in s.jobs && s.jobs[id].status == Leased && s.jobs[id].deletedAt.None? && s.jobs[id].leasedBy.Some?
    ensures RequestCancelRow(s.jobs[id], now).Ok?
    ensures var s' := CancelJob(Demo(u), s, id, true, At(now)).state;
            s'.jobs == s.jobs[id := RequestCancelRow(s.jobs[id], now).value.record] && s'.tickets == s.tickets
  {
    assert ApplyMoves(Demo(u), s.counters, Scopes(s.jobs[id].spec), []) == Ok(s.counters);
  }

  // ---- a job tried more often than its limit ----

  function Waiting(u: Setup): Record {
    Asked(u, DocumentIngest, "first-key", 0)
  }

  function Leased1(u: Setup): Record {
    LeaseRow(Demo(u), Waiting(u), "w", 1, 1).value.record
  }

  function GivenUp(u: Setup): Record {
    RequeueRow(Leased1(u), AttemptReleased, false, 1, 2).value.record
  }

  lemma FirstLease(u: Setup)
    requires u.attempts >= 1
    ensures Claimable(Waiting(u), 1) && Waiting(u).spec.jobType == DocumentIngest && Waiting(u).leaseGeneration == 0
    ensures LeaseRow(Demo(u), Waiting(u), "w", 1, 1).Ok?
    ensures var r := Leased1(u);
            && r.status == Leased && r.deletedAt.None? && r.spec == Waiting(u).spec
            && r.leasedBy == Some("w") && r.tokenHash == Some(HashOf(1)) && r.leaseGeneration == 1 && r.attemptCount == 1
            && r.leaseExpiresAt == Some(31) && HoldsLease(r, 1, 2)
  {
  }

  lemma FirstGivenUp(u: Setup)
    requires u.attempts >= 1
    ensures DelayFor(Demo(u), Leased1(u), 1) == 1
    ensures RequeueRow(Leased1(u), AttemptReleased, false, 1, 2).Ok?
    ensures Claimable(GivenUp(u), 3)
    ensures var r := GivenUp(u);
            r.status == RetryWait && r.spec == Waiting(u).spec && r.attemptCount == 1 && r.leaseGeneration == 1
  {
    FirstLease(u);
    assert Power2(0) == 1;
  }

  // Submitted at 0 and claimed at 1.
  lemma Started(u: Setup) returns (steps: seq<Step>)
    requires u.attempts >= 1
    ensures Goes(u, steps, map[1 := Leased1(u)], map[1 := Ticket(1, 1)])
  {
    FirstLease(u);
    var one := NextSubmit(u, [], map[], map[], 1, "first-key", 0);
    assert map[][1 := Waiting(u)] == map[1 := Waiting(u)];
    steps := NextClaim(u, one, map[1 := Waiting(u)], map[], 1, 1, 1);
    assert map[1 := Waiting(u)][1 := Leased1(u)] == map[1 := Leased1(u)];
  }

  // A job allowed one attempt is claimed, released by its worker, and claimed again
  // once the backoff is over: it has been tried twice.
  lemma ReleaseOutrunsTheLimitHere() returns (steps: seq<Step>)
    ensures IsRun(Demo(ONCE), EMPTY, steps)
    ensures 1 in After(Demo(ONCE), EMPTY, steps).jobs
    ensures var r := After(Demo(ONCE), EMPTY, steps).jobs[1];
            r.status == Leased && r.spec.maxAttempts == 1 && r.attemptCount == 2
  {
    var started := Started(ONCE);
    FirstLease(ONCE);
    FirstGivenUp(ONCE);
    var waiting := NextRelease(ONCE, started, map[1 := Leased1(ONCE)], map[1 := Ticket(1, 1)], 1, 1, 2);
    assert map[1 := Leased1(ONCE)][1 := GivenUp(ONCE)] == map[1 := GivenUp(ONCE)];
    steps := NextClaim(ONCE, waiting, map[1 := GivenUp(ONCE)], map[1 := Ticket(1, 1)], 1, 2, 3);
    SecondLease();
  }

  lemma SecondLease()
    ensures var lease := LeaseRow(Demo(ONCE), GivenUp(ONCE), "w", 2, 3);
            lease.Ok? ==> lease.value.record.status == Leased && lease.value.record.attemptCount == 2
                          && lease.value.record.spec.maxAttempts == 1
  {
    FirstGivenUp(ONCE);
  }

  // ---- a disposal refused ----

  // Claimed, and asked to stop by its owner; deleting the account is then refused
  // as long as the worker has not answered.
  lemma DisposalFailsHere() returns (steps: seq<Step>)
    ensures IsRun(Demo(ONCE), EMPTY, steps)
    ensures 1 in After(Demo(ONCE), EMPTY, steps).jobs && After(Demo(ONCE), EMPTY, steps).jobs[1].spec.owner == "ann"
    ensures WholePass(Demo(ONCE), After(Demo(ONCE), EMPTY, steps), DisposeAccount, [1], At(3)) ==
            Outcome(After(Demo(ONCE), EMPTY, steps), Refused(500))
  {
    var started := Started(ONCE);
    FirstLease(ONCE);
    steps := NextCancel(ONCE, started, map[1 := Leased1(ONCE)], map[1 := Ticket(1, 1)], 1, 2);
    DisposalRefused(End(ONCE, steps), 1, 3);
  }

  lemma DisposalRefused(s: State, id: nat, now: int)
    requires id in s.jobs && AwaitsAcknowledgement(s.jobs[id])
    ensures WholePass(Demo(ONCE), s, DisposeAccount, [id], At(now)) == Outcome(s, Refused(500))
  {
    assert PassOne(Demo(ONCE), s, DisposeAccount, id, At(now)) == Raised(500);
  }

  // ---- a recovery refused ----

  // The user's only pending slot is taken by a second job when the lease of the
  // first runs out with a retry left.
  lemma RecoveryRefusedHere() returns (steps: seq<Step>)
    ensures IsRun(Demo(TWICE), EMPTY, steps)
    ensures var s := After(Demo(TWICE), EMPTY, steps);
            1 in s.jobs && Expired(s.jobs[1], 31) && RunPass(Demo(TWICE), s, RecoverExpired, [1], At(31)) == Raised(429)
  {
    var started := Started(TWICE);
    FirstLease(TWICE);
    steps := NextSubmit(TWICE, started, map[1 := Leased1(TWICE)], map[1 := Ticket(1, 1)], 2, "second-key", 2);
    RunIsCounted(TWICE, steps);
    RetryFindsNoRoom(End(TWICE, steps));
  }

  lemma RetryFindsNoRoom(s: State)
    requires Counted(Demo(TWICE), s) && s.jobs.Keys == {1, 2}
    requires s.jobs[1] == Leased1(TWICE) && s.jobs[2] == Asked(TWICE, DocumentIngest, "second-key", 2)
    ensures Expired(s.jobs[1], 31) && RunPass(Demo(TWICE), s, RecoverExpired, [1], At(31)) == Raised(429)
  {
    RetryIsDue(s);
    SecondTakesTheSlot(s);
    assert Scopes(s.jobs[1].spec)[2] == UserScope("ann");
    assert !FindsRoom(Demo(TWICE), s, [1], 0, At(31));
    PassFindsRoom(Demo(TWICE), s, [1], At(31));
  }

  lemma RetryIsDue(s: State)
    requires 1 in s.jobs && s.jobs[1] == Leased1(TWICE)
    ensures SentBack(Demo(TWICE), s.jobs, 1, At(31)) && Expired(s.jobs[1], 31) && s.jobs[1].status == Leased
    ensures |Scopes(s.jobs[1].spec)| == 3 && Scopes(s.jobs[1].spec)[2] == UserScope("ann")
  {
    FirstLease(TWICE);
  }

  lemma SecondTakesTheSlot(s: State)
    requires Exact(s) && s.jobs.Keys == {1, 2} && s.jobs[1].status == Leased
    requires s.jobs[2] == Asked(TWICE, DocumentIngest, "second-key", 2)
    ensures Get(s.counters, UserScope("ann")).pending == 1
  {
    var scopes := Scopes(s.jobs[2].spec);
    assert scopes[2] == UserScope("ann");
    assert SlotIds(s.jobs, UserScope("ann"), PendingSlot) == {2};
  }

  // ---- a claim that leaks a running slot ----

  // A provider session that the settings give no time is submitted and claimed: it
  // fails at once, and its running slots stay taken.
  lemma LateExpiryDriftsHere() returns (steps: seq<Step>)
    ensures IsRun(Demo(ONCE), EMPTY, steps)
    ensures var s := After(Demo(ONCE), EMPTY, steps);
            1 in s.jobs && Terminal(s.jobs[1].status) && s.jobs.Keys == {1} && !Exact(s)
  {
    var cfg, submit, claim := Demo(ONCE), Step(At(0), Submitting(1, Ask(VastSessionStart, "first-key"))), Step(At(1), Claiming(ClaimOf(1, 1)));
    var s := Perform(cfg, EMPTY, submit).state;
    SessionSubmitted(ONCE);
    SessionClaimed(s);
    assert IsRun(cfg, EMPTY, []) && After(cfg, EMPTY, []) == EMPTY;
    OneMoreStep(cfg, EMPTY, [], submit);
    assert [] + [submit] == [submit];
    OneMoreStep(cfg, EMPTY, [submit], claim);
    steps := [submit] + [claim];
  }

  lemma SessionSubmitted(u: Setup)
    requires u.attempts >= 1
    ensures var s := Submit(Demo(u), EMPTY, 1, Ask(VastSessionStart, "first-key"), 0).state;
            && s.jobs == map[1 := Asked(u, VastSessionStart, "first-key", 0)] && s.tickets == map[]
            && Exact(s) && Sound(s.jobs[1])
  {
    EmptyIsCounted(Demo(u));
    SubmitIsExact(u, EMPTY, 1, VastSessionStart, "first-key", 0);
    NewIsSound(Asked(u, VastSessionStart, "first-key", 0).spec);
  }

  lemma SubmitIsExact(u: Setup, s: State, id: nat, t: JobType, key: string, now: int)
    requires t in {DocumentIngest, VastSessionStart} && id !in s.jobs && Exact(s) && NobodyWaits(s)
    requires forall j :: j in s.jobs ==> s.jobs[j].spec.idempotency.key != key
    ensures var s' := Submit(Demo(u), s, id, Ask(t, key), now).state;
            Exact(s') && s'.jobs == s.jobs[id := Asked(u, t, key, now)] && s'.tickets == s.tickets
  {
    RoomToWait(u, s, Scopes(Asked(u, t, key, now).spec));
    SubmitSucceeds(u, s, id, t, key, now);
    CreateTakesSlots(Demo(u), s, id, Ask(t, key), now);
    ArrivalKeepsExact(s, CreateJob(Demo(u), s, id, Ask(t, key), now).value, id);
  }

  lemma SessionClaimed(s: State)
    requires s.jobs == map[1 := Asked(ONCE, VastSessionStart, "first-key", 0)] && s.tickets == map[] && Exact(s) && Sound(s.jobs[1])
    ensures Enabled(Demo(ONCE), s, Step(At(1), Claiming(ClaimOf(1, 1))))
    ensures var s' := Claim(Demo(ONCE), s, ClaimOf(1, 1), At(1)).state;
            s'.jobs.Keys == {1} && Terminal(s'.jobs[1].status) && !Exact(s')
  {
    RoomToRun(ONCE, s, Scopes(s.jobs[1].spec));
    LoneClaim(ONCE, s, 1, 1, 1);
    SessionHasNoTime(s);
    ClaimKeepsExactIff(Demo(ONCE), s, 1, ClaimOf(1, 1), At(1));
    LateClaimFails(s);
  }

  lemma SessionHasNoTime(s: State)
    requires s.jobs == map[1 := Asked(ONCE, VastSessionStart, "first-key", 0)]
    ensures Claimable(s.jobs[1], 1) && HorizonSeconds(Demo(ONCE), s.jobs[1].spec.jobType) == 0
  {
  }

  lemma LateClaimFails(s: State)
    requires s.jobs == map[1 := Asked(ONCE, VastSessionStart, "first-key", 0)] && Exact(s)
    requires HasRunningRoom(Demo(ONCE), s.counters, Scopes(s.jobs[1].spec))
    ensures var picked := ClaimPicked(Demo(ONCE), s, 1, ClaimOf(1, 1), At(1));
            picked.Ok? ==> picked.value.state.jobs.Keys == {1} && Terminal(picked.value.state.jobs[1].status)
  {
    SlotsTakenIff(Demo(ONCE), s, 1);
    LeaseEndsAtOnceIff(Demo(ONCE), s.jobs[1], 1);
    PickedExpired(Demo(ONCE), s, 1, ClaimOf(1, 1), At(1));
    var e := FailedCounters(Demo(ONCE), s.(counters := MoveToRunning(Demo(ONCE), s.counters, Scopes(s.jobs[1].spec)).counters), 1, 1);
  }

  // ---- a settlement that loses a pending slot ----

  const FAIL_SESSION := FailCall(PermanentInput)

  function WaitingSession(): Record {
    Asked(TIMED, VastSessionStart, "first-key", 0)
  }

  function LeasedSession(): Record {
    LeaseRow(Demo(TIMED), WaitingSession(), "w", 1, 1).value.record
  }

  lemma SessionIsReady()
    ensures Claimable(WaitingSession(), 1) && WaitingSession().spec.jobType == VastSessionStart
    ensures HorizonSeconds(Demo(TIMED), VastSessionStart) > 0
  {
  }

  lemma SessionLeased(s: State) returns (s': State)
    requires s.jobs == map[1 := WaitingSession()] && s.tickets == map[] && Exact(s) && Sound(s.jobs[1])
    ensures Enabled(Demo(TIMED), s, Step(At(1), Claiming(ClaimOf(1, 1))))
    ensures Perform(Demo(TIMED), s, Step(At(1), Claiming(ClaimOf(1, 1)))).state == s'
    ensures s'.jobs == s.jobs[1 := LeasedSession()] && Exact(s')
  {
    SessionIsReady();
    s' := ClaimLeases(TIMED, s, 1, 1, 1);
  }

  lemma SessionIsHeld()
    ensures var r := LeasedSession();
            && Sound(r) && r.status == Leased && r.deletedAt.None? && r.spec == WaitingSession().spec
            && r.leasedBy == Some("w") && r.tokenHash == Some(HashOf(1)) && r.leaseGeneration == 1
            && r.leaseExpiresAt == Some(31) && r.cost.Some? && r.cost.value.status == CostRunning
  {
    NewIsSound(WaitingSession().spec);
    LeaseKeepsSound(Demo(TIMED), WaitingSession(), "w", 1, 1);
  }

  // The session's worker reports a permanent failure before it asked the provider.
  lemma FailureIsGranted(s: State) returns (op: RowOp)
    requires 1 in s.jobs && s.jobs[1] == LeasedSession()
    ensures Sound(s.jobs[1]) && Fits(s.jobs[1], op) && SettlesAsPending(s.jobs[1], op) && op.Bury? && Held(s.jobs[1].status)
    ensures ApplyOp(Demo(TIMED), s, 1, op, 3).Ok?
    ensures WorkerCall(Demo(TIMED), s, OnLease(1, 1, 1), FAIL_SESSION, At(3)) == Outcome(ApplyOp(Demo(TIMED), s, 1, op, 3).value, Done)
  {
    op := FailureSettles(s.jobs[1]);
    SessionLeaseIsGood(s);
    SettlingSucceeds(Demo(TIMED), s, 1, op, 3);
    GrantedCallApplies(Demo(TIMED), s, OnLease(1, 1, 1), FAIL_SESSION, op, At(3));
  }

  lemma SessionLeaseIsGood(s: State)
    requires 1 in s.jobs && s.jobs[1] == LeasedSession()
    ensures ValidateLease(s, OnLease(1, 1, 1), At(3)) == Granted
  {
    SessionIsHeld();
    CurrentAttempt(s.jobs[1]);
  }

  lemma FailureSettles(r: Record) returns (op: RowOp)
    requires r == LeasedSession()
    ensures Sound(r) && Fits(r, op) && SettlesAsPending(r, op) && op.Bury? && Held(r.status)
    ensures OpForCall(Demo(TIMED), r, 1, FAIL_SESSION, At(3)) == Ok(op)
  {
    SessionIsHeld();
    op := Bury(AttemptDeadLetter, SessionOf(At(3), 1));
  }

  lemma GrantedCallApplies(cfg: Settings, s: State, q: LeaseRequest, call: Call, op: RowOp, env: Env)
    requires ValidateLease(s, q, env) == Granted && q.job in s.jobs
    requires OpForCall(cfg, s.jobs[q.job], q.job, call, env) == Ok(op)
    requires ApplyOp(cfg, s, q.job, op, env.now).Ok?
    ensures WorkerCall(cfg, s, q, call, env) == Outcome(ApplyOp(cfg, s, q.job, op, env.now).value, Done)
  {
  }

  lemma OneWaits(s: State)
    requires Exact(s) && s.jobs.Keys == {1, 2} && Held(s.jobs[1].status) && Pending(s.jobs[2].status)
    ensures Get(s.counters, GlobalScope).pending == 1
  {
    assert GlobalScope == Scopes(s.jobs[2].spec)[0];
    assert SlotIds(s.jobs, GlobalScope, PendingSlot) == {2};
  }

  lemma SessionFails(s: State)
    requires Exact(s) && s.jobs.Keys == {1, 2} && s.jobs[1] == LeasedSession() && s.jobs[2].status == Queued
    ensures var s' := WorkerCall(Demo(TIMED), s, OnLease(1, 1, 1), FAIL_SESSION, At(3)).state;
            && !Exact(s') && 2 in s'.jobs && s'.jobs[2].status == Queued
            && Get(s'.counters, GlobalScope).pending == 0
  {
    var op := FailureIsGranted(s);
    OneWaits(s);
    SettlingDriftsIff(Demo(TIMED), s, 1, op, 3);
    var e := SettlingCounters(Demo(TIMED), s, 1, op, 3, GlobalScope);
  }

  ghost predicate Ends(cfg: Settings, steps: seq<Step>, s: State) {
    IsRun(cfg, EMPTY, steps) && After(cfg, EMPTY, steps) == s
  }

  lemma ThenStep(cfg: Settings, steps: seq<Step>, s: State, step: Step, s': State) returns (longer: seq<Step>)
    requires Ends(cfg, steps, s) && Enabled(cfg, s, step) && s' == Perform(cfg, s, step).state
    ensures Ends(cfg, longer, s')
  {
    OneMoreStep(cfg, EMPTY, steps, step);
    longer := steps + [step];
  }

  lemma UpToSession() returns (steps: seq<Step>, s: State)
    ensures Ends(Demo(TIMED), steps, s)
    ensures s.jobs == map[1 := WaitingSession()] && s.tickets == map[] && Exact(s) && Sound(s.jobs[1])
  {
    var cfg, step := Demo(TIMED), Step(At(0), Submitting(1, Ask(VastSessionStart, "first-key")));
    SessionSubmitted(TIMED);
    s := Submit(cfg, EMPTY, 1, Ask(VastSessionStart, "first-key"), 0).state;
    steps := ThenStep(cfg, [], EMPTY, step, s);
  }

  lemma UpToClaim() returns (steps: seq<Step>, s: State)
    ensures Ends(Demo(TIMED), steps, s)
    ensures s.jobs == map[1 := LeasedSession()] && Exact(s)
  {
    var first, s1 := UpToSession();
    s := SessionLeased(s1);
    steps := ThenStep(Demo(TIMED), first, s1, Step(At(1), Claiming(ClaimOf(1, 1))), s);
  }

  lemma UpToDocument() returns (steps: seq<Step>, s: State)
    ensures Ends(Demo(TIMED), steps, s)
    ensures Exact(s) && s.jobs.Keys == {1, 2} && s.jobs[1] == LeasedSession() && s.jobs[2].status == Queued
  {
    var first, s2 := UpToClaim();
    DocumentSubmitted(s2);
    s := Submit(Demo(TIMED), s2, 2, Ask(DocumentIngest, "second-key"), 2).state;
    steps := ThenStep(Demo(TIMED), first, s2, Step(At(2), Submitting(2, Ask(DocumentIngest, "second-key"))), s);
  }

  lemma SessionIsOutOfTheWay()
    ensures !Pending(LeasedSession().status) && LeasedSession().spec.idempotency.key != "second-key"
  {
    SessionIsHeld();
    assert WaitingSession().spec.idempotency.key[0] == 'f';
  }

  lemma DocumentSubmitted(s: State)
    requires Exact(s) && s.jobs == map[1 := LeasedSession()]
    ensures var s' := Submit(Demo(TIMED), s, 2, Ask(DocumentIngest, "second-key"), 2).state;
            Exact(s') && s'.jobs.Keys == {1, 2} && s'.jobs[1] == LeasedSession() && s'.jobs[2].status == Queued
  {
    SessionIsOutOfTheWay();
    SubmitIsExact(TIMED, s, 2, DocumentIngest, "second-key", 2);
  }

  // A provider session is submitted and claimed, a document is submitted behind it,
  // and the session fails before it was asked for: the document still waits, and
  // no counter knows of it.
  lemma SettlingDriftsHere() returns (steps: seq<Step>)
    ensures IsRun(Demo(TIMED), EMPTY, steps)
    ensures var s := After(Demo(TIMED), EMPTY, steps);
            && 2 in s.jobs && s.jobs[2].status == Queued
            && Get(s.counters, GlobalScope).pending == 0 && !Exact(s)
  {
    var first, s := UpToDocument();
    SessionFails(s);
    var s' := WorkerCall(Demo(TIMED), s, OnLease(1, 1, 1), FAIL_SESSION, At(3)).state;
    steps := ThenStep(Demo(TIMED), first, s, Step(At(3), Calling(OnLease(1, 1, 1), FAIL_SESSION)), s');
  }
}
