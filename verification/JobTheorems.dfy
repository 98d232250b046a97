// Whole-run results about the job protocol: fencing, completion, idempotency,
// bounded retries, recovery and disposal.

module JobTheorems {
  import opened Outcomes
  import opened JobRegistry
  import opened JobStatusMachine
  import opened JobRows
  import opened JobRowProofs
  import opened Capacity
  import opened JobProtocol
  import opened JobInvariants

  // ---- reachable jobs ----

  // A lease is held iff the status says so; there is one attempt row per
  // generation 1..n; the only open one is the current one, open iff the lease is
  // held; the log is numbered 1..n and walks the transition table to the status;
  // and attempts and moves are bounded.
  ghost predicate WellKept(r: Record) {
    && (r.leasedBy.Some? <==> r.status in {Leased, Running, CancelRequested})
    && r.leaseGeneration == r.attemptCount == |r.attempts|
    && (forall i :: 0 <= i < |r.attempts| ==>
         && r.attempts[i].generation == i + 1
         && (r.attempts[i].endedAt.None? <==> r.leasedBy.Some? && i + 1 == r.leaseGeneration))
    && Numbered(r.events) && Replay(r.events) == Some(r.status)
    && r.attemptCount <= r.spec.maxAttempts + Releases(r.attempts)
    && Moves(r.events) <= 3 * r.attemptCount + 2
  }

  lemma SoundIsWellKept(r: Record)
    requires Sound(r)
    ensures WellKept(r)
  {
  }

  // The jobs a worker has a lease on.
  function LeasedTo(jobs: map<nat, Record>, worker: string): set<nat> {
    set id | id in jobs && jobs[id].leasedBy == Some(worker)
  }

  lemma LeasedIsHeld(s: State, worker: string)
    requires AllSound(s)
    ensures LeasedTo(s.jobs, worker) == WorkerJobs(s.jobs, worker)
  {
    forall id | id in s.jobs
      ensures s.jobs[id].leasedBy.Some? ==> Held(s.jobs[id].status)
    {
      assert Sound(s.jobs[id]);
    }
  }

  // In every reachable state every job is well kept, and no worker holds more
  // jobs than its limit.
  lemma ReachableJobs(cfg: Settings, steps: seq<Step>)
    requires ValidSettings(cfg) && IsRun(cfg, EMPTY, steps)
    ensures var s := After(cfg, EMPTY, steps);
            && (forall id :: id in s.jobs ==> WellKept(s.jobs[id]))
            && (forall w :: w in cfg.workers ==> |LeasedTo(s.jobs, w)| <= cfg.workers[w].maxConcurrency)
  {
    EmptyIsCore(cfg);
    RunsKeepCore(cfg, EMPTY, steps);
    var s := After(cfg, EMPTY, steps);
    forall w | w in cfg.workers
      ensures LeasedTo(s.jobs, w) == WorkerJobs(s.jobs, w)
    {
      LeasedIsHeld(s, w);
    }
    forall id | id in s.jobs
      ensures WellKept(s.jobs[id])
    {
      SoundIsWellKept(s.jobs[id]);
    }
  }

  // ---- fencing ----

  // Generation g of a job no longer holds its lease.
  predicate Ended(r: Record, generation: nat) {
    r.leaseGeneration > generation || (r.leaseGeneration == generation && r.leasedBy.None?)
  }

  // A token whose lease is over, or that was issued for another job.
  predicate Spent(s: State, token: nat, job: nat) {
    token in s.tickets &&
    (s.tickets[token].job != job ||
     (job in s.jobs && Ended(s.jobs[job], s.tickets[token].generation)))
  }

  // Only the holder of the current lease is ever served: its generation, its
  // token, its worker, before the lease expires.
  lemma OnlyHolderIsServed(cfg: Settings, s: State, q: LeaseRequest, env: Env)
    requires Core(cfg, s)
    requires !ValidateLease(s, q, env).Denied?
    ensures q.job in s.jobs
    ensures var r := s.jobs[q.job];
            && q.token in s.tickets && s.tickets[q.token] == Ticket(q.job, r.leaseGeneration)
            && q.generation == r.leaseGeneration
            && Held(r.status) && r.leasedBy == Some(q.worker)
            && r.attempts[|r.attempts| - 1].worker == q.worker
            && env.now < r.leaseExpiresAt.value <= r.spec.deadlineAt.value
  {
    assert Sound(s.jobs[q.job]);
  }

  predicate Stale(s: State, q: LeaseRequest) {
    (q.job in s.jobs && Ended(s.jobs[q.job], q.generation)) || Spent(s, q.token, q.job)
  }

  lemma StaleStays(s: State, later: State, q: LeaseRequest)
    requires Onward(s, later) && Stale(s, q)
    ensures Stale(later, q)
  {
    if q.job in s.jobs {
      assert Advances(s.jobs[q.job], later.jobs[q.job]);
    }
  }

  lemma StaleIsDenied(cfg: Settings, s: State, q: LeaseRequest, env: Env)
    requires Core(cfg, s) && Stale(s, q)
    ensures ValidateLease(s, q, env).Denied?
  {
    if !ValidateLease(s, q, env).Denied? {
      OnlyHolderIsServed(cfg, s, q, env);
      assert false;
    }
  }

  // Over whole runs: once a lease generation of a job has ended, no later
  // request quoting its generation or its token changes anything, whatever
  // happens in between.
  lemma Fenced(cfg: Settings, s: State, steps: seq<Step>, q: LeaseRequest, call: Call, env: Env)
    requires ValidSettings(cfg) && Core(cfg, s) && IsRun(cfg, s, steps)
    requires Stale(s, q)
    ensures var later := After(cfg, s, steps);
            var outcome := WorkerCall(cfg, later, q, call, env);
            outcome.state == later && outcome.reply.Refused?
  {
    var later := After(cfg, s, steps);
    RunsKeepCore(cfg, s, steps);
    StaleStays(s, later, q);
    StaleIsDenied(cfg, later, q, env);
  }

  // A completed job stays completed, with the result of the holder of its last
  // generation and no other.
  lemma CompletesOnce(cfg: Settings, s: State, steps: seq<Step>, id: nat)
    requires ValidSettings(cfg) && Core(cfg, s) && IsRun(cfg, s, steps)
    requires id in s.jobs && s.jobs[id].status == Completed
    ensures var r, later := s.jobs[id], After(cfg, s, steps);
            && id in later.jobs
            && later.jobs[id] == r.(deletedAt := later.jobs[id].deletedAt)
            && r.result.Some?
            && r.result.value.generation == r.leaseGeneration == |r.attempts|
            && r.result.value.worker == r.attempts[|r.attempts| - 1].worker
  {
    RunsKeepCore(cfg, s, steps);
    assert Sound(s.jobs[id]);
    assert Advances(s.jobs[id], After(cfg, s, steps).jobs[id]);
  }

  // ---- a new job ----

  // A submission that creates a job adds that one row, charges its quota row
  // (if it has one) exactly one unit within the limit, and takes one pending
  // slot with room in each of its scopes.
  lemma CreatedSubmission(cfg: Settings, s: State, id: nat, q: Submission, now: int)
    requires ValidSettings(cfg) && id !in s.jobs
    requires Submit(cfg, s, id, q, now).reply == Created(id)
    ensures var s' := Submit(cfg, s, id, q, now).state;
            && Adds(s, s', id, KeyOf(q))
            && s'.jobs[id].status == Queued && s'.jobs[id].spec.fingerprint == q.fingerprint
            && (forall k :: k in Scopes(s'.jobs[id].spec) ==>
                 && Get(s'.counters, k).pending == Get(s.counters, k).pending + 1 <= PendingLimit(cfg, k)
                 && Get(s'.counters, k).running == Get(s.counters, k).running)
            && (forall k :: k !in Scopes(s'.jobs[id].spec) ==> Get(s'.counters, k) == Get(s.counters, k))
  {
    CreateAdds(cfg, s, id, q, now);
    CreateTakesSlots(cfg, s, id, q, now);
  }

  lemma CreateTakesSlots(cfg: Settings, s: State, id: nat, q: Submission, now: int)
    requires CreateJob(cfg, s, id, q, now).Ok?
    ensures var s' := CreateJob(cfg, s, id, q, now).value;
            && id in s'.jobs && s'.jobs[id].status == Queued
            && Scopes(s'.jobs[id].spec) == Scopes(SpecOf(cfg, q, None, now))
            && (forall k :: k in Scopes(s'.jobs[id].spec) ==>
                 && Get(s'.counters, k).pending == Get(s.counters, k).pending + 1 <= PendingLimit(cfg, k)
                 && Get(s'.counters, k).running == Get(s.counters, k).running)
            && (forall k :: k !in Scopes(s'.jobs[id].spec) ==> Get(s'.counters, k) == Get(s.counters, k))
  {
    assert GlobalScope == Scopes(SpecOf(cfg, q, None, now))[0];
  }

  // ---- passes, job by job ----

  ghost predicate Distinct(order: seq<nat>) {
    forall i, j :: 0 <= i < j < |order| ==> order[i] != order[j]
  }

  // What a pass makes of one job row.
  function PassRecord(cfg: Settings, pass: Pass, id: nat, r: Record, env: Env): Record {
    match Decide(cfg, pass, id, r, env)
    case None => r
    case Some(op) =>
      match ApplyRow(cfg, r, op, env.now)
      case Raised(_) => r
      case Ok(e) => e.record
  }

  predicate RowAllows(cfg: Settings, pass: Pass, id: nat, r: Record, env: Env) {
    Decide(cfg, pass, id, r, env).None? || ApplyRow(cfg, r, Decide(cfg, pass, id, r, env).value, env.now).Ok?
  }

  lemma PassOneTouches(cfg: Settings, s: State, pass: Pass, id: nat, env: Env)
    requires PassOne(cfg, s, pass, id, env).Ok?
    ensures var s' := PassOne(cfg, s, pass, id, env).value;
            && s'.jobs.Keys == s.jobs.Keys
            && (forall i :: i in s.jobs ==>
                 s'.jobs[i] == if i == id then PassRecord(cfg, pass, i, s.jobs[i], env) else s.jobs[i])
            && (id in s.jobs ==> RowAllows(cfg, pass, id, s.jobs[id], env))
  {
  }

  // Whatever order the rows come in, each is treated on its own; and a pass
  // that completes was allowed every change it decided on.
  lemma {:induction false} PassIsPointwise(cfg: Settings, s: State, pass: Pass, order: seq<nat>, env: Env)
    requires Distinct(order)
    requires RunPass(cfg, s, pass, order, env).Ok?
    ensures var s' := RunPass(cfg, s, pass, order, env).value;
            && s'.jobs.Keys == s.jobs.Keys
            && (forall id :: id in s.jobs ==>
                 s'.jobs[id] == if id in order then PassRecord(cfg, pass, id, s.jobs[id], env) else s.jobs[id])
            && (forall id :: id in s.jobs && id in order ==> RowAllows(cfg, pass, id, s.jobs[id], env))
    decreases |order|
  {
    if order != [] {
      var id, rest := order[0], order[1..];
      PassOneTouches(cfg, s, pass, id, env);
      PassIsPointwise(cfg, PassOne(cfg, s, pass, id, env).value, pass, rest, env);
      assert forall i :: i in order <==> i == id || i in rest;
      assert id !in rest;
    }
  }

  // A decided change that the row allows and that only gives capacity back.
  ghost predicate OnlyReleases(cfg: Settings, pass: Pass, id: nat, r: Record, env: Env) {
    Decide(cfg, pass, id, r, env).Some? ==>
      var e := ApplyRow(cfg, r, Decide(cfg, pass, id, r, env).value, env.now);
      e.Ok? && forall i :: 0 <= i < |e.value.moves| ==> e.value.moves[i] in {ReleasePending, ReleaseRunning}
  }

  lemma {:induction false} ReleasingSucceeds(cfg: Settings, c: Counters, scopes: seq<Scope>, moves: seq<Move>)
    requires forall i :: 0 <= i < |moves| ==> moves[i] in {ReleasePending, ReleaseRunning}
    ensures ApplyMoves(cfg, c, scopes, moves).Ok?
    decreases |moves|
  {
    if moves != [] {
      assert moves[0] in {ReleasePending, ReleaseRunning};
      ReleasingSucceeds(cfg, ApplyMove(cfg, c, scopes, moves[0]).value, scopes, moves[1..]);
    }
  }

  lemma ReleasingPassOne(cfg: Settings, s: State, pass: Pass, id: nat, env: Env)
    requires id in s.jobs ==> OnlyReleases(cfg, pass, id, s.jobs[id], env)
    ensures PassOne(cfg, s, pass, id, env).Ok?
  {
    if id in s.jobs && Decide(cfg, pass, id, s.jobs[id], env).Some? {
      var r := s.jobs[id];
      var e := ApplyRow(cfg, r, Decide(cfg, pass, id, r, env).value, env.now).value;
      ReleasingSucceeds(cfg, s.counters, Scopes(r.spec), e.moves);
    }
  }

  // Such a pass completes whatever the counters hold.
  lemma {:induction false} ReleasingPassCompletes(cfg: Settings, s: State, pass: Pass, order: seq<nat>, env: Env)
    requires Distinct(order)
    requires forall i :: 0 <= i < |order| && order[i] in s.jobs ==> OnlyReleases(cfg, pass, order[i], s.jobs[order[i]], env)
    ensures RunPass(cfg, s, pass, order, env).Ok?
    decreases |order|
  {
    if order != [] {
      var id, rest := order[0], order[1..];
      ReleasingPassOne(cfg, s, pass, id, env);
      PassOneTouches(cfg, s, pass, id, env);
      var s' := PassOne(cfg, s, pass, id, env).value;
      assert forall i :: 0 <= i < |rest| ==> rest[i] == order[i + 1];
      ReleasingPassCompletes(cfg, s', pass, rest, env);
    }
  }

  // ---- recovery ----

  // Every job past its deadline is expired: queued ones because the queue
  // expires at the deadline, held ones because no lease outlives it.
  lemma PastDeadlineIsExpired(r: Record, now: int)
    requires Sound(r) && r.deletedAt.None?
    requires !Terminal(r.status) && r.spec.deadlineAt.value <= now
    ensures Expired(r, now)
  {
  }

  lemma RecoveredStatus(cfg: Settings, id: nat, r: Record, env: Env)
    requires Sound(r) && Expired(r, env.now)
    ensures var op := RecoverOp(cfg, id, r, env);
            && ApplyRow(cfg, r, op, env.now).Ok?
            && var r' := ApplyRow(cfg, r, op, env.now).value.record;
               && (Terminal(r'.status) || (op.Requeue? && r'.status == RetryWait))
               && r'.spec == r.spec
  {
    CurrentAttempt(r);
    match RecoverOp(cfg, id, r, env)
    case CancelLeased(session, _) => FinalizeTouchesCostOnly(cfg, r, session);
    case Bury(_, session) => FinalizeTouchesCostOnly(cfg, r, session);
    case _ =>
  }

  lemma RecoveredRecord(cfg: Settings, id: nat, r: Record, env: Env)
    requires Sound(r) && Expired(r, env.now)
    ensures var r' := PassRecord(cfg, RecoverExpired, id, r, env);
            && !Expired(r', env.now)
            && (r.spec.deadlineAt.value <= env.now ==> Terminal(r'.status))
            && (Terminal(r'.status) || r'.status == RetryWait)
  {
    RecoveredStatus(cfg, id, r, env);
  }

  // One completed recovery pass over the expired jobs, in whatever order, leaves
  // every job at or past its deadline terminal and every other job alone; a
  // second pass at the same time finds nothing to do.
  lemma RecoveryFinishes(cfg: Settings, s: State, order: seq<nat>, env: Env, again: seq<nat>)
    requires Core(cfg, s) && Distinct(order)
    requires forall id :: id in order <==> id in s.jobs && Expired(s.jobs[id], env.now)
    requires RunPass(cfg, s, RecoverExpired, order, env).Ok?
    ensures var s' := RunPass(cfg, s, RecoverExpired, order, env).value;
            && s'.jobs.Keys == s.jobs.Keys
            && (forall id :: id in s.jobs && s.jobs[id].deletedAt.None? && s.jobs[id].spec.deadlineAt.value <= env.now ==>
                 Terminal(s'.jobs[id].status))
            && (forall id :: id in s.jobs && id !in order ==> s'.jobs[id] == s.jobs[id])
            && RunPass(cfg, s', RecoverExpired, again, env) == Ok(s')
  {
    var s' := RunPass(cfg, s, RecoverExpired, order, env).value;
    PassIsPointwise(cfg, s, RecoverExpired, order, env);
    forall id | id in s.jobs
      ensures !Expired(s'.jobs[id], env.now)
      ensures s.jobs[id].deletedAt.None? && s.jobs[id].spec.deadlineAt.value <= env.now ==> Terminal(s'.jobs[id].status)
    {
      assert Sound(s.jobs[id]);
      if id in order {
        RecoveredRecord(cfg, id, s.jobs[id], env);
      } else if s.jobs[id].deletedAt.None? && s.jobs[id].spec.deadlineAt.value <= env.now && !Terminal(s.jobs[id].status) {
        PastDeadlineIsExpired(s.jobs[id], env.now);
      }
    }
    NothingExpired(cfg, s', again, env);
  }

  lemma {:induction false} NothingExpired(cfg: Settings, s: State, order: seq<nat>, env: Env)
    requires forall id :: id in s.jobs ==> !Expired(s.jobs[id], env.now)
    ensures RunPass(cfg, s, RecoverExpired, order, env) == Ok(s)
    decreases |order|
  {
    if order != [] {
      NothingExpired(cfg, s, order[1..], env);
    }
  }

  lemma RecoverOnlyReleases(cfg: Settings, id: nat, r: Record, env: Env)
    requires Sound(r) && (Expired(r, env.now) ==> !RecoverOp(cfg, id, r, env).Requeue?)
    ensures OnlyReleases(cfg, RecoverExpired, id, r, env)
  {
    var op := RecoverOp(cfg, id, r, env);
    if op.CancelLeased? || op.Bury? {
      FinalizeTouchesCostOnly(cfg, r, op.session);
    }
  }

  // A recovery pass that sends no job back to the queue cannot be refused,
  // whatever the counters hold; one over jobs past their deadline, for a start.
  lemma RecoveryCompletes(cfg: Settings, s: State, order: seq<nat>, env: Env)
    requires AllSound(s) && Distinct(order)
    requires forall i :: 0 <= i < |order| && order[i] in s.jobs ==>
               !Expired(s.jobs[order[i]], env.now) || s.jobs[order[i]].spec.deadlineAt.value <= env.now
    ensures RunPass(cfg, s, RecoverExpired, order, env).Ok?
  {
    forall i | 0 <= i < |order| && order[i] in s.jobs
      ensures OnlyReleases(cfg, RecoverExpired, order[i], s.jobs[order[i]], env)
    {
      PastDeadlineOnlyReleases(cfg, order[i], s.jobs[order[i]], env);
    }
    ReleasingPassCompletes(cfg, s, RecoverExpired, order, env);
  }

  lemma PastDeadlineOnlyReleases(cfg: Settings, id: nat, r: Record, env: Env)
    requires Sound(r) && (Expired(r, env.now) ==> r.spec.deadlineAt.value <= env.now)
    ensures OnlyReleases(cfg, RecoverExpired, id, r, env)
  {
    RecoverOnlyReleases(cfg, id, r, env);
  }

  // ---- disposal of an account ----

  predicate AwaitsAcknowledgement(r: Record) {
    r.deletedAt.None? && r.status == CancelRequested
  }

  lemma DisposeRow(cfg: Settings, id: nat, r: Record, env: Env)
    requires Sound(r)
    ensures RowAllows(cfg, DisposeAccount, id, r, env) <==> !AwaitsAcknowledgement(r)
    ensures OnlyReleases(cfg, DisposeAccount, id, r, env) <==> !AwaitsAcknowledgement(r)
  {
  }

  // Deleting an account succeeds exactly when none of its jobs waits for a
  // worker to acknowledge a cancellation; the transition table has no way from
  // there to "failed". Refused, it changes nothing.
  lemma DisposalSucceedsIff(cfg: Settings, s: State, order: seq<nat>, env: Env)
    requires AllSound(s) && Distinct(order)
    requires forall i :: 0 <= i < |order| ==> order[i] in s.jobs
    ensures var outcome := WholePass(cfg, s, DisposeAccount, order, env);
            && (outcome.reply == Done <==> forall i :: 0 <= i < |order| ==> !AwaitsAcknowledgement(s.jobs[order[i]]))
            && (outcome.reply != Done ==> outcome.state == s)
  {
    if k :| 0 <= k < |order| && AwaitsAcknowledgement(s.jobs[order[k]]) {
      DisposalFails(cfg, s, order, k, env);
    } else {
      DisposalCompletes(cfg, s, order, env);
    }
  }

  lemma DisposalCompletes(cfg: Settings, s: State, order: seq<nat>, env: Env)
    requires AllSound(s) && Distinct(order)
    requires forall i :: 0 <= i < |order| && order[i] in s.jobs ==> !AwaitsAcknowledgement(s.jobs[order[i]])
    ensures RunPass(cfg, s, DisposeAccount, order, env).Ok?
  {
    forall i | 0 <= i < |order| && order[i] in s.jobs
      ensures OnlyReleases(cfg, DisposeAccount, order[i], s.jobs[order[i]], env)
    {
      DisposeRow(cfg, order[i], s.jobs[order[i]], env);
    }
    ReleasingPassCompletes(cfg, s, DisposeAccount, order, env);
  }

  // A waiting job anywhere in the account stops the whole pass.
  lemma DisposalFails(cfg: Settings, s: State, order: seq<nat>, k: nat, env: Env)
    requires AllSound(s) && Distinct(order)
    requires k < |order| && order[k] in s.jobs && AwaitsAcknowledgement(s.jobs[order[k]])
    ensures RunPass(cfg, s, DisposeAccount, order, env).Raised?
  {
    if RunPass(cfg, s, DisposeAccount, order, env).Ok? {
      PassIsPointwise(cfg, s, DisposeAccount, order, env);
      DisposeRow(cfg, order[k], s.jobs[order[k]], env);
    }
  }

  // ---- a change of authorization ----

  lemma RevokeRow(cfg: Settings, id: nat, r: Record, env: Env)
    requires Sound(r)
    ensures OnlyReleases(cfg, RevokeAuthorization, id, r, env)
    ensures var r' := PassRecord(cfg, RevokeAuthorization, id, r, env);
            r.deletedAt.None? ==> Terminal(r'.status) || r'.status == CancelRequested
    ensures Terminal(r.status) ==> PassRecord(cfg, RevokeAuthorization, id, r, env) == r
  {
  }

  // Revoking an authorization is never refused, and leaves none of the jobs it
  // concerns where a worker could start or go on with it; finished jobs are not
  // touched.
  lemma RevocationStopsJobs(cfg: Settings, s: State, order: seq<nat>, env: Env)
    requires AllSound(s) && Distinct(order)
    ensures var outcome := WholePass(cfg, s, RevokeAuthorization, order, env);
            && outcome.reply == Done
            && outcome.state.jobs.Keys == s.jobs.Keys
            && (forall id :: id in order && id in s.jobs && s.jobs[id].deletedAt.None? ==>
                 Terminal(outcome.state.jobs[id].status) || outcome.state.jobs[id].status == CancelRequested)
            && (forall id :: id in s.jobs && (id !in order || Terminal(s.jobs[id].status)) ==>
                 outcome.state.jobs[id] == s.jobs[id])
  {
    forall i | 0 <= i < |order| && order[i] in s.jobs
      ensures OnlyReleases(cfg, RevokeAuthorization, order[i], s.jobs[order[i]], env)
    {
      RevokeRow(cfg, order[i], s.jobs[order[i]], env);
    }
    ReleasingPassCompletes(cfg, s, RevokeAuthorization, order, env);
    PassIsPointwise(cfg, s, RevokeAuthorization, order, env);
    forall id | id in s.jobs
      ensures var r' := PassRecord(cfg, RevokeAuthorization, id, s.jobs[id], env);
              (s.jobs[id].deletedAt.None? ==> Terminal(r'.status) || r'.status == CancelRequested)
              && (Terminal(s.jobs[id].status) ==> r' == s.jobs[id])
    {
      RevokeRow(cfg, id, s.jobs[id], env);
    }
  }

  // ---- how long a worker may hold a job ----

  // However often a worker sends a heartbeat, its lease never outlives the
  // horizon fixed when the job was claimed.
  lemma LeaseStaysWithinHorizon(cfg: Settings, s: State, steps: seq<Step>, id: nat)
    requires ValidSettings(cfg) && Core(cfg, s) && IsRun(cfg, s, steps)
    requires id in s.jobs && Held(s.jobs[id].status)
    ensures var r, later := s.jobs[id], After(cfg, s, steps);
            && id in later.jobs
            && (later.jobs[id].leaseGeneration == r.leaseGeneration && later.jobs[id].leaseExpiresAt.Some? ==>
                 && r.attempts[|r.attempts| - 1].maxLeaseExpiresAt.Some?
                 && later.jobs[id].leaseExpiresAt.value <= r.attempts[|r.attempts| - 1].maxLeaseExpiresAt.value)
  {
    RunsKeepCore(cfg, s, steps);
    var r' := After(cfg, s, steps).jobs[id];
    if r'.leaseGeneration == s.jobs[id].leaseGeneration && r'.leaseExpiresAt.Some? {
      SameAttemptSameHorizon(s.jobs[id], r');
    }
  }

  lemma SameAttemptSameHorizon(r: Record, r': Record)
    requires Sound(r) && Sound(r') && Advances(r, r') && Held(r.status)
    requires r'.leaseGeneration == r.leaseGeneration && r'.leaseExpiresAt.Some?
    ensures r.attempts[|r.attempts| - 1].maxLeaseExpiresAt.Some?
    ensures r'.leaseExpiresAt.value <= r.attempts[|r.attempts| - 1].maxLeaseExpiresAt.value
  {
    assert AttemptAdvances(r.attempts[|r.attempts| - 1], r'.attempts[|r.attempts| - 1]);
  }
}
