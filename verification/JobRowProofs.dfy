// What every change to one job keeps.

module JobRowProofs {
  import opened Outcomes
  import opened JobRegistry
  import opened JobStatusMachine
  import opened JobRows

  // ---- the shape of a reachable job ----

  ghost predicate Fresh(r: Record) {
    r.spec.deadlineAt.Some? && r.spec.queueExpiresAt == r.spec.deadlineAt && r.spec.maxAttempts >= 1
  }

  // One attempt row per generation 1..n, in order; only the current one can be open.
  ghost predicate AttemptShape(r: Record) {
    && r.leaseGeneration == r.attemptCount == |r.attempts|
    && (forall i :: 0 <= i < |r.attempts| ==> r.attempts[i].generation == i + 1 && r.attempts[i].number == i + 1)
    && (forall i :: 0 <= i < |r.attempts| ==>
         (r.attempts[i].endedAt.None? <==> Held(r.status) && i == |r.attempts| - 1))
    && (Held(r.status) && |r.attempts| > 0 ==> r.attempts[|r.attempts| - 1].outcome in {AttemptLeased, AttemptRunning})
  }

  // A lease is held iff the status says so, by the worker of the open attempt,
  // and never beyond that attempt's horizon or the job's deadline.
  ghost predicate LeaseShape(r: Record) {
    && (Held(r.status) <==> r.leasedBy.Some?)
    && (Held(r.status) <==> r.tokenHash.Some?)
    && (Held(r.status) <==> r.leaseExpiresAt.Some?)
    && (Held(r.status) ==>
         && |r.attempts| > 0
         && r.spec.deadlineAt.Some?
         && var last := r.attempts[|r.attempts| - 1];
            && last.worker == r.leasedBy.value
            && last.maxLeaseExpiresAt.Some?
            && r.leaseExpiresAt.value <= last.maxLeaseExpiresAt.value <= r.spec.deadlineAt.value)
  }

  // The log is numbered 1..n and walks the transition table to the status.
  ghost predicate LogShape(r: Record) {
    Numbered(r.events) && Replay(r.events) == Some(r.status)
  }

  function Releases(attempts: seq<Attempt>): nat {
    if attempts == [] then 0
    else Releases(attempts[..|attempts| - 1]) + if attempts[|attempts| - 1].outcome == AttemptReleased then 1 else 0
  }

  // How far a status may run ahead of three moves per attempt.
  function Slack(s: Status): int {
    match s
    case Leased => -2
    case Running => -1
    case Queued => 0
    case RetryWait => 0
    case CancelRequested => 1
    case _ => 2
  }

  // Attempts are bounded by the retry limit and the voluntary releases, and
  // status changes by the attempts.
  ghost predicate Bounded(r: Record) {
    && r.attemptCount + (if Pending(r.status) then 1 else 0) <= r.spec.maxAttempts + Releases(r.attempts)
    && Moves(r.events) <= 3 * r.attemptCount + Slack(r.status)
  }

  // From the retry limit on, an attempt was given up voluntarily if the job waits
  // or has been tried again after it.
  ghost predicate LimitShape(r: Record) {
    forall i :: 0 <= i < |r.attempts| && r.spec.maxAttempts <= i + 1 && (i + 1 < |r.attempts| || Pending(r.status)) ==>
      r.attempts[i].outcome == AttemptReleased
  }

  // A result exists iff the job completed, and is the current generation's.
  ghost predicate ResultShape(r: Record) {
    && (r.result.Some? <==> r.status == Completed)
    && (r.completedAt.Some? <==> r.status == Completed)
    && (r.failedAt.Some? <==> r.status in {Failed, DeadLetter})
    && (r.deletedAt.Some? ==> Terminal(r.status))
    && (r.result.Some? ==>
         && |r.attempts| > 0
         && r.result.value.generation == r.leaseGeneration
         && r.result.value.worker == r.attempts[|r.attempts| - 1].worker)
  }

  // The cost row agrees with the job row.
  ghost predicate CostShape(r: Record) {
    && (r.cost.Some? <==> r.spec.jobType == VastSessionStart)
    && (r.cost.None? ==> r.reservedCost == 0)
    && (r.status != Completed ==> r.cost.Some? ==> r.cost.value.reserved == r.reservedCost)
    && r.reservedCost <= r.spec.estimatedCost
    && (!Terminal(r.status) ==>
         && r.actualCost == 0
         && r.reservedCost == r.spec.estimatedCost
         && (r.cost.Some? ==> r.cost.value.actual == 0 && r.cost.value.status !in {CostCompleted, CostReleased}))
  }

  ghost predicate Sound(r: Record) {
    && Fresh(r) && AttemptShape(r) && LeaseShape(r) && LogShape(r) && Bounded(r) && LimitShape(r)
    && ResultShape(r) && CostShape(r)
  }

  // ---- pieces ----

  lemma {:induction false} CurrentAttempt(r: Record)
    requires AttemptShape(r)
    ensures AttemptIndex(r.attempts, r.leaseGeneration) ==
            if r.attempts == [] then None else Some(|r.attempts| - 1)
  {
  }

  lemma {:induction false} ReleasesOfUpdate(attempts: seq<Attempt>, last: Attempt)
    requires |attempts| > 0
    requires attempts[|attempts| - 1].outcome != AttemptReleased
    ensures Releases(attempts[|attempts| - 1 := last]) ==
            Releases(attempts) + if last.outcome == AttemptReleased then 1 else 0
  {
    var updated := attempts[|attempts| - 1 := last];
    assert updated[..|updated| - 1] == attempts[..|attempts| - 1];
  }

  lemma {:induction false} ReleasesOfAppend(attempts: seq<Attempt>, last: Attempt)
    ensures Releases(attempts + [last]) == Releases(attempts) + if last.outcome == AttemptReleased then 1 else 0
  {
    var longer := attempts + [last];
    assert longer[..|longer| - 1] == attempts;
  }

  lemma TransitionKeepsLog(r: Record, target: Status, now: int)
    requires LogShape(r)
    requires Transition(r, target, now).Ok?
    ensures LogShape(Transition(r, target, now).value)
    ensures Moves(Transition(r, target, now).value.events) == Moves(r.events) + 1
  {
    AppendKeepsNumbering(r.events, Moved(r.status, target));
    AppendReplays(r.events, Moved(r.status, target));
  }

  // ---- what a change may do to the attempts ----

  // A claim appends the next attempt, open.
  lemma AttemptsAfterClaim(r: Record, r': Record, a: Attempt)
    requires AttemptShape(r) && !Held(r.status) && Held(r'.status)
    requires r'.attempts == r.attempts + [a] && r'.leaseGeneration == r'.attemptCount == r.attemptCount + 1
    requires a.generation == a.number == r.attemptCount + 1 && a.endedAt.None? && a.outcome == AttemptLeased
    ensures AttemptShape(r') && Releases(r'.attempts) == Releases(r.attempts)
    ensures Pending(r.status) && LimitShape(r) && r'.spec == r.spec ==> LimitShape(r')
  {
    ReleasesOfAppend(r.attempts, a);
  }

  // Closing the open attempt with any outcome.
  lemma EndAttemptCloses(r: Record, outcome: AttemptOutcome, now: int)
    requires AttemptShape(r) && Held(r.status) && |r.attempts| > 0
    ensures var ended := EndAttempt(r, outcome, now);
            && |ended| == |r.attempts|
            && (forall i :: 0 <= i < |ended| - 1 ==> ended[i] == r.attempts[i])
            && ended[|ended| - 1] == r.attempts[|ended| - 1].(outcome := outcome, endedAt := Some(now))
            && Releases(ended) == Releases(r.attempts) + if outcome == AttemptReleased then 1 else 0
  {
    CurrentAttempt(r);
    ReleasesOfUpdate(r.attempts, r.attempts[|r.attempts| - 1].(outcome := outcome, endedAt := Some(now)));
  }

  lemma AttemptsAfterEnd(r: Record, r': Record, outcome: AttemptOutcome, now: int)
    requires AttemptShape(r) && Held(r.status) && |r.attempts| > 0 && !Held(r'.status)
    requires r'.attempts == EndAttempt(r, outcome, now)
    requires r'.leaseGeneration == r.leaseGeneration && r'.attemptCount == r.attemptCount
    ensures AttemptShape(r')
    ensures Releases(r'.attempts) == Releases(r.attempts) + if outcome == AttemptReleased then 1 else 0
    ensures r'.attempts[|r.attempts| - 1].worker == r.attempts[|r.attempts| - 1].worker
    ensures (LimitShape(r) && r'.spec == r.spec
             && (Pending(r'.status) ==> outcome == AttemptReleased || r.attemptCount < r.spec.maxAttempts))
            ==> LimitShape(r')
  {
    EndAttemptCloses(r, outcome, now);
  }

  // The open attempt is marked running.
  lemma AttemptsAfterStart(r: Record, r': Record, now: int)
    requires AttemptShape(r) && Held(r.status) && Held(r'.status) && |r.attempts| > 0
    requires r'.leaseGeneration == r.leaseGeneration && r'.attemptCount == r.attemptCount
    requires r'.attempts == r.attempts[|r.attempts| - 1 := r.attempts[|r.attempts| - 1].(startedAt := Some(now), outcome := AttemptRunning)]
    ensures AttemptShape(r') && Releases(r'.attempts) == Releases(r.attempts)
    ensures LimitShape(r) && r'.spec == r.spec ==> LimitShape(r')
  {
    ReleasesOfUpdate(r.attempts, r'.attempts[|r.attempts| - 1]);
  }

  // ---- every change keeps a job sound ----

  lemma LeaseKeepsSound(cfg: Settings, r: Record, worker: string, token: nat, now: int)
    requires Sound(r)
    requires LeaseRow(cfg, r, worker, token, now).Ok?
    ensures Sound(LeaseRow(cfg, r, worker, token, now).value.record)
  {
    var r' := LeaseRow(cfg, r, worker, token, now).value.record;
    var a := Attempt(r.attemptCount + 1, r.attemptCount + 1, worker, None, Some(AttemptHorizon(cfg, r, now)), AttemptLeased, None);
    assert r'.attempts == r.attempts + [a];
    AttemptsAfterClaim(r, r', a);
    TransitionKeepsLog(r, Leased, now);
    assert LeaseShape(r');
  }

  lemma StartKeepsSound(r: Record, now: int)
    requires Sound(r)
    requires StartRow(r, now).Ok?
    ensures Sound(StartRow(r, now).value.record)
  {
    CurrentAttempt(r);
    AttemptsAfterStart(r, StartRow(r, now).value.record, now);
    TransitionKeepsLog(r, Running, now);
  }

  lemma BeatKeepsSound(cfg: Settings, r: Record, now: int)
    requires Sound(r)
    ensures HeartbeatRow(cfg, r, now).Ok? ==> Sound(HeartbeatRow(cfg, r, now).value.record)
    ensures ProgressRow(r).Ok? ==> Sound(ProgressRow(r).value.record)
  {
    CurrentAttempt(r);
    AppendKeepsNumbering(r.events, HeartbeatSeen);
    AppendReplays(r.events, HeartbeatSeen);
    AppendKeepsNumbering(r.events, ProgressSeen);
    AppendReplays(r.events, ProgressSeen);
  }

  lemma CompleteKeepsSound(cfg: Settings, r: Record, payload: string, session: Session, now: int)
    requires Sound(r)
    requires CompleteRow(cfg, r, payload, session, now).Ok?
    ensures Sound(CompleteRow(cfg, r, payload, session, now).value.record)
  {
    AttemptsAfterEnd(r, CompleteRow(cfg, r, payload, session, now).value.record, AttemptCompleted, now);
    TransitionKeepsLog(r, Completed, now);
  }

  // A pending job gives up: it was held by nobody, and its attempts stay.
  lemma GivingUpKeepsSound(r: Record, r': Record)
    requires Sound(r) && Pending(r.status) && r'.status in {Failed, Cancelled}
    requires r'.spec == r.spec && r'.attempts == r.attempts
    requires r'.attemptCount == r.attemptCount && r'.leaseGeneration == r.leaseGeneration
    requires r'.leasedBy == r.leasedBy && r'.tokenHash == r.tokenHash && r'.leaseExpiresAt == r.leaseExpiresAt
    requires LogShape(r') && Moves(r'.events) <= Moves(r.events) + 2
    requires ResultShape(r') && CostShape(r')
    ensures Sound(r')
  {
  }

  lemma FailPendingKeepsSound(r: Record, delete: bool, now: int)
    requires Sound(r)
    requires FailPendingRow(r, delete, now).Ok?
    requires Fits(r, FailPending(delete))
    ensures Sound(FailPendingRow(r, delete, now).value.record)
  {
    TransitionKeepsLog(r, Failed, now);
    var r' := FailPendingRow(r, delete, now).value.record;
    assert CostShape(r') && ResultShape(r');
    GivingUpKeepsSound(r, r');
  }

  lemma RequestCancelKeepsSound(r: Record, now: int)
    requires Sound(r)
    requires RequestCancelRow(r, now).Ok?
    requires Fits(r, RequestCancel)
    ensures Sound(RequestCancelRow(r, now).value.record)
  {
    TransitionKeepsLog(r, CancelRequested, now);
  }

  lemma CancelPendingKeepsSound(r: Record, now: int)
    requires Sound(r)
    requires CancelPendingRow(r, now).Ok?
    requires Fits(r, CancelPending)
    ensures Sound(CancelPendingRow(r, now).value.record)
  {
    TransitionKeepsLog(r, CancelRequested, now);
    TransitionKeepsLog(Transition(r, CancelRequested, now).value, Cancelled, now);
    var r' := CancelPendingRow(r, now).value.record;
    assert CostShape(r') && ResultShape(r');
    GivingUpKeepsSound(r, r');
  }

  // Settling the cost changes no column but the cost ones.
  lemma FinalizeTouchesCostOnly(cfg: Settings, r: Record, session: Session)
    ensures var s := FinalizeCost(cfg, r, session).record;
            s == r.(reservedCost := s.reservedCost, actualCost := s.actualCost, cost := s.cost)
  {
  }

  lemma FinalizeKeepsCostShape(cfg: Settings, r: Record, session: Session)
    requires CostShape(r) && !Terminal(r.status)
    ensures var s := FinalizeCost(cfg, r, session).record;
            && (s.cost.Some? <==> r.cost.Some?)
            && (s.cost.None? ==> s.reservedCost == 0)
            && (s.cost.Some? ==> s.cost.value.reserved == s.reservedCost)
            && s.reservedCost <= r.spec.estimatedCost
  {
  }

  lemma CancelLeasedKeepsSound(cfg: Settings, r: Record, session: Session, now: int)
    requires Sound(r)
    requires CancelLeasedRow(cfg, r, session, true, now).Ok?
    ensures Sound(CancelLeasedRow(cfg, r, session, true, now).value.record)
  {
    var settled := FinalizeCost(cfg, r, session).record;
    FinalizeTouchesCostOnly(cfg, r, session);
    FinalizeKeepsCostShape(cfg, r, session);
    AttemptsAfterEnd(r, CancelLeasedRow(cfg, r, session, true, now).value.record, AttemptCancelled, now);
    TransitionKeepsLog(settled, Cancelled, now);
  }

  lemma BuryKeepsSound(cfg: Settings, r: Record, outcome: AttemptOutcome, session: Session, now: int)
    requires Sound(r)
    requires BuryRow(cfg, r, outcome, session, now).Ok?
    requires Fits(r, Bury(outcome, session))
    ensures Sound(BuryRow(cfg, r, outcome, session, now).value.record)
  {
    var settled := FinalizeCost(cfg, r, session).record;
    FinalizeTouchesCostOnly(cfg, r, session);
    FinalizeKeepsCostShape(cfg, r, session);
    AttemptsAfterEnd(r, BuryRow(cfg, r, outcome, session, now).value.record, outcome, now);
    TransitionKeepsLog(settled, DeadLetter, now);
  }

  lemma RequeueKeepsSound(r: Record, outcome: AttemptOutcome, uncertain: bool, delay: nat, now: int)
    requires Sound(r)
    requires RequeueRow(r, outcome, uncertain, delay, now).Ok?
    requires Fits(r, Requeue(outcome, uncertain, delay))
    ensures Sound(RequeueRow(r, outcome, uncertain, delay, now).value.record)
  {
    AttemptsAfterEnd(r, RequeueRow(r, outcome, uncertain, delay, now).value.record, outcome, now);
    TransitionKeepsLog(r, RetryWait, now);
  }

  // Every change a request makes to a job leaves it sound.
  lemma ApplyKeepsSound(cfg: Settings, r: Record, op: RowOp, now: int)
    requires Sound(r)
    requires Fits(r, op)
    requires ApplyRow(cfg, r, op, now).Ok?
    ensures Sound(ApplyRow(cfg, r, op, now).value.record)
  {
    match op
    case Lease(worker, token) => LeaseKeepsSound(cfg, r, worker, token, now);
    case Start => StartKeepsSound(r, now);
    case Heartbeat => BeatKeepsSound(cfg, r, now);
    case Progress => BeatKeepsSound(cfg, r, now);
    case Complete(payload, session) => CompleteKeepsSound(cfg, r, payload, session, now);
    case FailPending(delete) => FailPendingKeepsSound(r, delete, now);
    case RequestCancel => RequestCancelKeepsSound(r, now);
    case CancelLeased(session, hasAttempt) => CancelLeasedKeepsSound(cfg, r, session, now);
    case Bury(outcome, session) => BuryKeepsSound(cfg, r, outcome, session, now);
    case Requeue(outcome, uncertain, delay) => RequeueKeepsSound(r, outcome, uncertain, delay, now);
    case CancelPending => CancelPendingKeepsSound(r, now);
    case MarkDeleted =>
  }

  lemma NewIsSound(spec: JobSpec)
    requires spec.deadlineAt.Some? && spec.queueExpiresAt == spec.deadlineAt && spec.maxAttempts >= 1
    requires spec.jobType != VastSessionStart ==> spec.estimatedCost == 0
    ensures Sound(NewRecord(spec))
  {
    AppendKeepsNumbering([], Accepted);
    AppendReplays([], Accepted);
    assert Append([], Accepted) == [Event(1, Accepted)];
  }

  // ---- history ----

  // What no later change can take back: the log and the closed attempts only
  // grow, generations only rise, an ended lease stays ended, a lease keeps its
  // worker and token, and a terminal job changes in nothing but its tombstone.
  ghost predicate Advances(r: Record, r': Record) {
    && r'.spec == r.spec
    && r.events <= r'.events
    && r.leaseGeneration <= r'.leaseGeneration
    && (r.leaseGeneration == r'.leaseGeneration && r.leasedBy.None? ==> r'.leasedBy.None?)
    && (r.leaseGeneration == r'.leaseGeneration && r.leasedBy.Some? && r'.leasedBy.Some? ==>
         r'.leasedBy == r.leasedBy && r'.tokenHash == r.tokenHash)
    && (Terminal(r.status) ==> r' == r.(deletedAt := r'.deletedAt))
    && |r.attempts| <= |r'.attempts|
    && (forall i :: 0 <= i < |r.attempts| ==> AttemptAdvances(r.attempts[i], r'.attempts[i]))
  }

  ghost predicate AttemptAdvances(a: Attempt, a': Attempt) {
    && a'.generation == a.generation && a'.number == a.number && a'.worker == a.worker
    && a'.maxLeaseExpiresAt == a.maxLeaseExpiresAt
    && (a.endedAt.Some? ==> a' == a)
  }

  lemma AdvancesTransitively(r0: Record, r1: Record, r2: Record)
    requires Advances(r0, r1) && Advances(r1, r2)
    ensures Advances(r0, r2)
  {
    forall i | 0 <= i < |r0.attempts|
      ensures AttemptAdvances(r0.attempts[i], r2.attempts[i])
    {
      assert AttemptAdvances(r1.attempts[i], r2.attempts[i]);
    }
  }

  // A lease ends: the open attempt is closed and the lease columns cleared.
  lemma EndingAdvances(r: Record, r': Record, outcome: AttemptOutcome, now: int)
    requires AttemptShape(r) && Held(r.status) && |r.attempts| > 0
    requires r'.spec == r.spec && r.events <= r'.events && r'.leaseGeneration == r.leaseGeneration
    requires r'.leasedBy.None? && r'.attempts == EndAttempt(r, outcome, now)
    ensures Advances(r, r')
  {
    EndAttemptCloses(r, outcome, now);
  }

  lemma LeaseAdvances(cfg: Settings, r: Record, worker: string, token: nat, now: int)
    requires LeaseRow(cfg, r, worker, token, now).Ok?
    ensures Advances(r, LeaseRow(cfg, r, worker, token, now).value.record)
  {
    assert forall i :: 0 <= i < |r.attempts| ==> AttemptAdvances(r.attempts[i], r.attempts[i]);
  }

  lemma StartAdvances(r: Record, now: int)
    requires Sound(r)
    requires StartRow(r, now).Ok?
    ensures Advances(r, StartRow(r, now).value.record)
  {
    CurrentAttempt(r);
  }

  // The changes that leave the attempts alone.
  lemma OtherAdvances(r: Record, r': Record)
    requires r'.spec == r.spec && r.events <= r'.events && r'.leaseGeneration == r.leaseGeneration
    requires r'.leasedBy == r.leasedBy && r'.tokenHash == r.tokenHash && r'.attempts == r.attempts
    requires Terminal(r.status) ==> r' == r.(deletedAt := r'.deletedAt)
    ensures Advances(r, r')
  {
  }

  lemma LeavingAdvances(cfg: Settings, r: Record, op: RowOp, now: int)
    requires Sound(r) && Fits(r, op)
    requires op.Complete? || op.CancelLeased? || op.Bury? || op.Requeue?
    requires ApplyRow(cfg, r, op, now).Ok?
    ensures Advances(r, ApplyRow(cfg, r, op, now).value.record)
  {
    var r' := ApplyRow(cfg, r, op, now).value.record;
    match op
    case Complete(_, _) => EndingAdvances(r, r', AttemptCompleted, now);
    case CancelLeased(session, _) =>
      FinalizeTouchesCostOnly(cfg, r, session);
      EndingAdvances(r, r', AttemptCancelled, now);
    case Bury(outcome, session) =>
      FinalizeTouchesCostOnly(cfg, r, session);
      EndingAdvances(r, r', outcome, now);
    case Requeue(outcome, _, _) => EndingAdvances(r, r', outcome, now);
  }

  lemma ApplyAdvances(cfg: Settings, r: Record, op: RowOp, now: int)
    requires Sound(r)
    requires Fits(r, op)
    requires ApplyRow(cfg, r, op, now).Ok?
    ensures Advances(r, ApplyRow(cfg, r, op, now).value.record)
  {
    match op
    case Lease(worker, token) => LeaseAdvances(cfg, r, worker, token, now);
    case Start => StartAdvances(r, now);
    case Complete(_, _) => LeavingAdvances(cfg, r, op, now);
    case CancelLeased(_, _) => LeavingAdvances(cfg, r, op, now);
    case Bury(_, _) => LeavingAdvances(cfg, r, op, now);
    case Requeue(_, _, _) => LeavingAdvances(cfg, r, op, now);
    case _ => OtherAdvances(r, ApplyRow(cfg, r, op, now).value.record);
  }

  // ---- capacity ----

  // The capacity slot a job occupies in each of its scopes.
  datatype Slot = PendingSlot | RunningSlot | NoSlot

  function SlotOf(s: Status): Slot {
    if Pending(s) then PendingSlot else if Held(s) then RunningSlot else NoSlot
  }

  // The counter moves that carry a job from one slot to another.
  function SlotMoves(from: Slot, to: Slot): seq<Move> {
    match (from, to)
    case (PendingSlot, RunningSlot) => [ToRunning]
    case (RunningSlot, PendingSlot) => [ToPending]
    case (PendingSlot, NoSlot) => [ReleasePending]
    case (RunningSlot, NoSlot) => [ReleaseRunning]
    case _ => []
  }

  // True when settling the job's cost also gives back a pending slot, although
  // a job settled there holds a running one.
  predicate SettlesAsPending(r: Record, op: RowOp) {
    && (op.CancelLeased? || op.Bury?)
    && r.spec.jobType == VastSessionStart
    && r.cost.Some? && r.cost.value.status != CostCompleted
    && var session := op.session;
       !session.found || session.requestState in {NoRequestState, RequestNotSubmitted}
  }

  // Every change moves the counters exactly as its status change asks, except
  // that settling an unsubmitted provider session gives back one slot too many.
  lemma SettlingMoves(cfg: Settings, r: Record, session: Session)
    ensures FinalizeCost(cfg, r, session).releasesPending <==> SettlesAsPending(r, CancelLeased(session, true))
    ensures FinalizeCost(cfg, r, session).releasesPending <==> SettlesAsPending(r, Bury(AttemptDeadLetter, session))
  {
  }

  lemma EndingMoves(cfg: Settings, r: Record, op: RowOp, now: int)
    requires Held(r.status) && (op.CancelLeased? || op.Bury?)
    requires ApplyRow(cfg, r, op, now).Ok?
    ensures var e := ApplyRow(cfg, r, op, now).value;
            && SlotOf(e.record.status) == NoSlot
            && e.moves == (if SettlesAsPending(r, op) then [ReleasePending] else []) + [ReleaseRunning]
  {
    SettlingMoves(cfg, r, op.session);
  }

  lemma MovesFollowStatus(cfg: Settings, r: Record, op: RowOp, now: int)
    requires Fits(r, op)
    requires ApplyRow(cfg, r, op, now).Ok?
    ensures var e := ApplyRow(cfg, r, op, now).value;
            e.moves == (if SettlesAsPending(r, op) then [ReleasePending] else []) +
                       SlotMoves(SlotOf(r.status), SlotOf(e.record.status))
  {
    if op.CancelLeased? || op.Bury? {
      EndingMoves(cfg, r, op, now);
    } else {
      PlainMoves(cfg, r, op, now);
    }
  }

  lemma PlainMoves(cfg: Settings, r: Record, op: RowOp, now: int)
    requires Fits(r, op) && !op.CancelLeased? && !op.Bury?
    requires ApplyRow(cfg, r, op, now).Ok?
    ensures var e := ApplyRow(cfg, r, op, now).value;
            e.moves == SlotMoves(SlotOf(r.status), SlotOf(e.record.status))
  {
    assert op.Lease? || op.FailPending? ==> Pending(r.status);
  }

  // ---- provider cost ----

  function RefundAmount(refund: Refund): nat {
    match refund
    case NoRefund => 0
    case IfPeriodIsToday(amount) => amount
    case Always(amount) => amount
  }

  // Within the job's day, what a change refunds is what its contribution drops
  // by. Completion refunds nothing and may only lower it.
  ghost predicate RefundMatches(r: Record, e: Effect, day: int, exactly: bool) {
    && (e.record.cost.Some? ==> e.record.cost.value.period == day)
    && Contribution(e.record, day) + RefundAmount(e.refund) <= Contribution(r, day)
    && (exactly ==> Contribution(e.record, day) + RefundAmount(e.refund) == Contribution(r, day))
  }

  lemma SettlingRefund(cfg: Settings, r: Record, session: Session, day: int)
    requires CostShape(r) && !Terminal(r.status)
    requires r.cost.Some? ==> r.cost.value.period == day
    ensures var s := FinalizeCost(cfg, r, session); RefundMatches(r, Effect(s.record, [], s.refund), day, true)
  {
  }

  // A cost row released before any session started gives back all it held.
  lemma ReleasingRefund(r: Record, day: int)
    requires CostShape(r) && !Terminal(r.status)
    requires r.cost.Some? ==> r.cost.value.period == day
    ensures var (released, refund) := ReleaseCost(r);
            && (released.cost.Some? ==> released.cost.value.period == day)
            && Contribution(released, day) + RefundAmount(refund) == Contribution(r, day)
  {
  }

  // The columns no refund and no contribution looks at.
  predicate SameMoney(r: Record, r': Record) {
    r'.cost == r.cost && r'.reservedCost == r.reservedCost
  }

  lemma SameMoneyReleases(r: Record, r': Record)
    requires SameMoney(r, r')
    ensures ReleaseCost(r).0.cost == ReleaseCost(r').0.cost && ReleaseCost(r).1 == ReleaseCost(r').1
  {
  }

  lemma GivingUpRefund(cfg: Settings, r: Record, op: RowOp, now: int, day: int)
    requires CostShape(r) && (op.FailPending? || op.CancelPending?)
    requires ApplyRow(cfg, r, op, now).Ok?
    requires r.cost.Some? ==> r.cost.value.period == day
    ensures RefundMatches(r, ApplyRow(cfg, r, op, now).value, day, true)
  {
    ReleasingRefund(r, day);
    if op.CancelPending? {
      var requested := if r.status == CancelRequested then r else Transition(r, CancelRequested, now).value;
      SameMoneyReleases(r, Transition(requested, Cancelled, now).value);
    } else {
      SameMoneyReleases(r, Transition(r, Failed, now).value);
    }
  }

  lemma EndingRefund(cfg: Settings, r: Record, op: RowOp, now: int, day: int)
    requires CostShape(r) && !Terminal(r.status) && (op.CancelLeased? || op.Bury?)
    requires ApplyRow(cfg, r, op, now).Ok?
    requires r.cost.Some? ==> r.cost.value.period == day
    ensures RefundMatches(r, ApplyRow(cfg, r, op, now).value, day, true)
  {
    SettlingRefund(cfg, r, op.session, day);
  }

  lemma CompletingRefund(cfg: Settings, r: Record, op: RowOp, now: int, day: int)
    requires CostShape(r) && op.Complete?
    requires ApplyRow(cfg, r, op, now).Ok?
    requires r.cost.Some? ==> r.cost.value.period == day
    ensures RefundMatches(r, ApplyRow(cfg, r, op, now).value, day, false)
  {
  }

  lemma KeepingRefund(cfg: Settings, r: Record, op: RowOp, now: int, day: int)
    requires op.Lease? || op.Start? || op.Heartbeat? || op.Progress? || op.RequestCancel? || op.Requeue? || op.MarkDeleted?
    requires CostShape(r) && Fits(r, op) && ApplyRow(cfg, r, op, now).Ok?
    requires r.cost.Some? ==> r.cost.value.period == day
    ensures RefundMatches(r, ApplyRow(cfg, r, op, now).value, day, true)
  {
    var e := ApplyRow(cfg, r, op, now).value;
    assert e.refund == NoRefund;
  }

  lemma RefundMatchesContribution(cfg: Settings, r: Record, op: RowOp, now: int, day: int)
    requires CostShape(r)
    requires Fits(r, op)
    requires ApplyRow(cfg, r, op, now).Ok?
    requires r.cost.Some? ==> r.cost.value.period == day
    ensures RefundMatches(r, ApplyRow(cfg, r, op, now).value, day, !op.Complete?)
  {
    if op.FailPending? || op.CancelPending? {
      GivingUpRefund(cfg, r, op, now, day);
    } else if op.CancelLeased? || op.Bury? {
      EndingRefund(cfg, r, op, now, day);
    } else if op.Complete? {
      CompletingRefund(cfg, r, op, now, day);
    } else {
      KeepingRefund(cfg, r, op, now, day);
    }
  }
}
