// A loaded job row and the rows that hang off it, changed column by column the
// way jobs/state.py, jobs/worker_protocol.py and jobs/lifecycle.py do.

module JobRowClass {
  import opened Outcomes
  import opened JobRegistry
  import opened JobStatusMachine
  import opened JobRows

  // What a change asks of the capacity rows, or the code it raised.
  type Asked = Result<(seq<Move>, Refund)>

  class JobRow {
    const spec: JobSpec
    var status: Status
    var attemptCount: nat
    var leaseGeneration: nat
    var leasedBy: Option<string>
    var tokenHash: Option<TokenHash>
    var leaseExpiresAt: Option<int>
    var availableAt: int
    var reservedCost: nat
    var actualCost: nat
    var result: Option<JobResult>
    var startedAt: Option<int>
    var cancelRequestedAt: Option<int>
    var completedAt: Option<int>
    var failedAt: Option<int>
    var deletedAt: Option<int>
    var attempts: seq<Attempt>
    var events: seq<Event>
    var cost: Option<CostRow>

    constructor (r: Record)
      ensures Value() == r
    {
      spec := r.spec;
      status, attemptCount, leaseGeneration := r.status, r.attemptCount, r.leaseGeneration;
      leasedBy, tokenHash, leaseExpiresAt := r.leasedBy, r.tokenHash, r.leaseExpiresAt;
      availableAt, reservedCost, actualCost := r.availableAt, r.reservedCost, r.actualCost;
      result, startedAt, cancelRequestedAt := r.result, r.startedAt, r.cancelRequestedAt;
      completedAt, failedAt, deletedAt := r.completedAt, r.failedAt, r.deletedAt;
      attempts, events, cost := r.attempts, r.events, r.cost;
    }

    function Value(): Record
      reads this
    {
      Record(spec, status, attemptCount, leaseGeneration, leasedBy, tokenHash, leaseExpiresAt, availableAt,
             reservedCost, actualCost, result, startedAt, cancelRequestedAt, completedAt, failedAt, deletedAt,
             attempts, events, cost)
    }

    // append_job_event
    method AppendEvent(body: EventBody)
      modifies this`events
      ensures Value() == old(Value()).(events := Append(old(events), body))
    {
      var next := MaxSequence(events) + 1;
      events := events + [Event(next, body)];
    }

    // The time columns a transition sets.
    method Stamp(target: Status, now: int)
      modifies this`startedAt, this`cancelRequestedAt, this`completedAt, this`failedAt
      ensures Value() == old(Value()).(
                startedAt := if target == Running && old(startedAt).None? then Some(now) else old(startedAt),
                cancelRequestedAt := if target == CancelRequested && old(cancelRequestedAt).None? then Some(now) else old(cancelRequestedAt),
                completedAt := if target == Completed then Some(now)
                               else if target in {Failed, DeadLetter} then None else old(completedAt),
                failedAt := if target in {Failed, DeadLetter} then Some(now) else if target == Completed then None else old(failedAt))
    {
      if target == Running && startedAt.None? {
        startedAt := Some(now);
      }
      if target == CancelRequested && cancelRequestedAt.None? {
        cancelRequestedAt := Some(now);
      }
      if target == Completed {
        completedAt := Some(now);
        failedAt := None;
      } else if target in {Failed, DeadLetter} {
        failedAt := Some(now);
        completedAt := None;
      }
    }

    // transition_job. A raised transition changes nothing.
    method TransitionTo(target: Status, now: int) returns (code: Option<nat>)
      modifies this`status, this`startedAt, this`cancelRequestedAt, this`completedAt, this`failedAt, this`events
      ensures match Transition(old(Value()), target, now)
              case Ok(r) => code.None? && Value() == r
              case Raised(n) => code == Some(n) && Value() == old(Value())
    {
      if Terminal(status) {
        return Some(500);
      }
      if target !in Allowed(status) {
        return Some(500);
      }
      var previous := status;
      status := target;
      Stamp(target, now);
      AppendEvent(Moved(previous, target));
      code := None;
    }

    // _clear_lease
    method ClearLeaseColumns()
      modifies this`leasedBy, this`tokenHash, this`leaseExpiresAt
      ensures Value() == ClearLease(old(Value()))
    {
      leasedBy := None;
      tokenHash := None;
      leaseExpiresAt := None;
    }

    // The attempt of the current generation is closed, where there is one.
    method CloseAttempt(outcome: AttemptOutcome, now: int)
      modifies this`attempts
      ensures Value() == old(Value()).(attempts := EndAttempt(old(Value()), outcome, now))
    {
      var i := AttemptIndex(attempts, leaseGeneration);
      if i.Some? {
        attempts := attempts[i.value := attempts[i.value].(outcome := outcome, endedAt := Some(now))];
      }
    }

    // _release_unused_cost_reservation, on the side of the job
    method DropReservation() returns (refund: Refund)
      modifies this`reservedCost, this`cost
      ensures (Value(), refund) == ReleaseCost(old(Value()))
    {
      if reservedCost == 0 {
        return NoRefund;
      }
      refund := IfPeriodIsToday(reservedCost);
      reservedCost := 0;
      if cost.Some? && cost.value.status !in {CostCompleted, CostReleased} {
        cost := Some(cost.value.(status := CostReleased, reserved := 0));
      }
    }

    // _finalize_provider_cost, on the side of the job
    method SettleCost(cfg: Settings, session: Session) returns (refund: Refund, releasesPending: bool)
      modifies this`reservedCost, this`actualCost, this`cost
      ensures Settled(Value(), refund, releasesPending) == FinalizeCost(cfg, old(Value()), session)
    {
      refund, releasesPending := NoRefund, false;
      if spec.jobType != VastSessionStart || cost.None? || cost.value.status == CostCompleted {
        return;
      }
      if !session.found || session.requestState in {NoRequestState, RequestNotSubmitted} {
        refund := DropReservation();
        return refund, true;
      }
      if session.requestState in {SubmittedUnknown, ReconciliationFailed} || !session.hasInstance {
        cost := Some(cost.value.(status := CostReconciliation));
        return;
      }
      var actual := if actualCost != 0 then actualCost else SessionCost(cfg, Value(), session);
      if reservedCost > actual {
        refund := Always(reservedCost - actual);
      }
      actualCost := actual;
      reservedCost := 0;
      cost := Some(cost.value.(reserved := 0, actual := actual, status := CostCompleted));
    }

    // The columns of a new lease.
    method SetLease(worker: string, token: nat, generation: nat, expires: int)
      modifies this`leaseGeneration, this`leasedBy, this`tokenHash, this`leaseExpiresAt, this`attemptCount
      ensures Value() == old(Value()).(leaseGeneration := generation, leasedBy := Some(worker), tokenHash := Some(HashOf(token)),
                                       leaseExpiresAt := Some(expires), attemptCount := old(attemptCount) + 1)
    {
      leaseGeneration := generation;
      leasedBy := Some(worker);
      tokenHash := Some(HashOf(token));
      leaseExpiresAt := Some(expires);
      attemptCount := attemptCount + 1;
    }

    method AddAttempt(a: Attempt)
      modifies this`attempts
      ensures Value() == old(Value()).(attempts := old(attempts) + [a])
    {
      attempts := attempts + [a];
    }

    // _mark_provider_reservation_running
    method MarkCostRunning()
      modifies this`cost
      ensures Value() == old(Value()).(cost := if old(cost).Some? && old(cost).value.status == CostReserved
                                               then Some(old(cost).value.(status := CostRunning)) else old(cost))
    {
      if cost.Some? && cost.value.status == CostReserved {
        cost := Some(cost.value.(status := CostRunning));
      }
    }

    // _mark_provider_reservation_reconciliation_required
    method MarkCostUncertain()
      modifies this`cost
      ensures Value() == old(Value()).(cost := if old(cost).Some? then Some(old(cost).value.(status := CostReconciliation)) else None)
    {
      if cost.Some? {
        cost := Some(cost.value.(status := CostReconciliation));
      }
    }

    // The price of a finished session: _complete_provider_cost_reservation.
    method SetPrice(actual: nat)
      modifies this`actualCost, this`cost
      ensures Value() == old(Value()).(actualCost := actual,
                                       cost := if old(cost).Some? then Some(old(cost).value.(actual := actual, status := CostCompleted)) else None)
    {
      actualCost := actual;
      if cost.Some? {
        cost := Some(cost.value.(actual := actual, status := CostCompleted));
      }
    }

    // claim_next_job, once the capacity is taken
    method TakeLease(cfg: Settings, worker: string, token: nat, now: int) returns (asked: Asked)
      modifies this
      ensures Follows(LeaseRow(cfg, old(Value()), worker, token, now), asked)
    {
      var horizon := AttemptHorizon(cfg, Value(), now);
      var expires := LeaseDeadline(cfg, Value(), now, Some(horizon));
      var generation := leaseGeneration + 1;
      var code := TransitionTo(Leased, now);
      if code.Some? {
        return Raised(code.value);
      }
      SetLease(worker, token, generation, expires);
      AddAttempt(Attempt(attemptCount, generation, worker, None, Some(horizon), AttemptLeased, None));
      MarkCostRunning();
      asked := Ok(([ToRunning], NoRefund));
    }

    // Done as the row specification says, or raised by it.
    ghost predicate Follows(done: Result<Effect>, asked: Asked)
      reads this
    {
      match done
      case Ok(e) => asked == Ok((e.moves, e.refund)) && Value() == e.record
      case Raised(n) => asked == Raised(n)
    }

    // start_job
    method Begin(now: int) returns (asked: Asked)
      modifies this
      ensures Follows(StartRow(old(Value()), now), asked)
    {
      var i := AttemptIndex(attempts, leaseGeneration);
      if i.None? || status != Leased {
        return Raised(409);
      }
      var code := TransitionTo(Running, now);
      if code.Some? {
        return Raised(code.value);
      }
      attempts := attempts[i.value := attempts[i.value].(startedAt := Some(now), outcome := AttemptRunning)];
      asked := Ok(([], NoRefund));
    }

    // heartbeat_job
    method Beat(cfg: Settings, now: int) returns (asked: Asked)
      modifies this
      ensures Follows(HeartbeatRow(cfg, old(Value()), now), asked)
    {
      var i := AttemptIndex(attempts, leaseGeneration);
      if i.None? || status !in {Leased, Running} {
        return Raised(409);
      }
      var expires := LeaseDeadline(cfg, Value(), now, attempts[i.value].maxLeaseExpiresAt);
      if expires <= now {
        return Raised(409);
      }
      leaseExpiresAt := Some(expires);
      AppendEvent(HeartbeatSeen);
      asked := Ok(([], NoRefund));
    }

    // report_progress
    method Report() returns (asked: Asked)
      modifies this
      ensures Follows(ProgressRow(old(Value())), asked)
    {
      if status != Running {
        return Raised(409);
      }
      AppendEvent(ProgressSeen);
      asked := Ok(([], NoRefund));
    }

    // complete_job
    method Finish(cfg: Settings, payload: string, session: Session, now: int) returns (asked: Asked)
      modifies this
      ensures Follows(CompleteRow(cfg, old(Value()), payload, session, now), asked)
    {
      if status != Running || leasedBy.None? {
        return Raised(409);
      }
      if spec.jobType == VastSessionStart {
        if !session.found {
          return Raised(409);
        }
        SetPrice(SessionCost(cfg, Value(), session));
      }
      result := Some(JobResult(leasedBy.value, leaseGeneration, payload));
      var code := TransitionTo(Completed, now);
      if code.Some? {
        return Raised(code.value);
      }
      CloseAttempt(AttemptCompleted, now);
      ClearLeaseColumns();
      asked := Ok(([ReleaseRunning], NoRefund));
    }

    // The "failed" branches on a job nobody holds.
    method GiveUp(delete: bool, now: int) returns (asked: Asked)
      modifies this
      ensures Follows(FailPendingRow(old(Value()), delete, now), asked)
    {
      var code := TransitionTo(Failed, now);
      if code.Some? {
        return Raised(code.value);
      }
      var refund := DropReservation();
      if delete {
        deletedAt := Some(now);
      }
      asked := Ok(([ReleasePending], refund));
    }

    method AskToCancel(now: int) returns (asked: Asked)
      modifies this
      ensures Follows(RequestCancelRow(old(Value()), now), asked)
    {
      var code := TransitionTo(CancelRequested, now);
      asked := if code.Some? then Raised(code.value) else Ok(([], NoRefund));
    }

    // _cancel_leased_job
    method CancelHeld(cfg: Settings, session: Session, hasAttempt: bool, now: int) returns (asked: Asked)
      modifies this
      ensures Follows(CancelLeasedRow(cfg, old(Value()), session, hasAttempt, now), asked)
    {
      var refund, releasesPending := SettleCost(cfg, session);
      var code := TransitionTo(Cancelled, now);
      if code.Some? {
        return Raised(code.value);
      }
      if hasAttempt {
        CloseAttempt(AttemptCancelled, now);
      }
      ClearLeaseColumns();
      asked := Ok((if releasesPending then [ReleasePending, ReleaseRunning] else [ReleaseRunning], refund));
    }

    // The dead-letter branches.
    method Abandon(cfg: Settings, outcome: AttemptOutcome, session: Session, now: int) returns (asked: Asked)
      modifies this
      ensures Follows(BuryRow(cfg, old(Value()), outcome, session, now), asked)
    {
      ghost var r := Value();
      var refund, releasesPending := SettleCost(cfg, session);
      var code := TransitionTo(DeadLetter, now);
      if code.Some? {
        return Raised(code.value);
      }
      assert EndAttempt(Value(), outcome, now) == EndAttempt(r, outcome, now);
      CloseAttempt(outcome, now);
      ClearLeaseColumns();
      asked := Ok((if releasesPending then [ReleasePending, ReleaseRunning] else [ReleaseRunning], refund));
    }

    // The retry branches.
    method SendBack(outcome: AttemptOutcome, uncertain: bool, delay: nat, now: int) returns (asked: Asked)
      modifies this
      ensures Follows(RequeueRow(old(Value()), outcome, uncertain, delay, now), asked)
    {
      ghost var r := Value();
      var code := TransitionTo(RetryWait, now);
      if code.Some? {
        return Raised(code.value);
      }
      assert EndAttempt(Value(), outcome, now) == EndAttempt(r, outcome, now);
      CloseAttempt(outcome, now);
      if uncertain {
        MarkCostUncertain();
      }
      availableAt := now + delay;
      ClearLeaseColumns();
      asked := Ok(([ToPending], NoRefund));
    }

    // cancel_job on a job no worker holds
    method CancelWaiting(now: int) returns (asked: Asked)
      modifies this
      ensures Follows(CancelPendingRow(old(Value()), now), asked)
    {
      if status != CancelRequested {
        var code := TransitionTo(CancelRequested, now);
        if code.Some? {
          return Raised(code.value);
        }
      }
      var code := TransitionTo(Cancelled, now);
      if code.Some? {
        return Raised(code.value);
      }
      var refund := DropReservation();
      asked := Ok(([ReleasePending], refund));
    }

    method Perform(cfg: Settings, op: RowOp, now: int) returns (asked: Asked)
      modifies this
      ensures Follows(ApplyRow(cfg, old(Value()), op, now), asked)
    {
      match op
      case Lease(worker, token) => asked := TakeLease(cfg, worker, token, now);
      case Start => asked := Begin(now);
      case Heartbeat => asked := Beat(cfg, now);
      case Progress => asked := Report();
      case Complete(payload, session) => asked := Finish(cfg, payload, session, now);
      case FailPending(delete) => asked := GiveUp(delete, now);
      case RequestCancel => asked := AskToCancel(now);
      case CancelLeased(session, hasAttempt) => asked := CancelHeld(cfg, session, hasAttempt, now);
      case Bury(outcome, session) => asked := Abandon(cfg, outcome, session, now);
      case Requeue(outcome, uncertain, delay) => asked := SendBack(outcome, uncertain, delay, now);
      case CancelPending => asked := CancelWaiting(now);
      case MarkDeleted =>
        deletedAt := Some(now);
        asked := Ok(([], NoRefund));
    }
  }
}
