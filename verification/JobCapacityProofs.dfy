// The capacity counters: which changes keep them exact, within their limits and
// never clamped, exactly when settling a provider session makes them drift, and
// what follows for whole runs without provider sessions.

module JobCapacityProofs {
  import opened Outcomes
  import opened JobRegistry
  import opened JobStatusMachine
  import opened JobRows
  import opened JobRowProofs
  import opened Capacity
  import opened JobProtocol
  import opened JobInvariants
  import opened JobTheorems
  import opened JobTraces

  predicate Occupies(r: Record, k: Scope, slot: Slot) {
    SlotOf(r.status) == slot && k in Scopes(r.spec)
  }

  // The jobs that occupy a slot of a scope.
  function SlotIds(jobs: map<nat, Record>, k: Scope, slot: Slot): set<nat> {
    set id | id in jobs && Occupies(jobs[id], k, slot)
  }

  // The scopes a job counts in: all jobs, its type, its owner, its organization.
  predicate InScope(k: Scope, jobType: JobType, owner: string, organization: Option<string>) {
    match k
    case GlobalScope => true
    case OrganizationScope(o) => organization == Some(o)
    case ProviderScope(t) => jobType == t
    case UserScope(user) => owner == user
  }

  // The limits on the jobs that wait and that workers hold; of training there is
  // at most one of each.
  function WaitingLimit(cfg: Settings, k: Scope): nat {
    match k
    case GlobalScope => cfg.globalPending
    case OrganizationScope(_) => cfg.orgPending
    case ProviderScope(t) => if t == TrainingPrepare && cfg.providerPending > 1 then 1 else cfg.providerPending
    case UserScope(_) => cfg.userPending
  }

  function HoldingLimit(cfg: Settings, k: Scope): nat {
    match k
    case GlobalScope => cfg.globalRunning
    case OrganizationScope(_) => cfg.orgRunning
    case ProviderScope(t) => if t == TrainingPrepare && cfg.providerRunning > 1 then 1 else cfg.providerRunning
    case UserScope(_) => cfg.userRunning
  }

  lemma LimitsByColumn(cfg: Settings, k: Scope)
    ensures PendingLimit(cfg, k) == WaitingLimit(cfg, k) && RunningLimit(cfg, k) == HoldingLimit(cfg, k)
  {
  }

  lemma ScopesByColumn(cfg: Settings, k: Scope, spec: JobSpec)
    ensures k in Scopes(spec) <==> InScope(k, spec.jobType, spec.owner, spec.organization)
    ensures PendingLimit(cfg, k) == WaitingLimit(cfg, k) && RunningLimit(cfg, k) == HoldingLimit(cfg, k)
  {
    LimitsByColumn(cfg, k);
    var scopes := Scopes(spec);
    assert scopes[0] == GlobalScope && scopes[|scopes| - 1] == UserScope(spec.owner) && scopes[|scopes| - 2] == ProviderScope(spec.jobType);
    assert spec.organization.Some? ==> scopes[1] == OrganizationScope(spec.organization.value);
  }

  lemma ScopeMembers(cfg: Settings, jobs: map<nat, Record>, k: Scope)
    ensures forall id :: id in jobs ==>
              (k in Scopes(jobs[id].spec) <==> InScope(k, jobs[id].spec.jobType, jobs[id].spec.owner, jobs[id].spec.organization))
  {
    forall id | id in jobs
      ensures k in Scopes(jobs[id].spec) <==> InScope(k, jobs[id].spec.jobType, jobs[id].spec.owner, jobs[id].spec.organization)
    {
      ScopesByColumn(cfg, k, jobs[id].spec);
    }
  }

  // Every counter is the number of jobs in its slot.
  ghost predicate Exact(s: State) {
    forall k :: Get(s.counters, k).pending == |SlotIds(s.jobs, k, PendingSlot)|
             && Get(s.counters, k).running == |SlotIds(s.jobs, k, RunningSlot)|
  }

  ghost predicate WithinLimits(cfg: Settings, c: Counters) {
    forall k :: Get(c, k).pending <= PendingLimit(cfg, k) && Get(c, k).running <= RunningLimit(cfg, k)
  }

  ghost predicate NoSessions(s: State) {
    forall id :: id in s.jobs ==> s.jobs[id].spec.jobType != VastSessionStart
  }

  // For sound jobs the recount of a reconciliation is the count of the slots.
  lemma RecountIsSlots(s: State, k: Scope)
    requires AllSound(s)
    ensures PendingIds(s.jobs, k) == SlotIds(s.jobs, k, PendingSlot)
    ensures RunningIds(s.jobs, k) == SlotIds(s.jobs, k, RunningSlot)
  {
    forall id | id in s.jobs
      ensures CountsPending(s.jobs[id]) <==> SlotOf(s.jobs[id].status) == PendingSlot
      ensures CountsRunning(s.jobs[id]) <==> SlotOf(s.jobs[id].status) == RunningSlot
    {
      assert Sound(s.jobs[id]);
    }
  }

  // ---- what a status change does to the counts ----

  function One(holds: bool): int {
    if holds then 1 else 0
  }

  lemma SizeWithout(ids: set<nat>, id: nat)
    ensures |ids| == |ids - {id}| + One(id in ids)
  {
    if id !in ids {
      assert ids - {id} == ids;
    }
  }

  lemma SlotMember(jobs: map<nat, Record>, id: nat, r: Record, k: Scope, slot: Slot, i: nat)
    ensures i in SlotIds(jobs[id := r], k, slot) <==>
            if i == id then Occupies(r, k, slot) else i in SlotIds(jobs - {id}, k, slot)
  {
  }

  lemma SlotSet(jobs: map<nat, Record>, id: nat, r: Record, k: Scope, slot: Slot)
    ensures |SlotIds(jobs[id := r], k, slot)| == |SlotIds(jobs - {id}, k, slot)| + One(Occupies(r, k, slot))
  {
    var rest, after := SlotIds(jobs - {id}, k, slot), SlotIds(jobs[id := r], k, slot);
    forall i: nat
      ensures i in after - {id} <==> i in rest
    {
      SlotMember(jobs, id, r, k, slot, i);
      SlotMember(jobs, id, r, k, slot, id);
    }
    assert after - {id} == rest;
    SlotMember(jobs, id, r, k, slot, id);
    SizeWithout(after, id);
  }

  lemma SlotChange(jobs: map<nat, Record>, id: nat, r': Record, k: Scope, slot: Slot)
    requires id in jobs
    ensures |SlotIds(jobs[id := r'], k, slot)| ==
            |SlotIds(jobs, k, slot)| + One(Occupies(r', k, slot)) - One(Occupies(jobs[id], k, slot))
  {
    SlotSet(jobs, id, r', k, slot);
    SlotSet(jobs, id, jobs[id], k, slot);
    assert jobs[id := jobs[id]] == jobs;
  }

  lemma SlotArrival(jobs: map<nat, Record>, id: nat, r: Record, k: Scope, slot: Slot)
    requires id !in jobs
    ensures |SlotIds(jobs[id := r], k, slot)| == |SlotIds(jobs, k, slot)| + One(Occupies(r, k, slot))
  {
    SlotSet(jobs, id, r, k, slot);
    assert jobs - {id} == jobs;
  }

  // ---- what the counter moves do ----

  // Every scope has the slot to take away that the job is counted in.
  ghost predicate Covered(c: Counters, scopes: seq<Scope>, slot: Slot) {
    match slot
    case PendingSlot => forall k :: k in scopes ==> Get(c, k).pending > 0
    case RunningSlot => forall k :: k in scopes ==> Get(c, k).running > 0
    case NoSlot => true
  }

  ghost predicate HasRoom(cfg: Settings, c: Counters, scopes: seq<Scope>, from: Slot, to: Slot) {
    && (from == PendingSlot && to == RunningSlot ==> HasRunningRoom(cfg, c, scopes))
    && (from == RunningSlot && to == PendingSlot ==> HasPendingRoom(cfg, c, scopes))
  }

  // Each row of the scopes moved by exactly one slot, all other rows untouched.
  ghost predicate ShiftedBySlot(c: Counters, c': Counters, scopes: seq<Scope>, from: Slot, to: Slot) {
    forall k ::
      && Get(c', k).pending == Get(c, k).pending + (if k in scopes then One(to == PendingSlot) - One(from == PendingSlot) else 0)
      && Get(c', k).running == Get(c, k).running + (if k in scopes then One(to == RunningSlot) - One(from == RunningSlot) else 0)
      && Get(c', k).cost == Get(c, k).cost
      && Get(c', k).period == Get(c, k).period
  }

  lemma OneMove(cfg: Settings, c: Counters, scopes: seq<Scope>, move: Move)
    ensures ApplyMoves(cfg, c, scopes, [move]) == ApplyMove(cfg, c, scopes, move)
  {
    var applied := ApplyMove(cfg, c, scopes, move);
    if applied.Ok? {
      assert [move][1..] == [];
      assert ApplyMoves(cfg, applied.value, scopes, []) == Ok(applied.value);
    }
  }

  // Where the job is counted, its moves never meet an inconsistent row and are
  // never clamped: they shift every scope by one, or are refused because some
  // scope is full.
  lemma MovesAreExact(cfg: Settings, c: Counters, scopes: seq<Scope>, from: Slot, to: Slot)
    requires Covered(c, scopes, from) && (from == NoSlot ==> to == NoSlot)
    ensures var moved := ApplyMoves(cfg, c, scopes, SlotMoves(from, to));
            && (HasRoom(cfg, c, scopes, from, to) ==> moved.Ok? && ShiftedBySlot(c, moved.value, scopes, from, to))
            && (!HasRoom(cfg, c, scopes, from, to) ==> moved == Raised(429))
  {
    if from == PendingSlot {
      LeavingPending(cfg, c, scopes, to);
    } else if from == RunningSlot {
      LeavingRunning(cfg, c, scopes, to);
    }
  }

  lemma LeavingPending(cfg: Settings, c: Counters, scopes: seq<Scope>, to: Slot)
    requires Covered(c, scopes, PendingSlot)
    ensures var moved := ApplyMoves(cfg, c, scopes, SlotMoves(PendingSlot, to));
            && (HasRoom(cfg, c, scopes, PendingSlot, to) ==> moved.Ok? && ShiftedBySlot(c, moved.value, scopes, PendingSlot, to))
            && (!HasRoom(cfg, c, scopes, PendingSlot, to) ==> moved == Raised(429))
  {
    LoopsAreShifts(cfg, c, scopes);
    OneMove(cfg, c, scopes, ToRunning);
    OneMove(cfg, c, scopes, ReleasePending);
  }

  lemma LeavingRunning(cfg: Settings, c: Counters, scopes: seq<Scope>, to: Slot)
    requires Covered(c, scopes, RunningSlot)
    ensures var moved := ApplyMoves(cfg, c, scopes, SlotMoves(RunningSlot, to));
            && (HasRoom(cfg, c, scopes, RunningSlot, to) ==> moved.Ok? && ShiftedBySlot(c, moved.value, scopes, RunningSlot, to))
            && (!HasRoom(cfg, c, scopes, RunningSlot, to) ==> moved == Raised(429))
  {
    LoopsAreShifts(cfg, c, scopes);
    OneMove(cfg, c, scopes, ToPending);
    OneMove(cfg, c, scopes, ReleaseRunning);
  }

  lemma RefundKeepsSlots(c: Counters, refund: Refund, today: int, k: Scope)
    ensures var c' := ApplyRefund(c, refund, today);
            Get(c', k).pending == Get(c, k).pending && Get(c', k).running == Get(c, k).running
  {
  }

  // ---- one change to one job ----

  lemma CountedIsCovered(s: State, id: nat)
    requires Exact(s) && id in s.jobs
    ensures Covered(s.counters, Scopes(s.jobs[id].spec), SlotOf(s.jobs[id].status))
  {
    var slot := SlotOf(s.jobs[id].status);
    forall k | k in Scopes(s.jobs[id].spec)
      ensures |SlotIds(s.jobs, k, slot)| > 0
    {
      assert id in SlotIds(s.jobs, k, slot);
    }
  }

  lemma MovedKeepsExact(s: State, s': State, id: nat, r': Record, c: Counters)
    requires Exact(s) && id in s.jobs && s'.jobs == s.jobs[id := r'] && r'.spec == s.jobs[id].spec
    requires ShiftedBySlot(s.counters, c, Scopes(r'.spec), SlotOf(s.jobs[id].status), SlotOf(r'.status))
    requires forall k :: Get(s'.counters, k).pending == Get(c, k).pending && Get(s'.counters, k).running == Get(c, k).running
    ensures Exact(s')
  {
    forall k
      ensures Get(s'.counters, k).pending == |SlotIds(s'.jobs, k, PendingSlot)|
      ensures Get(s'.counters, k).running == |SlotIds(s'.jobs, k, RunningSlot)|
    {
      SlotChange(s.jobs, id, r', k, PendingSlot);
      SlotChange(s.jobs, id, r', k, RunningSlot);
    }
  }

  lemma MovedKeepsLimits(cfg: Settings, c: Counters, c1: Counters, c2: Counters, scopes: seq<Scope>, from: Slot, to: Slot)
    requires WithinLimits(cfg, c) && HasRoom(cfg, c, scopes, from, to) && ShiftedBySlot(c, c1, scopes, from, to)
    requires from == NoSlot ==> to == NoSlot
    requires forall k :: Get(c2, k).pending == Get(c1, k).pending && Get(c2, k).running == Get(c1, k).running
    ensures WithinLimits(cfg, c2)
  {
  }

  // The slots a change takes a job between. No change brings one back from the
  // dead.
  lemma SlotsOfChange(cfg: Settings, r: Record, op: RowOp, now: int)
    requires Sound(r) && Fits(r, op)
    requires ApplyRow(cfg, r, op, now).Ok?
    ensures ApplyRow(cfg, r, op, now).value.record.spec == r.spec
    ensures SlotOf(r.status) == NoSlot ==> SlotOf(ApplyRow(cfg, r, op, now).value.record.status) == NoSlot
  {
    ApplyAdvances(cfg, r, op, now);
  }

  // In an exact state a change that settles no unsubmitted provider session either
  // moves every counter of the job by exactly one slot, or is refused because a
  // scope is full. No row is found inconsistent and none is clamped.
  lemma ChangesAreExact(cfg: Settings, s: State, id: nat, op: RowOp, now: int)
    requires Exact(s) && id in s.jobs && Sound(s.jobs[id]) && Fits(s.jobs[id], op)
    requires !SettlesAsPending(s.jobs[id], op)
    requires ApplyRow(cfg, s.jobs[id], op, now).Ok?
    ensures var r, e := s.jobs[id], ApplyRow(cfg, s.jobs[id], op, now).value;
            var scopes, from, to := Scopes(r.spec), SlotOf(r.status), SlotOf(e.record.status);
            var moved := ApplyMoves(cfg, s.counters, scopes, e.moves);
            && (HasRoom(cfg, s.counters, scopes, from, to) ==> moved.Ok? && ShiftedBySlot(s.counters, moved.value, scopes, from, to))
            && (!HasRoom(cfg, s.counters, scopes, from, to) ==> moved == Raised(429))
  {
    var r, e := s.jobs[id], ApplyRow(cfg, s.jobs[id], op, now).value;
    CountedIsCovered(s, id);
    SlotsOfChange(cfg, r, op, now);
    assert e.moves == SlotMoves(SlotOf(r.status), SlotOf(e.record.status)) by {
      MovesFollowStatus(cfg, r, op, now);
    }
    MovesAreExact(cfg, s.counters, Scopes(r.spec), SlotOf(r.status), SlotOf(e.record.status));
  }

  // The invariant of runs without provider sessions.
  ghost predicate Counted(cfg: Settings, s: State) {
    AllSound(s) && NoSessions(s) && Exact(s) && WithinLimits(cfg, s.counters)
  }

  lemma AppliedOp(cfg: Settings, s: State, id: nat, op: RowOp, now: int) returns (e: Effect, c: Counters)
    requires id in s.jobs && ApplyOp(cfg, s, id, op, now).Ok?
    ensures ApplyRow(cfg, s.jobs[id], op, now) == Ok(e)
    ensures ApplyMoves(cfg, s.counters, Scopes(s.jobs[id].spec), e.moves) == Ok(c)
    ensures ApplyOp(cfg, s, id, op, now).value.jobs == s.jobs[id := e.record]
    ensures forall k :: Get(ApplyOp(cfg, s, id, op, now).value.counters, k).pending == Get(c, k).pending
                     && Get(ApplyOp(cfg, s, id, op, now).value.counters, k).running == Get(c, k).running
  {
    e := ApplyRow(cfg, s.jobs[id], op, now).value;
    c := ApplyMoves(cfg, s.counters, Scopes(s.jobs[id].spec), e.moves).value;
    forall k
      ensures Get(ApplyRefund(c, e.refund, Day(now)), k).pending == Get(c, k).pending
      ensures Get(ApplyRefund(c, e.refund, Day(now)), k).running == Get(c, k).running
    {
      RefundKeepsSlots(c, e.refund, Day(now), k);
    }
  }

  lemma MovedKeepsCounts(cfg: Settings, s: State, s': State, id: nat, r': Record, c: Counters)
    requires Exact(s) && WithinLimits(cfg, s.counters)
    requires id in s.jobs && s'.jobs == s.jobs[id := r'] && r'.spec == s.jobs[id].spec
    requires SlotOf(s.jobs[id].status) == NoSlot ==> SlotOf(r'.status) == NoSlot
    requires HasRoom(cfg, s.counters, Scopes(r'.spec), SlotOf(s.jobs[id].status), SlotOf(r'.status))
    requires ShiftedBySlot(s.counters, c, Scopes(r'.spec), SlotOf(s.jobs[id].status), SlotOf(r'.status))
    requires forall k :: Get(s'.counters, k).pending == Get(c, k).pending && Get(s'.counters, k).running == Get(c, k).running
    ensures Exact(s') && WithinLimits(cfg, s'.counters)
  {
    MovedKeepsExact(s, s', id, r', c);
    MovedKeepsLimits(cfg, s.counters, c, s'.counters, Scopes(r'.spec), SlotOf(s.jobs[id].status), SlotOf(r'.status));
  }

  lemma OpKeepsCounts(cfg: Settings, s: State, id: nat, op: RowOp, now: int)
    requires Exact(s) && WithinLimits(cfg, s.counters)
    requires id in s.jobs && Sound(s.jobs[id]) && Fits(s.jobs[id], op) && !SettlesAsPending(s.jobs[id], op)
    requires ApplyOp(cfg, s, id, op, now).Ok?
    ensures var s' := ApplyOp(cfg, s, id, op, now).value;
            Exact(s') && WithinLimits(cfg, s'.counters)
  {
    var e, c := AppliedOp(cfg, s, id, op, now);
    ChangesAreExact(cfg, s, id, op, now);
    SlotsOfChange(cfg, s.jobs[id], op, now);
    MovedKeepsCounts(cfg, s, ApplyOp(cfg, s, id, op, now).value, id, e.record, c);
  }

  lemma ChangeKeepsCounted(cfg: Settings, s: State, id: nat, op: RowOp, now: int)
    requires Counted(cfg, s) && id in s.jobs && Fits(s.jobs[id], op)
    requires ApplyOp(cfg, s, id, op, now).Ok?
    ensures Counted(cfg, ApplyOp(cfg, s, id, op, now).value)
  {
    OpKeepsCounts(cfg, s, id, op, now);
    OpKeepsSound(cfg, s, id, op, now);
    ChangeAddsNoSession(cfg, s, id, op, now);
  }

  // No job changes its type.
  lemma ChangeAddsNoSession(cfg: Settings, s: State, id: nat, op: RowOp, now: int)
    requires NoSessions(s) && id in s.jobs && Sound(s.jobs[id]) && Fits(s.jobs[id], op)
    requires ApplyOp(cfg, s, id, op, now).Ok?
    ensures NoSessions(ApplyOp(cfg, s, id, op, now).value)
  {
    SlotsOfChange(cfg, s.jobs[id], op, now);
  }

  // ---- every step ----

  lemma ArrivalKeepsExact(s: State, s': State, id: nat)
    requires Exact(s) && id !in s.jobs && id in s'.jobs && s'.jobs == s.jobs[id := s'.jobs[id]]
    requires SlotOf(s'.jobs[id].status) == PendingSlot
    requires forall k ::
      && Get(s'.counters, k).pending == Get(s.counters, k).pending + One(k in Scopes(s'.jobs[id].spec))
      && Get(s'.counters, k).running == Get(s.counters, k).running
    ensures Exact(s')
  {
    forall k
      ensures Get(s'.counters, k).pending == |SlotIds(s'.jobs, k, PendingSlot)|
      ensures Get(s'.counters, k).running == |SlotIds(s'.jobs, k, RunningSlot)|
    {
      SlotArrival(s.jobs, id, s'.jobs[id], k, PendingSlot);
      SlotArrival(s.jobs, id, s'.jobs[id], k, RunningSlot);
    }
  }

  // A new job in the pending slot of scopes that had room for it.
  lemma ArrivalKeepsCounts(cfg: Settings, s: State, s': State, id: nat)
    requires Exact(s) && WithinLimits(cfg, s.counters)
    requires id !in s.jobs && id in s'.jobs && s'.jobs == s.jobs[id := s'.jobs[id]]
    requires SlotOf(s'.jobs[id].status) == PendingSlot
    requires forall k ::
      && Get(s'.counters, k).pending == Get(s.counters, k).pending + One(k in Scopes(s'.jobs[id].spec))
      && Get(s'.counters, k).running == Get(s.counters, k).running
    requires forall k :: k in Scopes(s'.jobs[id].spec) ==> Get(s'.counters, k).pending <= PendingLimit(cfg, k)
    ensures Exact(s') && WithinLimits(cfg, s'.counters)
  {
    ArrivalKeepsExact(s, s', id);
  }

  lemma CreatedRow(cfg: Settings, s: State, id: nat, q: Submission, now: int)
    requires CreateJob(cfg, s, id, q, now).Ok?
    ensures var s' := CreateJob(cfg, s, id, q, now).value;
            && id in s'.jobs && s'.jobs == s.jobs[id := s'.jobs[id]]
            && s'.jobs[id].status == Queued && s'.jobs[id].spec.jobType == q.jobType
  {
  }

  lemma CreateKeepsCounts(cfg: Settings, s: State, id: nat, q: Submission, now: int)
    requires Exact(s) && WithinLimits(cfg, s.counters) && id !in s.jobs
    requires CreateJob(cfg, s, id, q, now).Ok?
    ensures var s' := CreateJob(cfg, s, id, q, now).value;
            Exact(s') && WithinLimits(cfg, s'.counters)
  {
    CreatedRow(cfg, s, id, q, now);
    CreateTakesSlots(cfg, s, id, q, now);
    ArrivalKeepsCounts(cfg, s, CreateJob(cfg, s, id, q, now).value, id);
  }

  // A claim refused in an exact state was refused for want of room, before any
  // row was touched.
  lemma RefusedMoveIsClean(cfg: Settings, s: State, id: nat)
    requires Exact(s) && id in s.jobs && Pending(s.jobs[id].status)
    requires MoveToRunning(cfg, s.counters, Scopes(s.jobs[id].spec)).SlotsRefused?
    ensures var scopes := Scopes(s.jobs[id].spec);
            MoveToRunning(cfg, s.counters, scopes) == SlotsRefused(Ensure(s.counters, scopes), 429)
  {
    CountedIsCovered(s, id);
    LoopsAreShifts(cfg, s.counters, Scopes(s.jobs[id].spec));
  }

  lemma SameReadingsKeepCounts(cfg: Settings, s: State, c: Counters)
    requires Exact(s) && WithinLimits(cfg, s.counters)
    requires forall k :: Get(c, k).pending == Get(s.counters, k).pending && Get(c, k).running == Get(s.counters, k).running
    ensures Exact(s.(counters := c)) && WithinLimits(cfg, c)
  {
  }

  // ---- reconciliation ----

  lemma UsedScopesHold(s: State, k: Scope, slot: Slot)
    requires AllSound(s) && slot != NoSlot && k !in UsedScopes(s.jobs)
    ensures SlotIds(s.jobs, k, slot) == {}
  {
    RecountIsSlots(s, k);
    forall id | id in s.jobs
      ensures id !in SlotIds(s.jobs, k, slot)
    {
      assert id in PendingIds(s.jobs, k) ==> k in UsedScopes(s.jobs);
      assert id in RunningIds(s.jobs, k) ==> k in UsedScopes(s.jobs);
    }
  }

  // From arbitrarily wrong counters, one reconciliation makes every row the
  // count of the jobs in its slot, so the rows of unused scopes read zero.
  lemma ReconcileMakesExact(s: State, now: int)
    requires AllSound(s)
    ensures Exact(Reconcile(s, now)) && Reconcile(s, now).jobs == s.jobs
    ensures forall k :: k in s.counters ==> k in Reconcile(s, now).counters
    ensures forall k :: k !in UsedScopes(s.jobs) ==>
              Get(Reconcile(s, now).counters, k).pending == Get(Reconcile(s, now).counters, k).running == 0
  {
    NothingToRebuild(s, now);
    var s' := Reconcile(s, now);
    forall k
      ensures Get(s'.counters, k).pending == |SlotIds(s.jobs, k, PendingSlot)|
      ensures Get(s'.counters, k).running == |SlotIds(s.jobs, k, RunningSlot)|
      ensures k !in UsedScopes(s.jobs) ==> Get(s'.counters, k).pending == Get(s'.counters, k).running == 0
    {
      RecountIsSlots(s, k);
      if k !in UsedScopes(s.jobs) {
        UsedScopesHold(s, k, PendingSlot);
        UsedScopesHold(s, k, RunningSlot);
      }
    }
  }

  // Exact counters are left as they are.
  lemma ReconcileKeepsExactCounts(s: State, now: int)
    requires AllSound(s) && Exact(s)
    ensures forall k :: Get(Reconcile(s, now).counters, k).pending == Get(s.counters, k).pending
                     && Get(Reconcile(s, now).counters, k).running == Get(s.counters, k).running
  {
    ReconcileMakesExact(s, now);
    forall k
      ensures Get(Reconcile(s, now).counters, k).pending == Get(s.counters, k).pending
      ensures Get(Reconcile(s, now).counters, k).running == Get(s.counters, k).running
    {
      assert Get(Reconcile(s, now).counters, k).pending == |SlotIds(s.jobs, k, PendingSlot)|;
    }
  }

  // ---- runs ----

  lemma RefusedMoveKeepsCounts(cfg: Settings, s: State, id: nat)
    requires Exact(s) && WithinLimits(cfg, s.counters) && id in s.jobs && Pending(s.jobs[id].status)
    requires MoveToRunning(cfg, s.counters, Scopes(s.jobs[id].spec)).SlotsRefused?
    ensures var c := MoveToRunning(cfg, s.counters, Scopes(s.jobs[id].spec)).counters;
            Exact(s.(counters := c)) && WithinLimits(cfg, c)
  {
    RefusedMoveIsClean(cfg, s, id);
    SameReadingsKeepCounts(cfg, s, Ensure(s.counters, Scopes(s.jobs[id].spec)));
  }

  lemma ReconcileKeepsCounts(cfg: Settings, s: State, now: int)
    requires AllSound(s) && Exact(s) && WithinLimits(cfg, s.counters)
    ensures Reconcile(s, now).jobs == s.jobs && Exact(Reconcile(s, now)) && WithinLimits(cfg, Reconcile(s, now).counters)
  {
    NothingToRebuild(s, now);
    ReconcileKeepsExactCounts(s, now);
    SameReadingsKeepCounts(cfg, s, Reconcile(s, now).counters);
  }

  lemma MicroAddsNoSession(cfg: Settings, s: State, m: Micro, now: int)
    requires AllSound(s) && NoSessions(s) && MicroFits(cfg, s, m, now)
    requires m.Create? ==> m.submission.jobType != VastSessionStart
    ensures NoSessions(MicroResult(cfg, s, m, now))
  {
    match m
    case Change(id, op) => ChangeAddsNoSession(cfg, s, id, op, now);
    case Create(id, q) => CreatedRow(cfg, s, id, q, now);
    case Recount => NothingToRebuild(s, now);
    case _ =>
  }

  lemma MicroKeepsCounts(cfg: Settings, s: State, m: Micro, now: int)
    requires ValidSettings(cfg) && Counted(cfg, s) && MicroFits(cfg, s, m, now)
    requires m.Create? ==> m.submission.jobType != VastSessionStart
    ensures Counted(cfg, MicroResult(cfg, s, m, now))
  {
    MicroKeepsSound(cfg, s, m, now);
    MicroAddsNoSession(cfg, s, m, now);
    match m
    case Change(id, op) => OpKeepsCounts(cfg, s, id, op, now);
    case Create(id, q) => CreateKeepsCounts(cfg, s, id, q, now);
    case TryMove(id) => RefusedMoveKeepsCounts(cfg, s, id);
    case Recount => ReconcileKeepsCounts(cfg, s, now);
    case _ =>
  }

  lemma {:induction false} TraceKeepsCounts(cfg: Settings, s: State, t: seq<Micro>, now: int, s': State)
    requires ValidSettings(cfg) && Counted(cfg, s) && Traces(cfg, s, t, now, s')
    requires forall i :: 0 <= i < |t| && t[i].Create? ==> t[i].submission.jobType != VastSessionStart
    ensures Counted(cfg, s')
    decreases |t|
  {
    if t != [] {
      MicroKeepsCounts(cfg, s, t[0], now);
      TraceKeepsCounts(cfg, MicroResult(cfg, s, t[0], now), t[1..], now, s');
    }
  }

  ghost predicate SubmitsNoSession(steps: seq<Step>) {
    forall i :: 0 <= i < |steps| && steps[i].action.Submitting? ==> steps[i].action.submission.jobType != VastSessionStart
  }

  lemma StepKeepsCounts(cfg: Settings, s: State, step: Step)
    requires ValidSettings(cfg) && Counted(cfg, s) && Enabled(cfg, s, step) && SubmitsNoSession([step])
    ensures Counted(cfg, Perform(cfg, s, step).state)
  {
    var t := StepTrace(cfg, s, step);
    assert step == [step][0];
    TraceKeepsCounts(cfg, s, t, step.env.now, Perform(cfg, s, step).state);
  }

  lemma {:induction false} RunsKeepCounts(cfg: Settings, s: State, steps: seq<Step>)
    requires ValidSettings(cfg) && Counted(cfg, s) && IsRun(cfg, s, steps) && SubmitsNoSession(steps)
    ensures Counted(cfg, After(cfg, s, steps))
    decreases |steps|
  {
    if steps != [] {
      assert SubmitsNoSession([steps[0]]) && SubmitsNoSession(steps[1..]);
      StepKeepsCounts(cfg, s, steps[0]);
      RunsKeepCounts(cfg, Perform(cfg, s, steps[0]).state, steps[1..]);
    }
  }

  lemma EmptyIsCounted(cfg: Settings)
    ensures Counted(cfg, EMPTY)
  {
    assert forall k, slot :: SlotIds(EMPTY.jobs, k, slot) == {};
  }

  // In every run that submits no provider session, every counter is exactly the
  // number of jobs waiting or held in its scope, within the scope's limits, and
  // a reconciliation would change none of them.
  lemma CountersAreExact(cfg: Settings, steps: seq<Step>)
    requires ValidSettings(cfg) && IsRun(cfg, EMPTY, steps) && SubmitsNoSession(steps)
    ensures var s := After(cfg, EMPTY, steps);
            forall k ::
              && Get(s.counters, k).pending == |PendingIds(s.jobs, k)| <= PendingLimit(cfg, k)
              && Get(s.counters, k).running == |RunningIds(s.jobs, k)| <= RunningLimit(cfg, k)
  {
    var s := After(cfg, EMPTY, steps);
    EmptyIsCounted(cfg);
    RunsKeepCounts(cfg, EMPTY, steps);
    forall k
      ensures Get(s.counters, k).pending == |PendingIds(s.jobs, k)| <= PendingLimit(cfg, k)
      ensures Get(s.counters, k).running == |RunningIds(s.jobs, k)| <= RunningLimit(cfg, k)
    {
      RecountIsSlots(s, k);
    }
  }

  // In every such run no change meets an inconsistent row or a clamp: it moves
  // each counter of the job by exactly one slot, or a scope is full.
  lemma ReachableChangesAreExact(cfg: Settings, steps: seq<Step>, id: nat, op: RowOp, now: int)
    requires ValidSettings(cfg) && IsRun(cfg, EMPTY, steps) && SubmitsNoSession(steps)
    requires var s := After(cfg, EMPTY, steps);
             id in s.jobs && Fits(s.jobs[id], op) && ApplyRow(cfg, s.jobs[id], op, now).Ok?
    ensures var s := After(cfg, EMPTY, steps);
            var r, e := s.jobs[id], ApplyRow(cfg, s.jobs[id], op, now).value;
            var scopes, from, to := Scopes(r.spec), SlotOf(r.status), SlotOf(e.record.status);
            var moved := ApplyMoves(cfg, s.counters, scopes, e.moves);
            if HasRoom(cfg, s.counters, scopes, from, to)
            then moved.Ok? && ShiftedBySlot(s.counters, moved.value, scopes, from, to)
            else moved == Raised(429)
  {
    EmptyIsCounted(cfg);
    RunsKeepCounts(cfg, EMPTY, steps);
    ChangesAreExact(cfg, After(cfg, EMPTY, steps), id, op, now);
  }

  // ---- the drift of a provider session ----

  lemma GlobalSlotsHoldAll(jobs: map<nat, Record>, k: Scope, slot: Slot)
    ensures |SlotIds(jobs, k, slot)| <= |SlotIds(jobs, GlobalScope, slot)|
  {
    forall id | id in SlotIds(jobs, k, slot)
      ensures id in SlotIds(jobs, GlobalScope, slot)
    {
      assert GlobalScope == Scopes(jobs[id].spec)[0];
    }
    SubsetSize(SlotIds(jobs, k, slot), SlotIds(jobs, GlobalScope, slot));
  }

  // Both releases together: a pending slot where there is one, and a running one.
  lemma TwoReleases(cfg: Settings, c: Counters, scopes: seq<Scope>)
    ensures var released := ApplyMoves(cfg, c, scopes, [ReleasePending, ReleaseRunning]);
            && released.Ok?
            && forall k ::
                 && Get(released.value, k).pending == Max(0, Get(c, k).pending - One(k in scopes))
                 && Get(released.value, k).running == Max(0, Get(c, k).running - One(k in scopes))
  {
    var moves := [ReleasePending, ReleaseRunning];
    assert moves[1..] == [ReleaseRunning];
    OneMove(cfg, ReleasePendingAll(c, scopes), scopes, ReleaseRunning);
  }

  // What settling an unsubmitted session does to the counters.
  lemma SettlingCounters(cfg: Settings, s: State, id: nat, op: RowOp, now: int, k: Scope) returns (e: Effect)
    requires id in s.jobs && Held(s.jobs[id].status) && (op.CancelLeased? || op.Bury?)
    requires SettlesAsPending(s.jobs[id], op) && ApplyOp(cfg, s, id, op, now).Ok?
    ensures ApplyRow(cfg, s.jobs[id], op, now) == Ok(e) && SlotOf(e.record.status) == NoSlot
    ensures var s' := ApplyOp(cfg, s, id, op, now).value;
            && s'.jobs == s.jobs[id := e.record]
            && Get(s'.counters, k).pending == Max(0, Get(s.counters, k).pending - One(k in Scopes(s.jobs[id].spec)))
            && Get(s'.counters, k).running == Max(0, Get(s.counters, k).running - One(k in Scopes(s.jobs[id].spec)))
  {
    var c;
    e, c := AppliedOp(cfg, s, id, op, now);
    EndingMoves(cfg, s.jobs[id], op, now);
    TwoReleases(cfg, s.counters, Scopes(s.jobs[id].spec));
  }

  // And to the counts.
  lemma SettlingCounts(cfg: Settings, s: State, id: nat, op: RowOp, now: int, k: Scope)
    requires Exact(s) && id in s.jobs && Sound(s.jobs[id]) && Fits(s.jobs[id], op)
    requires SettlesAsPending(s.jobs[id], op) && ApplyOp(cfg, s, id, op, now).Ok?
    ensures var s' := ApplyOp(cfg, s, id, op, now).value;
            && Get(s'.counters, k).pending == Max(0, Get(s.counters, k).pending - One(k in Scopes(s.jobs[id].spec)))
            && |SlotIds(s'.jobs, k, PendingSlot)| == Get(s.counters, k).pending
            && Get(s'.counters, k).running == |SlotIds(s'.jobs, k, RunningSlot)|
  {
    var r := s.jobs[id];
    var e := SettlingCounters(cfg, s, id, op, now, k);
    SlotsOfChange(cfg, r, op, now);
    CountedIsCovered(s, id);
    SlotChange(s.jobs, id, e.record, k, PendingSlot);
    SlotChange(s.jobs, id, e.record, k, RunningSlot);
  }

  // Settling the cost of a session that was never submitted gives back a
  // pending slot for a job that holds a running one. The counters stay exact if
  // and only if no job at all is waiting.
  lemma SettlingDriftsIff(cfg: Settings, s: State, id: nat, op: RowOp, now: int)
    requires Exact(s) && id in s.jobs && Sound(s.jobs[id]) && Fits(s.jobs[id], op)
    requires SettlesAsPending(s.jobs[id], op) && ApplyOp(cfg, s, id, op, now).Ok?
    ensures Exact(ApplyOp(cfg, s, id, op, now).value) <==> Get(s.counters, GlobalScope).pending == 0
  {
    var s' := ApplyOp(cfg, s, id, op, now).value;
    assert GlobalScope == Scopes(s.jobs[id].spec)[0];
    SettlingCounts(cfg, s, id, op, now, GlobalScope);
    if Get(s.counters, GlobalScope).pending == 0 {
      forall k
        ensures Get(s'.counters, k).pending == |SlotIds(s'.jobs, k, PendingSlot)|
        ensures Get(s'.counters, k).running == |SlotIds(s'.jobs, k, RunningSlot)|
      {
        GlobalSlotsHoldAll(s.jobs, k, PendingSlot);
        SettlingCounts(cfg, s, id, op, now, k);
      }
    }
  }

  // Settling is never refused.
  lemma SettlingSucceeds(cfg: Settings, s: State, id: nat, op: RowOp, now: int)
    requires id in s.jobs && Sound(s.jobs[id]) && Fits(s.jobs[id], op)
    requires SettlesAsPending(s.jobs[id], op)
    ensures ApplyOp(cfg, s, id, op, now).Ok?
  {
    var applied := ApplyRow(cfg, s.jobs[id], op, now);
    FinalizeTouchesCostOnly(cfg, s.jobs[id], op.session);
    assert applied.Ok?;
    EndingMoves(cfg, s.jobs[id], op, now);
    TwoReleases(cfg, s.counters, Scopes(s.jobs[id].spec));
  }
}
