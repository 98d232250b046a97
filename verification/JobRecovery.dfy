// Exactly when a recovery pass is refused.

module JobRecovery {
  import opened Outcomes
  import opened JobRegistry
  import opened JobStatusMachine
  import opened JobRows
  import opened JobRowProofs
  import opened Capacity
  import opened JobProtocol
  import opened JobTheorems
  import opened JobCapacityProofs

  // A held job whose lease ran out with retries and time left.
  predicate SentBack(cfg: Settings, jobs: map<nat, Record>, id: nat, env: Env) {
    id in jobs && Expired(jobs[id], env.now) && RecoverOp(cfg, id, jobs[id], env).Requeue?
  }

  predicate QueueExpired(jobs: map<nat, Record>, id: nat, env: Env) {
    id in jobs && Expired(jobs[id], env.now) && Pending(jobs[id].status)
  }

  // What a pass does to the pending slots of a scope when it comes to a row: a row
  // sent back takes one, a queued row that expired gives one up.
  function PendingChange(cfg: Settings, jobs: map<nat, Record>, id: nat, env: Env, k: Scope): int {
    if id !in jobs || k !in Scopes(jobs[id].spec) then 0
    else if SentBack(cfg, jobs, id, env) then 1
    else if QueueExpired(jobs, id, env) then -1
    else 0
  }

  function PendingChanges(cfg: Settings, jobs: map<nat, Record>, order: seq<nat>, env: Env, k: Scope): int {
    if order == [] then 0
    else PendingChanges(cfg, jobs, order[..|order| - 1], env, k) + PendingChange(cfg, jobs, order[|order| - 1], env, k)
  }

  // Each row sent back finds a free pending slot in all its scopes, counting what
  // the rows before it took and gave up.
  ghost predicate FindsRoom(cfg: Settings, s: State, order: seq<nat>, i: nat, env: Env)
    requires i < |order|
  {
    SentBack(cfg, s.jobs, order[i], env) ==>
      forall k :: k in Scopes(s.jobs[order[i]].spec) ==>
        Get(s.counters, k).pending + PendingChanges(cfg, s.jobs, order[..i], env, k) < PendingLimit(cfg, k)
  }

  ghost predicate AllFindRoom(cfg: Settings, s: State, order: seq<nat>, env: Env) {
    forall i :: 0 <= i < |order| ==> FindsRoom(cfg, s, order, i, env)
  }

  // ---- one row ----

  lemma RecoveredSlots(cfg: Settings, id: nat, r: Record, env: Env)
    requires Sound(r) && Expired(r, env.now)
    ensures var op := RecoverOp(cfg, id, r, env);
            && Fits(r, op) && ApplyRow(cfg, r, op, env.now).Ok?
            && var to := SlotOf(ApplyRow(cfg, r, op, env.now).value.record.status);
               && (op.Requeue? ==> SlotOf(r.status) == RunningSlot && to == PendingSlot)
               && (!op.Requeue? ==> to == NoSlot)
  {
    CurrentAttempt(r);
    RecoveredStatus(cfg, id, r, env);
  }

  lemma OneRowRecovers(cfg: Settings, s: State, id: nat, env: Env)
    requires Counted(cfg, s)
    ensures var one := PassOne(cfg, s, RecoverExpired, id, env);
            && (one.Ok? <==> (SentBack(cfg, s.jobs, id, env) ==> HasPendingRoom(cfg, s.counters, Scopes(s.jobs[id].spec))))
            && (one.Raised? ==> one == Raised(429))
  {
    if id in s.jobs && Expired(s.jobs[id], env.now) {
      RecoveredSlots(cfg, id, s.jobs[id], env);
      ChangesAreExact(cfg, s, id, RecoverOp(cfg, id, s.jobs[id], env), env.now);
    }
  }

  lemma ChangeMovesPending(cfg: Settings, s: State, id: nat, op: RowOp, now: int, k: Scope)
    requires Exact(s) && id in s.jobs && Sound(s.jobs[id]) && Fits(s.jobs[id], op) && !SettlesAsPending(s.jobs[id], op)
    requires ApplyOp(cfg, s, id, op, now).Ok? && ApplyRow(cfg, s.jobs[id], op, now).Ok?
    ensures var from, to := SlotOf(s.jobs[id].status), SlotOf(ApplyRow(cfg, s.jobs[id], op, now).value.record.status);
            Get(ApplyOp(cfg, s, id, op, now).value.counters, k).pending ==
            Get(s.counters, k).pending + if k in Scopes(s.jobs[id].spec) then One(to == PendingSlot) - One(from == PendingSlot) else 0
  {
    ChangesAreExact(cfg, s, id, op, now);
    var e, c := AppliedOp(cfg, s, id, op, now);
  }

  lemma OneRowMoves(cfg: Settings, s: State, id: nat, env: Env, k: Scope)
    requires Counted(cfg, s) && PassOne(cfg, s, RecoverExpired, id, env).Ok?
    ensures Get(PassOne(cfg, s, RecoverExpired, id, env).value.counters, k).pending ==
            Get(s.counters, k).pending + PendingChange(cfg, s.jobs, id, env, k)
  {
    if id in s.jobs && Expired(s.jobs[id], env.now) {
      var op := RecoverOp(cfg, id, s.jobs[id], env);
      RecoveredSlots(cfg, id, s.jobs[id], env);
      ChangeMovesPending(cfg, s, id, op, env.now, k);
    }
  }

  lemma OneRowStaysCounted(cfg: Settings, s: State, id: nat, env: Env)
    requires Counted(cfg, s) && PassOne(cfg, s, RecoverExpired, id, env).Ok?
    ensures Counted(cfg, PassOne(cfg, s, RecoverExpired, id, env).value)
  {
    if id in s.jobs && Expired(s.jobs[id], env.now) {
      var op := RecoverOp(cfg, id, s.jobs[id], env);
      RecoveredSlots(cfg, id, s.jobs[id], env);
      ChangeKeepsCounted(cfg, s, id, op, env.now);
    }
  }

  // ---- the whole pass ----

  lemma {:induction false} LastRowLast(cfg: Settings, s: State, pass: Pass, order: seq<nat>, id: nat, env: Env)
    ensures RunPass(cfg, s, pass, order + [id], env) ==
            match RunPass(cfg, s, pass, order, env)
            case Ok(s1) => PassOne(cfg, s1, pass, id, env)
            case Raised(n) => Raised(n)
    decreases |order|
  {
    if order == [] {
      assert (order + [id])[1..] == [];
      var one := PassOne(cfg, s, pass, id, env);
      if one.Ok? {
        assert RunPass(cfg, one.value, pass, [], env) == one;
      }
    } else {
      var one := PassOne(cfg, s, pass, order[0], env);
      assert (order + [id])[0] == order[0] && (order + [id])[1..] == order[1..] + [id];
      if one.Ok? {
        LastRowLast(cfg, one.value, pass, order[1..], id, env);
      }
    }
  }

  // What holds of a pass that got as far as these rows.
  ghost predicate Reached(cfg: Settings, s: State, order: seq<nat>, env: Env, s1: State) {
    && Counted(cfg, s1)
    && (forall k :: Get(s1.counters, k).pending == Get(s.counters, k).pending + PendingChanges(cfg, s.jobs, order, env, k))
  }

  lemma ReachedOneMore(cfg: Settings, s: State, order: seq<nat>, id: nat, env: Env, s1: State)
    requires Reached(cfg, s, order, env, s1)
    requires (id in s1.jobs <==> id in s.jobs) && (id in s.jobs ==> s1.jobs[id] == s.jobs[id])
    requires PassOne(cfg, s1, RecoverExpired, id, env).Ok?
    ensures Reached(cfg, s, order + [id], env, PassOne(cfg, s1, RecoverExpired, id, env).value)
  {
    var s2 := PassOne(cfg, s1, RecoverExpired, id, env).value;
    OneRowStaysCounted(cfg, s1, id, env);
    assert (order + [id])[..|order|] == order;
    forall k
      ensures Get(s2.counters, k).pending == Get(s.counters, k).pending + PendingChanges(cfg, s.jobs, order + [id], env, k)
    {
      OneRowMoves(cfg, s1, id, env, k);
      SameRowSameChange(cfg, s.jobs, s1.jobs, id, env, k);
    }
  }

  lemma SameRowSameChange(cfg: Settings, a: map<nat, Record>, b: map<nat, Record>, id: nat, env: Env, k: Scope)
    requires (id in b <==> id in a) && (id in a ==> b[id] == a[id])
    ensures PendingChange(cfg, b, id, env, k) == PendingChange(cfg, a, id, env, k)
    ensures SentBack(cfg, b, id, env) == SentBack(cfg, a, id, env)
  {
  }

  lemma RoomIsRoom(cfg: Settings, s: State, order: seq<nat>, id: nat, env: Env, s1: State)
    requires Reached(cfg, s, order, env, s1)
    requires (id in s1.jobs <==> id in s.jobs) && (id in s.jobs ==> s1.jobs[id] == s.jobs[id])
    ensures PassOne(cfg, s1, RecoverExpired, id, env).Ok? <==> FindsRoom(cfg, s, order + [id], |order|, env)
    ensures PassOne(cfg, s1, RecoverExpired, id, env).Raised? ==> PassOne(cfg, s1, RecoverExpired, id, env) == Raised(429)
  {
    OneRowRecovers(cfg, s1, id, env);
    if id in s.jobs {
      SameRowSameChange(cfg, s.jobs, s1.jobs, id, env, GlobalScope);
    }
    assert (order + [id])[..|order|] == order && (order + [id])[|order|] == id;
  }

  lemma RoomOfFront(cfg: Settings, s: State, order: seq<nat>, id: nat, env: Env)
    ensures AllFindRoom(cfg, s, order + [id], env) <==>
            AllFindRoom(cfg, s, order, env) && FindsRoom(cfg, s, order + [id], |order|, env)
  {
    forall i | 0 <= i < |order|
      ensures FindsRoom(cfg, s, order + [id], i, env) <==> FindsRoom(cfg, s, order, i, env)
    {
      assert (order + [id])[..i] == order[..i] && (order + [id])[i] == order[i];
    }
  }

  lemma {:induction false} PassFindsRoom(cfg: Settings, s: State, order: seq<nat>, env: Env)
    requires Counted(cfg, s) && Distinct(order)
    ensures RunPass(cfg, s, RecoverExpired, order, env) == Raised(429) || RunPass(cfg, s, RecoverExpired, order, env).Ok?
    ensures RunPass(cfg, s, RecoverExpired, order, env).Ok? <==> AllFindRoom(cfg, s, order, env)
    ensures RunPass(cfg, s, RecoverExpired, order, env).Ok? ==>
              Reached(cfg, s, order, env, RunPass(cfg, s, RecoverExpired, order, env).value)
    decreases |order|
  {
    if order != [] {
      var front, id := order[..|order| - 1], order[|order| - 1];
      assert order == front + [id] && Distinct(front) && id !in front;
      PassFindsRoom(cfg, s, front, env);
      LastRowLast(cfg, s, RecoverExpired, front, id, env);
      RoomOfFront(cfg, s, front, id, env);
      var before := RunPass(cfg, s, RecoverExpired, front, env);
      if before.Ok? {
        PassIsPointwise(cfg, s, RecoverExpired, front, env);
        RoomIsRoom(cfg, s, front, id, env, before.value);
        if PassOne(cfg, before.value, RecoverExpired, id, env).Ok? {
          ReachedOneMore(cfg, s, front, id, env, before.value);
        }
      }
    }
  }

  // In a run without provider sessions a recovery pass goes through if and only if
  // each row it sends back finds a free pending slot in all its scopes, counting
  // the slots that rows before it took and gave up. Refused, it is refused with
  // 429.
  lemma RecoveryCompletesIff(cfg: Settings, steps: seq<Step>, order: seq<nat>, env: Env)
    requires ValidSettings(cfg) && IsRun(cfg, EMPTY, steps) && SubmitsNoSession(steps) && Distinct(order)
    ensures var s := After(cfg, EMPTY, steps);
            && (RunPass(cfg, s, RecoverExpired, order, env).Ok? <==> AllFindRoom(cfg, s, order, env))
            && (RunPass(cfg, s, RecoverExpired, order, env).Raised? ==> RunPass(cfg, s, RecoverExpired, order, env) == Raised(429))
  {
    EmptyIsCounted(cfg);
    RunsKeepCounts(cfg, EMPTY, steps);
    PassFindsRoom(cfg, After(cfg, EMPTY, steps), order, env);
  }
}
