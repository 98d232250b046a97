// What a model route rests on: the evidence of its promotion, by the columns of the
// evaluation run and of the model, and what a rollback may restore.

module RouteEvidence {
  import opened Outcomes
  import opened ModelRoutes

  // A completed, eligible evaluation under the current policy, on current datasets,
  // of the current task and prompt.
  predicate Proves(auth: Authority, run: Run) {
    && run.completed && run.eligible
    && run.policy == auth.policy && run.dataset in auth.datasets && run.adversarialDataset in auth.datasets
    && run.scope.task == auth.task && run.scope.taskVersion == auth.taskVersion && run.prompt == auth.prompt
  }

  predicate InService(reg: Registry, model: nat) {
    model in reg.models && reg.models[model].lifecycle != Retired && reg.models[model].evaluated
  }

  // What may be promoted.
  predicate Earned(reg: Registry, auth: Authority, run: nat) {
    run in reg.runs && Proves(auth, reg.runs[run]) && InService(reg, reg.runs[run].candidate)
  }

  // Nothing is written in any scope but one.
  ghost predicate OnlyScope(reg: Registry, reg': Registry, scope: Scope) {
    forall s :: s != scope ==> AssignmentOf(reg', s) == AssignmentOf(reg, s) && RowsOf(reg', s) == RowsOf(reg, s)
  }

  // One row is added to the history of a scope, and the assignment moved there.
  ghost predicate Moves(reg: Registry, reg': Registry, scope: Scope, action: Action, to: Option<nat>, run: nat) {
    var before := AssignmentOf(reg, scope);
    && AssignmentOf(reg', scope) == Assignment(to, before.generation + 1)
    && RowsOf(reg', scope) == RowsOf(reg, scope) + [Row(action, before.active, to, run, before.generation + 1)]
    && OnlyScope(reg, reg', scope)
  }

  // A promotion is refused unless an administrator asks for a run that has earned
  // it; it is idle for the run that is active already; otherwise it adds a route
  // with the next version, marks the models and moves the assignment there.
  lemma PromotionOutcome(reg: Registry, auth: Authority, run: nat, admin: bool, id: nat)
    requires Coherent(reg) && id !in reg.routes
    ensures var outcome := Promote(reg, auth, run, admin, id);
            if !admin || !Earned(reg, auth, run) then
              outcome == Outcome(reg, Raised(409))
            else
              var evidence := reg.runs[run];
              var active := AssignmentOf(reg, evidence.scope).active;
              if active.Some? && active.value in reg.routes && reg.routes[active.value].run == run then
                outcome == Outcome(reg, Ok(active))
              else
                && outcome.active == Ok(Some(id))
                && outcome.reg.runs == reg.runs
                && Moves(reg, outcome.reg, evidence.scope, PromotedAction, Some(id), run)
                && id in outcome.reg.routes && outcome.reg.routes == reg.routes[id := outcome.reg.routes[id]]
                && NewRoute(reg, outcome.reg.routes[id], evidence, run, active)
                && (active.Some? ==> active.value in reg.routes)
                && PromotionMarks(reg, outcome.reg, evidence.candidate, active)
  {
    if admin && Earned(reg, auth, run) {
      ActiveIsRoute(reg, reg.runs[run].scope);
    }
  }

  ghost predicate NewRoute(reg: Registry, route: Route, evidence: Run, run: nat, active: Option<nat>) {
    && route.scope == evidence.scope && route.model == evidence.candidate && route.prompt == evidence.prompt
    && route.run == run && route.previous == active
    && (forall r :: r in reg.routes && reg.routes[r].scope == evidence.scope ==> reg.routes[r].version < route.version)
    && (route.version == 1 || exists r :: r in reg.routes && reg.routes[r].scope == evidence.scope && reg.routes[r].version + 1 == route.version)
  }

  // The promoted model is marked so, and then the model of the route it replaces as
  // rolled back.
  ghost predicate PromotionMarks(reg: Registry, reg': Registry, model: nat, replaced: Option<nat>)
    requires replaced.Some? ==> replaced.value in reg.routes
  {
    forall m :: m in reg.models || m in reg'.models ==>
      && m in reg.models && m in reg'.models
      && var was, now := reg.models[m], reg'.models[m];
         now == was.(lifecycle := if m == model then PromotedOnce else was.lifecycle,
                     promotion := if replaced.Some? && reg.routes[replaced.value].model == m then RolledBack
                                  else if m == model then Promoted else was.promotion)
  }

  // The route before this one, if it could be promoted again today.
  ghost predicate Restorable(reg: Registry, auth: Authority, route: Route) {
    route.previous.Some? && route.previous.value in reg.routes
    && var p := reg.routes[route.previous.value];
       && p.scope == Scope(auth.task, auth.taskVersion, route.scope.environment) && p.prompt == auth.prompt
       && p.run in reg.runs && Proves(auth, reg.runs[p.run]) && reg.runs[p.run].candidate == p.model
       && InService(reg, p.model)
  }

  // A rollback of a route that is not active is idle; of the active one it moves the
  // assignment to the route before, if that could be promoted today, or to none.
  lemma RollbackOutcome(reg: Registry, auth: Authority, id: nat, admin: bool)
    requires Coherent(reg)
    ensures var outcome := Rollback(reg, auth, id, admin);
            if !admin || id !in reg.routes then
              outcome == Outcome(reg, Raised(409))
            else
              var route := reg.routes[id];
              var active := AssignmentOf(reg, route.scope).active;
              if active != Some(id) then
                outcome == Outcome(reg, Ok(active))
              else
                var restored := if Restorable(reg, auth, route) then route.previous else None;
                && outcome.active == Ok(restored)
                && outcome.reg.runs == reg.runs && outcome.reg.routes == reg.routes
                && Moves(reg, outcome.reg, route.scope, RolledBackAction, restored, route.run)
                && RollbackMarks(reg, outcome.reg, route.model, restored)
  {
    if id in reg.routes {
      assert PreviousIsOlder(reg.routes, reg.routes[id]);
    }
  }

  // The model rolled back is marked so, and then the restored one as promoted.
  ghost predicate RollbackMarks(reg: Registry, reg': Registry, model: nat, restored: Option<nat>)
    requires restored.Some? ==> restored.value in reg.routes
  {
    forall m :: m in reg.models || m in reg'.models ==>
      && m in reg.models && m in reg'.models
      && var was, now := reg.models[m], reg'.models[m];
         if restored.Some? && reg.routes[restored.value].model == m
         then now == was.(lifecycle := PromotedOnce, promotion := Promoted)
         else now == was.(promotion := if m == model then RolledBack else was.promotion)
  }

  // ---- whole histories ----

  // The event promoted the route, on evidence that had earned it at that time.
  ghost predicate PromotedBy(reg: Registry, e: Event, id: nat, route: Route) {
    && e.PromotionAsked? && e.admin && e.id == id
    && Earned(reg, e.auth, e.run)
    && route.run == e.run && route.scope == reg.runs[e.run].scope && route.model == reg.runs[e.run].candidate
    && route.prompt == reg.runs[e.run].prompt && route.previous == AssignmentOf(reg, route.scope).active
  }

  lemma StepRoutes(reg: Registry, e: Event, id: nat)
    requires Coherent(reg) && id in Happen(reg, e).routes
    ensures (id in reg.routes && reg.routes[id] == Happen(reg, e).routes[id]) || PromotedBy(reg, e, id, Happen(reg, e).routes[id])
  {
    match e
    case PromotionAsked(auth, run, admin, added) => if added !in reg.routes { PromotionOutcome(reg, auth, run, admin, added); }
    case RollbackAsked(auth, route, admin) => RollbackOutcome(reg, auth, route, admin);
    case Evaluated(_, _) =>
  }

  // In every history, every route was promoted by an administrator on evidence that
  // had earned it: no ineligible, incomplete or outdated evaluation is ever routed.
  lemma {:induction false} RoutesAreEarned(events: seq<Event>, id: nat)
    requires id in After(EMPTY, events).routes
    ensures exists j :: 0 <= j < |events| && PromotedBy(After(EMPTY, events[..j]), events[j], id, After(EMPTY, events).routes[id])
  {
    var front, last := events[..|events| - 1], events[|events| - 1];
    var reg := After(EMPTY, front);
    HistoriesAreCoherent(front);
    StepRoutes(reg, last, id);
    if id in reg.routes && reg.routes[id] == After(EMPTY, events).routes[id] {
      RoutesAreEarned(front, id);
      var j :| 0 <= j < |front| && PromotedBy(After(EMPTY, front[..j]), front[j], id, reg.routes[id]);
      assert front[..j] == events[..j] && front[j] == events[j];
    } else {
      assert events[..|front|] == front && events[|front|] == last;
    }
  }

  // An evaluation is recorded, and its candidate may be routed from then on; one
  // that was routed before, or rolled back, stays so.
  lemma EvaluationOutcome(reg: Registry, id: nat, run: Run)
    ensures var reg' := Evaluate(reg, id, run);
            && reg' == reg.(runs := reg.runs[id := run], models := reg'.models)
            && run.candidate in reg'.models && reg'.models == reg.models[run.candidate := reg'.models[run.candidate]]
            && reg'.models[run.candidate] ==
               if run.candidate !in reg.models then Model(Candidate, true, NotPromoted)
               else Model(if reg.models[run.candidate].lifecycle == PromotedOnce then PromotedOnce else Candidate, true,
                          reg.models[run.candidate].promotion)
  {
  }
}
