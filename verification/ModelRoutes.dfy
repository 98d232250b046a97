// Promotion and rollback of evaluated model routes: llm/evaluation.py:223-381 and
// 561-629, llm/evaluation_authority.py:57-99.

module ModelRoutes {
  import opened Outcomes

  datatype Scope = Scope(task: string, taskVersion: string, environment: string)

  datatype Run = Run(
    scope: Scope, prompt: string, candidate: nat,
    completed: bool, eligible: bool, policy: string, dataset: nat, adversarialDataset: nat)

  datatype Route = Route(scope: Scope, version: nat, model: nat, prompt: string, run: nat, previous: Option<nat>)

  datatype Lifecycle = Registered | Candidate | PromotedOnce | Retired

  datatype Promotion = NotPromoted | Promoted | RolledBack

  datatype Model = Model(lifecycle: Lifecycle, evaluated: bool, promotion: Promotion)

  datatype Assignment = Assignment(active: Option<nat>, generation: nat)

  datatype Action = PromotedAction | RolledBackAction

  datatype Row = Row(action: Action, from: Option<nat>, to: Option<nat>, run: nat, generation: nat)

  // The rows of all route tables. The transition rows of an assignment are kept
  // in the order they were added.
  datatype Registry = Registry(
    runs: map<nat, Run>, models: map<nat, Model>, routes: map<nat, Route>,
    assignments: map<Scope, Assignment>, transitions: map<Scope, seq<Row>>)

  const EMPTY := Registry(map[], map[], map[], map[], map[])

  // What the code owns at the time of a call: the task, the prompt, the promotion
  // policy, and the dataset rows that match the checked-in corpora.
  datatype Authority = Authority(task: string, taskVersion: string, prompt: string, policy: string, datasets: set<nat>)

  // has_current_promotable_evaluation_evidence
  predicate CurrentEvidence(auth: Authority, run: Run, candidate: nat) {
    && run.scope.task == auth.task && run.scope.taskVersion == auth.taskVersion
    && run.candidate == candidate && run.prompt == auth.prompt
    && run.completed && run.eligible && run.policy == auth.policy
    && run.dataset in auth.datasets && run.adversarialDataset in auth.datasets
  }

  predicate Usable(models: map<nat, Model>, id: nat) {
    id in models && !models[id].lifecycle.Retired? && models[id].evaluated
  }

  // The checks before a promotion.
  predicate Promotable(reg: Registry, auth: Authority, run: nat) {
    && run in reg.runs
    && CurrentEvidence(auth, reg.runs[run], reg.runs[run].candidate)
    && Usable(reg.models, reg.runs[run].candidate)
  }

  function AssignmentOf(reg: Registry, scope: Scope): Assignment {
    if scope in reg.assignments then reg.assignments[scope] else Assignment(None, 0)
  }

  function RowsOf(reg: Registry, scope: Scope): seq<Row> {
    if scope in reg.transitions then reg.transitions[scope] else []
  }

  // The largest route version in a scope, zero when it has none.
  ghost function LatestVersion(routes: map<nat, Route>, scope: Scope): (m: nat)
    ensures forall id :: id in routes && routes[id].scope == scope ==> routes[id].version <= m
    ensures m == 0 || exists id :: id in routes && routes[id].scope == scope && routes[id].version == m
  {
    var versions := set id | id in routes && routes[id].scope == scope :: routes[id].version;
    assert forall id :: id in routes && routes[id].scope == scope ==> routes[id].version in versions;
    MaxOf(versions)
  }

  // ---- the two operations ----

  datatype Outcome = Outcome(reg: Registry, active: Result<Option<nat>>)

  // _mark_route_model_rolled_back
  function MarkRolledBack(models: map<nat, Model>, routes: map<nat, Route>, route: nat): map<nat, Model> {
    if route in routes && routes[route].model in models
    then models[routes[route].model := models[routes[route].model].(promotion := RolledBack)]
    else models
  }

  function MarkPromoted(models: map<nat, Model>, model: nat): map<nat, Model> {
    if model in models then models[model := models[model].(lifecycle := PromotedOnce, promotion := Promoted)] else models
  }

  // Moves the assignment of a scope and records the move.
  function Reassign(reg: Registry, scope: Scope, action: Action, to: Option<nat>, run: nat): Registry {
    var before := AssignmentOf(reg, scope);
    var after := Assignment(to, before.generation + 1);
    reg.(assignments := reg.assignments[scope := after],
         transitions := reg.transitions[scope := RowsOf(reg, scope) + [Row(action, before.active, to, run, after.generation)]])
  }

  // promote_evaluation_route, for a route id nobody uses yet.
  ghost function Promote(reg: Registry, auth: Authority, run: nat, admin: bool, id: nat): Outcome {
    if !admin || !Promotable(reg, auth, run) then
      Outcome(reg, Raised(409))
    else
      var evidence := reg.runs[run];
      var active := AssignmentOf(reg, evidence.scope).active;
      if active.Some? && active.value in reg.routes && reg.routes[active.value].run == run then
        Outcome(reg, Ok(active))
      else
        var route := Route(evidence.scope, LatestVersion(reg.routes, evidence.scope) + 1, evidence.candidate, evidence.prompt, run, active);
        var routes := reg.routes[id := route];
        var promoted := MarkPromoted(reg.models, evidence.candidate);
        var models := if active.Some? then MarkRolledBack(promoted, routes, active.value) else promoted;
        Outcome(Reassign(reg.(routes := routes, models := models), evidence.scope, PromotedAction, Some(id), run), Ok(Some(id)))
  }

  // _valid_previous_route_id
  function ValidPrevious(reg: Registry, auth: Authority, route: Route): Option<nat> {
    if route.previous.None? || route.previous.value !in reg.routes then
      None
    else
      var previous := reg.routes[route.previous.value];
      if && previous.scope == Scope(auth.task, auth.taskVersion, route.scope.environment)
         && previous.prompt == auth.prompt
         && previous.run in reg.runs && CurrentEvidence(auth, reg.runs[previous.run], previous.model)
         && Usable(reg.models, previous.model)
      then route.previous
      else None
  }

  // rollback_route
  function Rollback(reg: Registry, auth: Authority, id: nat, admin: bool): Outcome {
    if !admin || id !in reg.routes then
      Outcome(reg, Raised(409))
    else
      var route := reg.routes[id];
      var active := AssignmentOf(reg, route.scope).active;
      if active != Some(id) then
        Outcome(reg, Ok(active))
      else
        var restored := ValidPrevious(reg, auth, route);
        var moved := Reassign(reg, route.scope, RolledBackAction, restored, route.run);
        var models := MarkRolledBack(reg.models, reg.routes, id);
        Outcome(moved.(models := if restored.Some? && restored.value in reg.routes
                                 then MarkPromoted(models, reg.routes[restored.value].model) else models),
                Ok(restored))
  }

  // run_model_evaluation, seen from here: a new run, and its candidate evaluated.
  function Evaluate(reg: Registry, id: nat, run: Run): Registry {
    var model := if run.candidate in reg.models then reg.models[run.candidate] else Model(Registered, false, NotPromoted);
    reg.(runs := reg.runs[id := run],
         models := reg.models[run.candidate := model.(
           lifecycle := if model.lifecycle.PromotedOnce? then PromotedOnce else Candidate, evaluated := true)])
  }

  // ---- the history of a scope ----

  // The rows start from no route, each starts where the one before ended, and
  // they are numbered from one.
  ghost predicate Chained(rows: seq<Row>) {
    && (rows != [] ==> rows[0].from.None?)
    && (forall i :: 0 < i < |rows| ==> rows[i].from == rows[i - 1].to)
    && (forall i :: 0 <= i < |rows| ==> rows[i].generation == i + 1)
  }

  // Where a history ends.
  function Fold(rows: seq<Row>): Option<nat> {
    if rows == [] then None else rows[|rows| - 1].to
  }

  ghost predicate ScopeCoherent(reg: Registry, scope: Scope) {
    var assignment, rows := AssignmentOf(reg, scope), RowsOf(reg, scope);
    && Chained(rows) && assignment.generation == |rows| && assignment.active == Fold(rows)
    && (forall i :: 0 <= i < |rows| && rows[i].to.Some? ==>
          rows[i].to.value in reg.routes && reg.routes[rows[i].to.value].scope == scope)
  }

  ghost predicate RoutesCoherent(reg: Registry) {
    && (forall id :: id in reg.routes ==>
          && reg.routes[id].version > 0
          && reg.routes[id].run in reg.runs && reg.routes[id].model in reg.models
          && PreviousIsOlder(reg.routes, reg.routes[id]))
    && (forall a, b :: a in reg.routes && b in reg.routes && a != b && reg.routes[a].scope == reg.routes[b].scope ==>
          reg.routes[a].version != reg.routes[b].version)
  }

  ghost predicate PreviousIsOlder(routes: map<nat, Route>, route: Route) {
    route.previous.Some? ==>
      && route.previous.value in routes
      && routes[route.previous.value].scope == route.scope
      && routes[route.previous.value].version < route.version
  }

  ghost predicate Coherent(reg: Registry) {
    RoutesCoherent(reg) && forall scope :: ScopeCoherent(reg, scope)
  }

  lemma OneMoreRow(rows: seq<Row>, row: Row)
    requires Chained(rows) && row.from == Fold(rows) && row.generation == |rows| + 1
    ensures Chained(rows + [row]) && Fold(rows + [row]) == row.to
  {
  }

  lemma ReassignedScope(reg: Registry, scope: Scope, action: Action, to: Option<nat>, run: nat)
    requires ScopeCoherent(reg, scope)
    requires to.Some? ==> to.value in reg.routes && reg.routes[to.value].scope == scope
    ensures ScopeCoherent(Reassign(reg, scope, action, to, run), scope)
  {
    var rows := RowsOf(reg, scope);
    var row := Row(action, Fold(rows), to, run, |rows| + 1);
    OneMoreRow(rows, row);
    assert RowsOf(Reassign(reg, scope, action, to, run), scope) == rows + [row];
  }

  lemma ReassignIsCoherent(reg: Registry, scope: Scope, action: Action, to: Option<nat>, run: nat)
    requires forall s :: ScopeCoherent(reg, s)
    requires to.Some? ==> to.value in reg.routes && reg.routes[to.value].scope == scope
    ensures forall s :: ScopeCoherent(Reassign(reg, scope, action, to, run), s)
  {
    forall s
      ensures ScopeCoherent(Reassign(reg, scope, action, to, run), s)
    {
      assert ScopeCoherent(reg, s);
      if s == scope {
        ReassignedScope(reg, scope, action, to, run);
      }
    }
  }

  lemma NewRouteFits(reg: Registry, id: nat, route: Route)
    requires Coherent(reg) && id !in reg.routes
    requires route.version == LatestVersion(reg.routes, route.scope) + 1
    requires route.previous == AssignmentOf(reg, route.scope).active
    ensures PreviousIsOlder(reg.routes[id := route], route)
    ensures forall i :: i in reg.routes && reg.routes[i].scope == route.scope ==> reg.routes[i].version != route.version
  {
    assert ScopeCoherent(reg, route.scope);
  }

  lemma NewRouteIsCoherent(reg: Registry, id: nat, route: Route, models: map<nat, Model>)
    requires Coherent(reg) && id !in reg.routes
    requires PreviousIsOlder(reg.routes[id := route], route) && route.version > 0
    requires forall i :: i in reg.routes && reg.routes[i].scope == route.scope ==> reg.routes[i].version != route.version
    requires route.run in reg.runs && route.model in models && reg.models.Keys <= models.Keys
    ensures Coherent(reg.(routes := reg.routes[id := route], models := models))
  {
    var reg' := reg.(routes := reg.routes[id := route], models := models);
    forall i | i in reg.routes
      ensures PreviousIsOlder(reg'.routes, reg.routes[i])
    {
      assert PreviousIsOlder(reg.routes, reg.routes[i]);
    }
    forall s
      ensures ScopeCoherent(reg', s)
    {
      assert ScopeCoherent(reg, s);
    }
  }

  lemma PromoteIsCoherent(reg: Registry, auth: Authority, run: nat, admin: bool, id: nat)
    requires Coherent(reg) && id !in reg.routes
    ensures Coherent(Promote(reg, auth, run, admin, id).reg)
  {
    var outcome := Promote(reg, auth, run, admin, id);
    if outcome.reg != reg {
      var reg' := outcome.reg;
      var scope := reg.runs[run].scope;
      var active := AssignmentOf(reg, scope).active;
      NewRouteFits(reg, id, reg'.routes[id]);
      NewRouteIsCoherent(reg, id, reg'.routes[id], reg'.models);
      var grown := reg.(routes := reg'.routes, models := reg'.models);
      ReassignIsCoherent(grown, scope, PromotedAction, Some(id), run);
      assert reg' == Reassign(grown, scope, PromotedAction, Some(id), run);
    }
  }

  lemma ActiveIsRoute(reg: Registry, scope: Scope)
    requires Coherent(reg)
    ensures var active := AssignmentOf(reg, scope).active;
            active.Some? ==> active.value in reg.routes && reg.routes[active.value].scope == scope
  {
    assert ScopeCoherent(reg, scope);
  }

  lemma RollbackIsCoherent(reg: Registry, auth: Authority, id: nat, admin: bool)
    requires Coherent(reg)
    ensures Coherent(Rollback(reg, auth, id, admin).reg)
  {
    var reg' := Rollback(reg, auth, id, admin).reg;
    if reg' != reg {
      var route := reg.routes[id];
      assert PreviousIsOlder(reg.routes, route);
      var restored := ValidPrevious(reg, auth, route);
      var moved := Reassign(reg, route.scope, RolledBackAction, restored, route.run);
      ReassignIsCoherent(reg, route.scope, RolledBackAction, restored, route.run);
      ModelsAreBeside(moved, reg'.models);
    }
  }

  lemma ModelsAreBeside(reg: Registry, models: map<nat, Model>)
    requires Coherent(reg) && reg.models.Keys <= models.Keys
    ensures Coherent(reg.(models := models))
  {
    forall s
      ensures ScopeCoherent(reg.(models := models), s)
    {
      assert ScopeCoherent(reg, s);
    }
  }

  lemma EvaluateIsCoherent(reg: Registry, id: nat, run: Run)
    requires Coherent(reg)
    ensures Coherent(Evaluate(reg, id, run))
  {
    var reg' := Evaluate(reg, id, run);
    ModelsAreBeside(reg, reg'.models);
    forall s
      ensures ScopeCoherent(reg', s)
    {
      assert ScopeCoherent(reg.(models := reg'.models), s);
    }
  }

  // ---- whole histories ----

  datatype Event =
    | Evaluated(id: nat, evidence: Run)
    | PromotionAsked(auth: Authority, run: nat, admin: bool, id: nat)
    | RollbackAsked(auth: Authority, route: nat, admin: bool)

  ghost function Happen(reg: Registry, e: Event): Registry {
    match e
    case Evaluated(id, run) => if id in reg.runs then reg else Evaluate(reg, id, run)
    case PromotionAsked(auth, run, admin, id) => if id in reg.routes then reg else Promote(reg, auth, run, admin, id).reg
    case RollbackAsked(auth, route, admin) => Rollback(reg, auth, route, admin).reg
  }

  ghost function After(reg: Registry, events: seq<Event>): Registry {
    if events == [] then reg else Happen(After(reg, events[..|events| - 1]), events[|events| - 1])
  }

  // In every history: an assignment's generation is the number of its transition
  // rows, the rows chain and end at the active route, and every previous pointer
  // leads to an older route of the same scope.
  lemma {:induction false} HistoriesAreCoherent(events: seq<Event>)
    ensures Coherent(After(EMPTY, events))
  {
    if events != [] {
      var reg := After(EMPTY, events[..|events| - 1]);
      HistoriesAreCoherent(events[..|events| - 1]);
      match events[|events| - 1]
      case Evaluated(id, run) => EvaluateIsCoherent(reg, id, run);
      case PromotionAsked(auth, run, admin, id) => if id !in reg.routes { PromoteIsCoherent(reg, auth, run, admin, id); }
      case RollbackAsked(auth, route, admin) => RollbackIsCoherent(reg, auth, route, admin);
    } else {
      forall s
        ensures ScopeCoherent(EMPTY, s)
      {
      }
    }
  }

  // ---- what the operations promise ----

  // In every history, promoting a promotable run changes nothing exactly when the
  // active route of its scope is one of that run, whether a promotion made it
  // active or a rollback restored it; that route is then the answer.
  lemma PromotingActiveChangesNothingIff(events: seq<Event>, auth: Authority, run: nat, id: nat)
    requires Promotable(After(EMPTY, events), auth, run) && id !in After(EMPTY, events).routes
    ensures var reg := After(EMPTY, events);
            var active := AssignmentOf(reg, reg.runs[run].scope).active;
            && (active.Some? ==> active.value in reg.routes)
            && (Promote(reg, auth, run, true, id).reg == reg <==> active.Some? && reg.routes[active.value].run == run)
            && (active.Some? && reg.routes[active.value].run == run ==> Promote(reg, auth, run, true, id).active == Ok(active))
  {
    var reg := After(EMPTY, events);
    HistoriesAreCoherent(events);
    ActiveIsRoute(reg, reg.runs[run].scope);
    var reg' := Promote(reg, auth, run, true, id).reg;
    assert reg' != reg ==> id in reg'.routes;
  }

  // Whether the route that is active now could still be restored.
  predicate StillCurrent(reg: Registry, auth: Authority, scope: Scope, route: nat) {
    && route in reg.routes
    && var r := reg.routes[route];
       && r.scope == Scope(auth.task, auth.taskVersion, scope.environment) && r.prompt == auth.prompt
       && r.run in reg.runs && CurrentEvidence(auth, reg.runs[r.run], r.model)
       && Usable(reg.models, r.model)
  }

  // Rolling back right after a promotion restores what was active before exactly
  // when that was nothing or its evidence is still current; otherwise nothing is
  // active. Both moves stay on record.
  lemma RollbackUndoesPromotion(reg: Registry, auth: Authority, run: nat, id: nat)
    requires Coherent(reg) && id !in reg.routes
    requires Promote(reg, auth, run, true, id).active == Ok(Some(id))
    ensures var scope := reg.runs[run].scope;
            var before := AssignmentOf(reg, scope);
            var reg' := Promote(reg, auth, run, true, id).reg;
            var back := Rollback(reg', auth, id, true);
            var after := AssignmentOf(back.reg, scope);
            && (after.active == before.active <==> before.active.None? || StillCurrent(reg, auth, scope, before.active.value))
            && (after.active != before.active ==> after.active.None?)
            && after.generation == before.generation + 2
            && RowsOf(reg, scope) < RowsOf(back.reg, scope)
  {
    var scope := reg.runs[run].scope;
    var reg' := Promote(reg, auth, run, true, id).reg;
    ActiveIsRoute(reg, scope);
    var before := AssignmentOf(reg, scope);
    PromotedRoute(reg, auth, run, id);
    if before.active.Some? {
      UsableStays(reg, auth, run, id, reg.routes[before.active.value].model);
    }
  }

  lemma PromotedRoute(reg: Registry, auth: Authority, run: nat, id: nat)
    requires Coherent(reg) && id !in reg.routes
    requires Promote(reg, auth, run, true, id).active == Ok(Some(id))
    ensures var reg' := Promote(reg, auth, run, true, id).reg;
            var scope := reg.runs[run].scope;
            && id in reg'.routes && reg'.routes[id].scope == scope && reg'.routes[id].previous == AssignmentOf(reg, scope).active
            && (forall r :: r in reg.routes ==> r in reg'.routes && reg'.routes[r] == reg.routes[r])
            && reg'.runs == reg.runs
            && AssignmentOf(reg', scope) == Assignment(Some(id), AssignmentOf(reg, scope).generation + 1)
            && RowsOf(reg, scope) < RowsOf(reg', scope)
  {
    ActiveIsRoute(reg, reg.runs[run].scope);
  }

  // A promotion makes no other model unusable.
  lemma UsableStays(reg: Registry, auth: Authority, run: nat, id: nat, model: nat)
    requires id !in reg.routes
    ensures Usable(Promote(reg, auth, run, true, id).reg.models, model) <==> Usable(reg.models, model)
  {
  }

  // One rollback of whatever is active in a scope.
  function RollbackActive(reg: Registry, auth: Authority, scope: Scope): Registry {
    var active := AssignmentOf(reg, scope).active;
    if active.None? then reg else Rollback(reg, auth, active.value, true).reg
  }

  // The version of the active route, zero when there is none.
  function ActiveVersion(reg: Registry, scope: Scope): nat {
    var active := AssignmentOf(reg, scope).active;
    if active.Some? && active.value in reg.routes then reg.routes[active.value].version else 0
  }

  lemma RollbackDescends(reg: Registry, auth: Authority, scope: Scope)
    requires Coherent(reg)
    ensures Coherent(RollbackActive(reg, auth, scope))
    ensures ActiveVersion(reg, scope) > 0 ==> ActiveVersion(RollbackActive(reg, auth, scope), scope) < ActiveVersion(reg, scope)
    ensures ActiveVersion(reg, scope) == 0 <==> AssignmentOf(reg, scope).active.None?
  {
    ActiveIsRoute(reg, scope);
    var active := AssignmentOf(reg, scope).active;
    if active.Some? {
      RollbackIsCoherent(reg, auth, active.value, true);
      assert PreviousIsOlder(reg.routes, reg.routes[active.value]);
    }
  }

  function RollbackAll(reg: Registry, auths: seq<Authority>, scope: Scope): Registry
    decreases |auths|
  {
    if auths == [] then reg else RollbackAll(RollbackActive(reg, auths[0], scope), auths[1..], scope)
  }

  // Rolling back again and again, whatever evidence is current at each time,
  // leaves the scope without a route after at most as many steps as the version
  // of the active route.
  lemma {:induction false} RollbackReachesNone(reg: Registry, auths: seq<Authority>, scope: Scope)
    requires Coherent(reg)
    requires |auths| >= ActiveVersion(reg, scope)
    ensures AssignmentOf(RollbackAll(reg, auths, scope), scope).active.None?
    decreases |auths|
  {
    if auths == [] {
      ActiveIsRoute(reg, scope);
    } else {
      RollbackDescends(reg, auths[0], scope);
      RollbackReachesNone(RollbackActive(reg, auths[0], scope), auths[1..], scope);
    }
  }

  function ModelOf(reg: Registry, route: Option<nat>): Option<nat> {
    if route.Some? && route.value in reg.routes then Some(reg.routes[route.value].model) else None
  }

  // A promotion leaves its own model marked as promoted exactly when it does not
  // replace a route of the same model: the model of the replaced route is marked
  // last, as rolled back.
  lemma PromotedModelIsMarkedIff(reg: Registry, auth: Authority, run: nat, id: nat)
    requires Coherent(reg) && id !in reg.routes
    requires Promote(reg, auth, run, true, id).active == Ok(Some(id))
    ensures var reg' := Promote(reg, auth, run, true, id).reg;
            var evidence := reg.runs[run];
            var before := AssignmentOf(reg, evidence.scope).active;
            && evidence.candidate in reg'.models
            && (reg'.models[evidence.candidate].promotion == Promoted <==>
                ModelOf(reg, before) != Some(evidence.candidate))
            && reg'.models[evidence.candidate].lifecycle == PromotedOnce
  {
    ActiveIsRoute(reg, reg.runs[run].scope);
  }

  lemma PromotableStays(reg: Registry, auth: Authority, run: nat, id: nat, other: nat)
    requires id !in reg.routes && Promotable(reg, auth, other)
    ensures Promotable(Promote(reg, auth, run, true, id).reg, auth, other)
  {
    UsableStays(reg, auth, run, id, reg.runs[other].candidate);
  }

  // A promotable run that is not the active one gets the route.
  lemma NewRunIsPromoted(reg: Registry, auth: Authority, run: nat, id: nat)
    requires Promotable(reg, auth, run)
    requires var active := AssignmentOf(reg, reg.runs[run].scope).active;
             active.None? || active.value !in reg.routes || reg.routes[active.value].run != run
    ensures Promote(reg, auth, run, true, id).active == Ok(Some(id))
  {
  }

  // Two evaluations of one model, promoted one after the other, leave it marked
  // as rolled back although its route is the active one.
  lemma RepromotedModelIsMarkedRolledBack(reg: Registry, auth: Authority, first: nat, second: nat, a: nat, b: nat)
    requires Coherent(reg) && a !in reg.routes && b !in reg.routes && a != b && first != second
    requires Promotable(reg, auth, first) && Promotable(reg, auth, second)
    requires reg.runs[first].scope == reg.runs[second].scope && reg.runs[first].candidate == reg.runs[second].candidate
    requires Promote(reg, auth, first, true, a).active == Ok(Some(a))
    ensures var reg1 := Promote(reg, auth, first, true, a).reg;
            var outcome := Promote(reg1, auth, second, true, b);
            && outcome.active == Ok(Some(b))
            && reg.runs[second].candidate in outcome.reg.models
            && outcome.reg.models[reg.runs[second].candidate].promotion == RolledBack
  {
    var reg1 := Promote(reg, auth, first, true, a).reg;
    PromoteIsCoherent(reg, auth, first, true, a);
    PromotedRoute(reg, auth, first, a);
    PromotableStays(reg, auth, first, a, second);
    assert reg1.routes[a].run == first && reg1.routes[a].model == reg.runs[first].candidate && b !in reg1.routes;
    NewRunIsPromoted(reg1, auth, second, b);
    PromotedModelIsMarkedIff(reg1, auth, second, b);
  }

  const SAMPLE_AUTHORITY := Authority("task", "1", "prompt", "policy", {1})

  const SAMPLE_RUN := Run(Scope("task", "1", "production"), "prompt", 7, true, true, "policy", 1, 1)

  // One model evaluated twice, and either run promoted.
  function TwicePromoted(): seq<Event> {
    [Evaluated(1, SAMPLE_RUN), Evaluated(2, SAMPLE_RUN),
     PromotionAsked(SAMPLE_AUTHORITY, 1, true, 1), PromotionAsked(SAMPLE_AUTHORITY, 2, true, 2)]
  }

  function TwiceEvaluated(): Registry {
    Registry(map[1 := SAMPLE_RUN, 2 := SAMPLE_RUN], map[7 := Model(Candidate, true, NotPromoted)], map[], map[], map[])
  }

  lemma EvaluationsRegister()
    ensures After(EMPTY, TwicePromoted()[..2]) == TwiceEvaluated()
  {
    var events := TwicePromoted();
    var once := Evaluate(EMPTY, 1, SAMPLE_RUN);
    assert events[..2][..1] == [Evaluated(1, SAMPLE_RUN)] && [Evaluated(1, SAMPLE_RUN)][..0] == [];
    assert After(EMPTY, events[..2][..1]) == once;
    assert once.models == map[7 := Model(Candidate, true, NotPromoted)] && once.runs == map[1 := SAMPLE_RUN];
    assert Evaluate(once, 2, SAMPLE_RUN).models == once.models;
    assert Evaluate(once, 2, SAMPLE_RUN).runs == TwiceEvaluated().runs;
  }

  lemma FirstPromotionWorks()
    ensures var reg := Promote(TwiceEvaluated(), SAMPLE_AUTHORITY, 1, true, 1).reg;
            Promote(TwiceEvaluated(), SAMPLE_AUTHORITY, 1, true, 1).active == Ok(Some(1)) && reg.routes.Keys == {1}
  {
  }

  lemma PromotionsHappen()
    ensures var promoted := Promote(TwiceEvaluated(), SAMPLE_AUTHORITY, 1, true, 1).reg;
            After(EMPTY, TwicePromoted()) == Promote(promoted, SAMPLE_AUTHORITY, 2, true, 2).reg
  {
    var events := TwicePromoted();
    EvaluationsRegister();
    FirstPromotionWorks();
    assert events[..3][..2] == events[..2] && events[..4] == events;
    assert After(EMPTY, events[..3]) == Promote(TwiceEvaluated(), SAMPLE_AUTHORITY, 1, true, 1).reg;
  }

  // The model whose route is active is on record as rolled back.
  lemma RepromotionMarksRolledBackHere()
    ensures var reg := After(EMPTY, TwicePromoted());
            && AssignmentOf(reg, SAMPLE_RUN.scope).active == Some(2)
            && 2 in reg.routes && reg.routes[2].model == 7
            && 7 in reg.models && reg.models[7].promotion == RolledBack
  {
    var evaluated := TwiceEvaluated();
    EvaluationsRegister();
    HistoriesAreCoherent(TwicePromoted()[..2]);
    PromotionsHappen();
    FirstPromotionWorks();
    RepromotedModelIsMarkedRolledBack(evaluated, SAMPLE_AUTHORITY, 1, 2, 1, 2);
    PromoteIsCoherent(evaluated, SAMPLE_AUTHORITY, 1, true, 1);
    PromotedRoute(Promote(evaluated, SAMPLE_AUTHORITY, 1, true, 1).reg, SAMPLE_AUTHORITY, 2, 2);
  }

  // Neither operation touches the assignment or the history of another scope.
  lemma OtherScopesAreUntouched(reg: Registry, auth: Authority, target: nat, admin: bool, id: nat, other: Scope)
    requires target in reg.runs ==> reg.runs[target].scope != other
    ensures AssignmentOf(Promote(reg, auth, target, admin, id).reg, other) == AssignmentOf(reg, other)
    ensures RowsOf(Promote(reg, auth, target, admin, id).reg, other) == RowsOf(reg, other)
    ensures id in reg.routes && reg.routes[id].scope != other ==>
              var back := Rollback(reg, auth, id, admin).reg;
              AssignmentOf(back, other) == AssignmentOf(reg, other) && RowsOf(back, other) == RowsOf(reg, other)
  {
  }

  // ---- the tables, changed row by row ----

  class RouteTables {
    var runs: map<nat, Run>
    var models: map<nat, Model>
    var routes: map<nat, Route>
    var assignments: map<Scope, Assignment>
    var transitions: map<Scope, seq<Row>>

    constructor ()
      ensures Contents() == EMPTY
    {
      runs, models, routes, assignments, transitions := map[], map[], map[], map[], map[];
    }

    function Contents(): Registry
      reads this
    {
      Registry(runs, models, routes, assignments, transitions)
    }

    // select max(route_version)
    method MaxVersion(scope: Scope) returns (m: nat)
      ensures m == LatestVersion(routes, scope)
    {
      m := 0;
      var left := routes.Keys;
      ghost var at: Option<nat> := None;
      while left != {}
        invariant left <= routes.Keys
        invariant forall id :: id in routes && id !in left && routes[id].scope == scope ==> routes[id].version <= m
        invariant if at.Some? then at.value in routes && routes[at.value].scope == scope && routes[at.value].version == m else m == 0
        decreases |left|
      {
        var id :| id in left;
        if routes[id].scope == scope && routes[id].version > m {
          m := routes[id].version;
          at := Some(id);
        }
        left := left - {id};
      }
    }

    // The part both operations share: the assignment and its transition row.
    method MoveTo(scope: Scope, action: Action, to: Option<nat>, run: nat)
      modifies this`assignments, this`transitions
      ensures Contents() == Reassign(old(Contents()), scope, action, to, run)
    {
      var assignment := AssignmentOf(Contents(), scope);
      var from := assignment.active;
      assignment := assignment.(active := to);
      assignment := assignment.(generation := assignment.generation + 1);
      var row := Row(action, from, to, run, assignment.generation);
      transitions := transitions[scope := RowsOf(Contents(), scope) + [row]];
      assignments := assignments[scope := assignment];
    }

    method MarkRouteModelRolledBack(route: nat)
      modifies this`models
      ensures models == MarkRolledBack(old(models), routes, route)
    {
      if route in routes {
        var model := routes[route].model;
        if model in models {
          models := models[model := models[model].(promotion := RolledBack)];
        }
      }
    }

    // promote_evaluation_route
    method PromoteRun(auth: Authority, run: nat, admin: bool, id: nat) returns (active: Result<Option<nat>>)
      requires id !in routes
      modifies this
      ensures Outcome(Contents(), active) == Promote(old(Contents()), auth, run, admin, id)
    {
      if !admin || !Promotable(Contents(), auth, run) {
        return Raised(409);
      }
      var evidence := runs[run];
      var previous := AssignmentOf(Contents(), evidence.scope).active;
      if previous.Some? && previous.value in routes && routes[previous.value].run == run {
        return Ok(previous);
      }
      var latest := MaxVersion(evidence.scope);
      routes := routes[id := Route(evidence.scope, latest + 1, evidence.candidate, evidence.prompt, run, previous)];
      MoveTo(evidence.scope, PromotedAction, Some(id), run);
      models := models[evidence.candidate := models[evidence.candidate].(lifecycle := PromotedOnce, promotion := Promoted)];
      if previous.Some? {
        MarkRouteModelRolledBack(previous.value);
      }
      active := Ok(Some(id));
    }

    // rollback_route
    method RollBack(auth: Authority, id: nat, admin: bool) returns (active: Result<Option<nat>>)
      modifies this
      ensures Outcome(Contents(), active) == Rollback(old(Contents()), auth, id, admin)
    {
      if !admin || id !in routes {
        return Raised(409);
      }
      var route := routes[id];
      var now := AssignmentOf(Contents(), route.scope).active;
      if now != Some(id) {
        return Ok(now);
      }
      var restored := ValidPrevious(Contents(), auth, route);
      MoveTo(route.scope, RolledBackAction, restored, route.run);
      MarkRouteModelRolledBack(id);
      if restored.Some? && restored.value in routes {
        var model := routes[restored.value].model;
        if model in models {
          models := models[model := models[model].(lifecycle := PromotedOnce, promotion := Promoted)];
        }
      }
      active := Ok(restored);
    }
  }
}
