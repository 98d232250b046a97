// The per-scope capacity counters and the daily budget:
// jobs/control_service.py:530-727.

module Capacity {
  import opened Outcomes
  import opened JobRegistry
  import opened JobRows

  // A job type names its provider scope: "controlled:<type>", or the fixed
  // training profile.
  datatype Scope =
    | GlobalScope
    | OrganizationScope(organization: string)
    | ProviderScope(provider: JobType)
    | UserScope(user: string)

  datatype Counter = Counter(pending: nat, running: nat, cost: nat, period: Option<int>)

  type Counters = map<Scope, Counter>

  const ZERO := Counter(0, 0, 0, None)

  // A scope nobody has used yet has no row, which reads as zero.
  function Get(c: Counters, k: Scope): Counter {
    if k in c then c[k] else ZERO
  }

  // _capacity_scopes, in the order its sort gives: by scope type, then id.
  function Scopes(spec: JobSpec): (scopes: seq<Scope>)
    ensures forall i, j :: 0 <= i < j < |scopes| ==> Rank(scopes[i]) < Rank(scopes[j])
  {
    [GlobalScope] +
    (if spec.organization.Some? then [OrganizationScope(spec.organization.value)] else []) +
    [ProviderScope(spec.jobType), UserScope(spec.owner)]
  }

  // The alphabetical order of the scope type names.
  function Rank(k: Scope): nat {
    match k
    case GlobalScope => 0
    case OrganizationScope(_) => 1
    case ProviderScope(_) => 2
    case UserScope(_) => 3
  }

  function PendingLimit(cfg: Settings, k: Scope): nat {
    match k
    case GlobalScope => cfg.globalPending
    case OrganizationScope(_) => cfg.orgPending
    case ProviderScope(t) => if t == TrainingPrepare then Min(cfg.providerPending, 1) else cfg.providerPending
    case UserScope(_) => cfg.userPending
  }

  function RunningLimit(cfg: Settings, k: Scope): nat {
    match k
    case GlobalScope => cfg.globalRunning
    case OrganizationScope(_) => cfg.orgRunning
    case ProviderScope(t) => if t == TrainingPrepare then Min(cfg.providerRunning, 1) else cfg.providerRunning
    case UserScope(_) => cfg.userRunning
  }

  // ---- what the loops over a job's scopes compute ----

  // _get_capacity_record for every scope: missing rows are created empty.
  function Ensure(c: Counters, scopes: seq<Scope>): Counters {
    map k | k in c.Keys + (set x | x in scopes) :: Get(c, k)
  }

  // Every scope moved by the same amounts.
  function Shift(c: Counters, scopes: seq<Scope>, pending: int, running: int): Counters
    requires forall k :: k in scopes ==> Get(c, k).pending + pending >= 0 && Get(c, k).running + running >= 0
  {
    map k | k in c.Keys + (set x | x in scopes) ::
      if k in scopes
      then Get(c, k).(pending := Get(c, k).pending + pending, running := Get(c, k).running + running)
      else Get(c, k)
  }

  predicate HasPendingRoom(cfg: Settings, c: Counters, scopes: seq<Scope>) {
    forall k :: k in scopes ==> Get(c, k).pending < PendingLimit(cfg, k)
  }

  predicate HasRunningRoom(cfg: Settings, c: Counters, scopes: seq<Scope>) {
    forall k :: k in scopes ==> Get(c, k).running < RunningLimit(cfg, k)
  }

  // _reserve_capacity, without the cost part.
  function ReservePending(cfg: Settings, c: Counters, scopes: seq<Scope>): Result<Counters> {
    if HasPendingRoom(cfg, c, scopes) then Ok(Shift(c, scopes, 1, 0)) else Raised(429)
  }

  // The scopes before the first one whose pending count is already zero.
  function Stocked(c: Counters, scopes: seq<Scope>): (n: nat)
    ensures n <= |scopes|
    ensures forall i :: 0 <= i < n ==> Get(c, scopes[i]).pending > 0
    ensures n < |scopes| ==> Get(c, scopes[n]).pending == 0
  {
    if scopes == [] || Get(c, scopes[0]).pending == 0 then 0 else 1 + Stocked(c, scopes[1..])
  }

  datatype RunningMove = SlotsTaken(counters: Counters) | SlotsRefused(counters: Counters, code: nat)

  // move_pending_capacity_to_running. The emptiness test stands inside the
  // updating loop, so a refusal there keeps the scopes already moved.
  function MoveToRunning(cfg: Settings, c: Counters, scopes: seq<Scope>): RunningMove {
    if !HasRunningRoom(cfg, c, scopes) then
      SlotsRefused(Ensure(c, scopes), 429)
    else
      var n := Stocked(c, scopes);
      StockedMembers(c, scopes);
      if n < |scopes| then
        SlotsRefused(Shift(Ensure(c, scopes), scopes[..n], -1, 1), 409)
      else
        SlotsTaken(Shift(c, scopes, -1, 1))
  }

  lemma StockedMembers(c: Counters, scopes: seq<Scope>)
    ensures forall k :: k in scopes[..Stocked(c, scopes)] ==> Get(c, k).pending > 0
    ensures Stocked(c, scopes) == |scopes| ==> forall k :: k in scopes ==> Get(c, k).pending > 0
  {
  }

  // The first scope that refuses to take a running job back, and its code.
  function PendingRefusal(cfg: Settings, c: Counters, scopes: seq<Scope>): (code: Option<nat>)
    ensures code.None? <==> forall k :: k in scopes ==> Get(c, k).running > 0 && Get(c, k).pending < PendingLimit(cfg, k)
    ensures code.Some? && (forall k :: k in scopes ==> Get(c, k).running > 0) ==> code.value == 429
  {
    if scopes == [] then None
    else
      var k := scopes[0];
      assert scopes == [k] + scopes[1..];
      if Get(c, k).running == 0 then Some(409)
      else if Get(c, k).pending >= PendingLimit(cfg, k) then Some(429)
      else PendingRefusal(cfg, c, scopes[1..])
  }

  // move_running_capacity_to_pending
  function MoveToPending(cfg: Settings, c: Counters, scopes: seq<Scope>): Result<Counters> {
    var refusal := PendingRefusal(cfg, c, scopes);
    if refusal.Some? then Raised(refusal.value) else Ok(Shift(c, scopes, 1, -1))
  }

  // release_running_capacity: each scope down by one, never below zero.
  function ReleaseRunningAll(c: Counters, scopes: seq<Scope>): Counters {
    map k | k in c.Keys + (set x | x in scopes) ::
      if k in scopes && Get(c, k).running > 0 then Get(c, k).(running := Get(c, k).running - 1) else Get(c, k)
  }

  // _release_capacity: the same on the pending side; it creates no rows.
  function ReleasePendingAll(c: Counters, scopes: seq<Scope>): Counters {
    map k | k in c ::
      if k in scopes && c[k].pending > 0 then c[k].(pending := c[k].pending - 1) else c[k]
  }

  function ApplyMove(cfg: Settings, c: Counters, scopes: seq<Scope>, move: Move): Result<Counters> {
    match move
    case ToRunning =>
      (match MoveToRunning(cfg, c, scopes)
       case SlotsTaken(c') => Ok(c')
       case SlotsRefused(_, code) => Raised(code))
    case ToPending => MoveToPending(cfg, c, scopes)
    case ReleasePending => Ok(ReleasePendingAll(c, scopes))
    case ReleaseRunning => Ok(ReleaseRunningAll(c, scopes))
  }

  function ApplyMoves(cfg: Settings, c: Counters, scopes: seq<Scope>, moves: seq<Move>): Result<Counters>
    decreases |moves|
  {
    if moves == [] then
      Ok(c)
    else
      var c' :- ApplyMove(cfg, c, scopes, moves[0]);
      ApplyMoves(cfg, c', scopes, moves[1..])
  }

  // ---- the daily budget on the global row ----

  // _reserve_daily_cost
  function ReserveCost(cfg: Settings, c: Counters, today: int, estimate: nat): Result<Counters> {
    var g := Get(c, GlobalScope);
    var spent := if g.period == Some(today) then g.cost else 0;
    if cfg.dailyBudget != 0 && spent + estimate > cfg.dailyBudget then
      Raised(429)
    else
      Ok(c[GlobalScope := g.(cost := spent + estimate, period := Some(today))])
  }

  function ApplyRefund(c: Counters, refund: Refund, today: int): Counters {
    var g := Get(c, GlobalScope);
    match refund
    case NoRefund => c
    case IfPeriodIsToday(amount) =>
      c[GlobalScope := if g.period == Some(today) then g.(cost := Max(0, g.cost - amount)) else g]
    case Always(amount) =>
      if GlobalScope in c then c[GlobalScope := g.(cost := Max(0, g.cost - amount))] else c
  }

  // ---- the lock order ----

  // The scopes in the order the code collects them in, before its sort.
  function CollectedScopes(spec: JobSpec): seq<Scope> {
    [GlobalScope, ProviderScope(spec.jobType), UserScope(spec.owner)] +
    if spec.organization.Some? then [OrganizationScope(spec.organization.value)] else []
  }

  function TypeName(k: Scope): string {
    match k
    case GlobalScope => "global"
    case OrganizationScope(_) => "organization"
    case ProviderScope(_) => "provider"
    case UserScope(_) => "user"
  }

  // The order of Python strings.
  predicate NameBefore(a: string, b: string) {
    if a == "" then b != "" else b != "" && (a[0] < b[0] || (a[0] == b[0] && NameBefore(a[1..], b[1..])))
  }

  // The sort key compares the type names first; a job has no two scopes of one
  // type, so the ids decide nothing.
  ghost predicate IsSorted(scopes: seq<Scope>) {
    forall i, j :: 0 <= i < j < |scopes| ==> !NameBefore(TypeName(scopes[j]), TypeName(scopes[i]))
  }

  lemma NamesFollowRank(a: Scope, b: Scope)
    ensures NameBefore(TypeName(a), TypeName(b)) <==> Rank(a) < Rank(b)
  {
    assert !NameBefore(TypeName(a)[1..], TypeName(a)[1..]) by {
      NotBeforeItself(TypeName(a)[1..]);
    }
  }

  lemma {:induction false} NotBeforeItself(a: string)
    ensures !NameBefore(a, a)
  {
    if a != "" {
      NotBeforeItself(a[1..]);
    }
  }

  lemma {:induction false} SortedIsUnique(a: seq<Scope>, b: seq<Scope>)
    requires multiset(a) == multiset(b)
    requires forall i, j :: 0 <= i < j < |a| ==> Rank(a[i]) < Rank(a[j])
    requires forall i, j :: 0 <= i < j < |b| ==> Rank(b[i]) <= Rank(b[j])
    ensures a == b
  {
    assert |a| == |multiset(a)| == |multiset(b)| == |b|;
    if a != [] {
      FirstIsLeast(a, b);
      assert a == [a[0]] + a[1..] && b == [b[0]] + b[1..];
      assert multiset(a[1..]) == multiset(a) - multiset{a[0]};
      assert multiset(b[1..]) == multiset(b) - multiset{b[0]};
      SortedIsUnique(a[1..], b[1..]);
    }
  }

  lemma FirstIsLeast(a: seq<Scope>, b: seq<Scope>)
    requires a != [] && b != [] && multiset(a) == multiset(b)
    requires forall i, j :: 0 <= i < j < |a| ==> Rank(a[i]) < Rank(a[j])
    requires forall i, j :: 0 <= i < j < |b| ==> Rank(b[i]) <= Rank(b[j])
    ensures a[0] == b[0]
  {
    assert a[0] in multiset(a) && b[0] in multiset(b);
    var i :| 0 <= i < |b| && b[i] == a[0];
    var j :| 0 <= j < |a| && a[j] == b[0];
  }

  // Whatever list the sort makes of the collected scopes, it is the one used here.
  lemma ScopesAreTheSort(spec: JobSpec, sorted: seq<Scope>)
    requires multiset(sorted) == multiset(CollectedScopes(spec)) && IsSorted(sorted)
    ensures sorted == Scopes(spec)
  {
    assert multiset(Scopes(spec)) == multiset(CollectedScopes(spec));
    forall i, j | 0 <= i < j < |sorted|
      ensures Rank(sorted[i]) <= Rank(sorted[j])
    {
      NamesFollowRank(sorted[j], sorted[i]);
    }
    SortedIsUnique(Scopes(spec), sorted);
  }

  // Any two requests lock the scopes they share in the same order, so no two of
  // them can wait for each other.
  lemma LockOrderIsConsistent(a: JobSpec, b: JobSpec, lockedA: seq<Scope>, lockedB: seq<Scope>, i: nat, j: nat, i': nat, j': nat)
    requires multiset(lockedA) == multiset(CollectedScopes(a)) && IsSorted(lockedA)
    requires multiset(lockedB) == multiset(CollectedScopes(b)) && IsSorted(lockedB)
    requires i < |lockedA| && j < |lockedA| && i' < |lockedB| && j' < |lockedB|
    requires lockedA[i] == lockedB[i'] && lockedA[j] == lockedB[j']
    ensures i < j <==> i' < j'
  {
    ScopesAreTheSort(a, lockedA);
    ScopesAreTheSort(b, lockedB);
    PlaceIsRank(a, i, j);
    PlaceIsRank(b, i', j');
  }

  lemma PlaceIsRank(spec: JobSpec, i: nat, j: nat)
    requires i < |Scopes(spec)| && j < |Scopes(spec)|
    ensures i < j <==> Rank(Scopes(spec)[i]) < Rank(Scopes(spec)[j])
  {
    var scopes := Scopes(spec);
    if j < i {
      assert Rank(scopes[j]) < Rank(scopes[i]);
    }
  }

  // ---- lemmas ----

  // Where every scope has something to move, each loop is the plain shift:
  // nothing is refused half-way and nothing is clamped.
  lemma LoopsAreShifts(cfg: Settings, c: Counters, scopes: seq<Scope>)
    ensures (forall k :: k in scopes ==> Get(c, k).pending > 0) ==>
            && (HasRunningRoom(cfg, c, scopes) ==> MoveToRunning(cfg, c, scopes) == SlotsTaken(Shift(c, scopes, -1, 1)))
            && ReleasePendingAll(c, scopes) == Shift(c, scopes, -1, 0)
    ensures (forall k :: k in scopes ==> Get(c, k).running > 0) ==>
            ReleaseRunningAll(c, scopes) == Shift(c, scopes, 0, -1)
  {
    StockedMembers(c, scopes);
    var n := Stocked(c, scopes);
    if n < |scopes| {
      assert scopes[n] in scopes;
    }
  }

  // A move to the running side that meets a scope without pending jobs is refused
  // half-way: the scopes before it stay moved.
  lemma RefusedHalfWay(cfg: Settings, c: Counters, scopes: seq<Scope>, n: nat, k: Scope)
    requires HasRunningRoom(cfg, c, scopes) && n < |scopes| && Get(c, scopes[n]).pending == 0
    requires forall i :: 0 <= i < n ==> Get(c, scopes[i]).pending > 0
    requires forall i, j :: 0 <= i < j < |scopes| ==> Rank(scopes[i]) < Rank(scopes[j])
    ensures var moved := MoveToRunning(cfg, c, scopes);
            && moved.SlotsRefused? && moved.code == 409
            && Get(moved.counters, k) ==
               if k in scopes[..n] then Get(c, k).(pending := Get(c, k).pending - 1, running := Get(c, k).running + 1) else Get(c, k)
  {
    StockedMembers(c, scopes);
    assert Stocked(c, scopes) == n;
  }

  // A move back to the pending side is refused by the first scope that has no
  // running job to give up, or no room, with a code that says which.
  lemma {:induction false} FirstRefusal(cfg: Settings, c: Counters, scopes: seq<Scope>, n: nat)
    requires n < |scopes|
    requires Get(c, scopes[n]).running == 0 || Get(c, scopes[n]).pending >= PendingLimit(cfg, scopes[n])
    requires forall i :: 0 <= i < n ==> Get(c, scopes[i]).running > 0 && Get(c, scopes[i]).pending < PendingLimit(cfg, scopes[i])
    ensures MoveToPending(cfg, c, scopes) == Raised(if Get(c, scopes[n]).running == 0 then 409 else 429)
  {
    if n > 0 {
      FirstRefusal(cfg, c, scopes[1..], n - 1);
      assert MoveToPending(cfg, c, scopes[1..]).Raised?;
    }
  }
}
