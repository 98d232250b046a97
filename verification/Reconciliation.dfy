// The loops of _reconcile_capacity and _rebuild_provider_cost_reservations
// (jobs/worker_protocol.py:897-1007): the recount over the job rows, and the
// comparison of every capacity row with it.

module Reconciliation {
  import opened Outcomes
  import opened JobRegistry
  import opened JobRows
  import opened Capacity
  import opened CapacityLedger
  import opened JobProtocol
  import opened JobCostProofs

  datatype Tally = Tally(pending: nat, running: nat)

  type Desired = map<Scope, Tally>

  const NOTHING := Tally(0, 0)

  function TallyOf(d: Desired, k: Scope): Tally {
    if k in d then d[k] else NOTHING
  }

  predicate Active(r: Record) {
    CountsPending(r) || CountsRunning(r)
  }

  function UsedBy(r: Record): set<Scope> {
    if Active(r) then Members(Scopes(r.spec)) else {}
  }

  function Members(scopes: seq<Scope>): set<Scope> {
    set k | k in scopes
  }

  ghost function UsedByAll(jobs: map<nat, Record>): set<Scope> {
    set id, k | id in jobs && k in UsedBy(jobs[id]) :: k
  }

  // The recount so far: what the rows seen add up to.
  ghost predicate Counts(d: Desired, jobs: map<nat, Record>) {
    && d.Keys == UsedByAll(jobs)
    && forall k :: TallyOf(d, k) == Tally(|PendingIds(jobs, k)|, |RunningIds(jobs, k)|)
  }

  // One row more, in every scope of its job.
  function Bump(t: Tally, pending: bool): Tally {
    if pending then t.(pending := t.pending + 1) else t.(running := t.running + 1)
  }

  function BumpAll(d: Desired, scopes: set<Scope>, pending: bool): Desired {
    map k | k in d.Keys + scopes :: if k in scopes then Bump(TallyOf(d, k), pending) else TallyOf(d, k)
  }

  lemma OneMoreBumped(d: Desired, scopes: seq<Scope>, i: nat, pending: bool)
    requires EachOnce(scopes) && i < |scopes|
    ensures var before := BumpAll(d, Members(scopes[..i]), pending);
            BumpAll(d, Members(scopes[..i + 1]), pending) == before[scopes[i] := Bump(TallyOf(before, scopes[i]), pending)]
  {
    NotYet(scopes, i);
    assert Members(scopes[..i + 1]) == Members(scopes[..i]) + {scopes[i]};
  }

  method BumpEach(d: Desired, scopes: seq<Scope>, pending: bool) returns (d': Desired)
    requires EachOnce(scopes)
    ensures d' == BumpAll(d, Members(scopes), pending)
  {
    d' := d;
    assert d' == BumpAll(d, Members(scopes[..0]), pending);
    for i := 0 to |scopes|
      invariant d' == BumpAll(d, Members(scopes[..i]), pending)
    {
      OneMoreBumped(d, scopes, i, pending);
      d' := d'[scopes[i] := Bump(TallyOf(d', scopes[i]), pending)];
    }
    assert scopes[..|scopes|] == scopes;
  }

  lemma PendingWithOne(jobs: map<nat, Record>, id: nat, r: Record, k: Scope)
    requires id !in jobs
    ensures |PendingIds(jobs[id := r], k)| ==
            |PendingIds(jobs, k)| + if CountsPending(r) && k in Scopes(r.spec) then 1 else 0
  {
    assert PendingIds(jobs[id := r], k) == PendingIds(jobs, k) + if CountsPending(r) && k in Scopes(r.spec) then {id} else {};
  }

  lemma RunningWithOne(jobs: map<nat, Record>, id: nat, r: Record, k: Scope)
    requires id !in jobs
    ensures |RunningIds(jobs[id := r], k)| ==
            |RunningIds(jobs, k)| + if CountsRunning(r) && k in Scopes(r.spec) then 1 else 0
  {
    assert RunningIds(jobs[id := r], k) == RunningIds(jobs, k) + if CountsRunning(r) && k in Scopes(r.spec) then {id} else {};
  }

  lemma UsedWithOne(jobs: map<nat, Record>, id: nat, r: Record)
    requires id !in jobs
    ensures UsedByAll(jobs[id := r]) == UsedByAll(jobs) + UsedBy(r)
  {
    forall k
      ensures k in UsedByAll(jobs[id := r]) <==> k in UsedByAll(jobs) + UsedBy(r)
    {
      if k in UsedByAll(jobs) {
        var i :| i in jobs && k in UsedBy(jobs[i]);
        assert i in jobs[id := r] && k in UsedBy(jobs[id := r][i]);
      }
      if k in UsedBy(r) {
        assert k in UsedBy(jobs[id := r][id]);
      }
    }
  }

  lemma TallyWithOne(d: Desired, jobs: map<nat, Record>, id: nat, r: Record, k: Scope)
    requires TallyOf(d, k) == Tally(|PendingIds(jobs, k)|, |RunningIds(jobs, k)|) && id !in jobs
    ensures TallyOf(if Active(r) then BumpAll(d, UsedBy(r), CountsPending(r)) else d, k) ==
            Tally(|PendingIds(jobs[id := r], k)|, |RunningIds(jobs[id := r], k)|)
  {
    PendingWithOne(jobs, id, r, k);
    RunningWithOne(jobs, id, r, k);
    assert Active(r) ==> (k in UsedBy(r) <==> k in Scopes(r.spec));
  }

  lemma KeysWithOne(d: Desired, jobs: map<nat, Record>, id: nat, r: Record)
    requires d.Keys == UsedByAll(jobs) && id !in jobs
    ensures (if Active(r) then BumpAll(d, UsedBy(r), CountsPending(r)) else d).Keys == UsedByAll(jobs[id := r])
  {
    UsedWithOne(jobs, id, r);
  }

  lemma CountsWithOne(d: Desired, jobs: map<nat, Record>, id: nat, r: Record)
    requires Counts(d, jobs) && id !in jobs
    ensures Counts(if Active(r) then BumpAll(d, UsedBy(r), CountsPending(r)) else d, jobs[id := r])
  {
    KeysWithOne(d, jobs, id, r);
    var d' := if Active(r) then BumpAll(d, UsedBy(r), CountsPending(r)) else d;
    forall k
      ensures TallyOf(d', k) == Tally(|PendingIds(jobs[id := r], k)|, |RunningIds(jobs[id := r], k)|)
    {
      TallyWithOne(d, jobs, id, r, k);
    }
  }

  // The recount over the active jobs, taken in any order.
  method Recount(jobs: map<nat, Record>) returns (desired: Desired)
    ensures Counts(desired, jobs)
  {
    desired := map[];
    var left := jobs.Keys;
    ghost var seen: map<nat, Record> := map[];
    assert Counts(desired, seen);
    while left != {}
      invariant left <= jobs.Keys && seen.Keys == jobs.Keys - left
      invariant forall id :: id in seen ==> seen[id] == jobs[id]
      invariant Counts(desired, seen)
      decreases |left|
    {
      var id :| id in left;
      var r := jobs[id];
      CountsWithOne(desired, seen, id, r);
      if Active(r) {
        ScopesAreDistinct(r.spec);
        desired := BumpEach(desired, Scopes(r.spec), CountsPending(r));
      }
      seen := seen[id := r];
      left := left - {id};
    }
    assert seen == jobs;
  }

  // The day's provider spend.
  method SumSpend(jobs: map<nat, Record>, day: int) returns (total: nat)
    ensures total == Spend(jobs, day)
  {
    total := 0;
    var left := jobs.Keys;
    ghost var seen: map<nat, Record> := map[];
    while left != {}
      invariant left <= jobs.Keys && seen.Keys == jobs.Keys - left
      invariant forall id :: id in seen ==> seen[id] == jobs[id]
      invariant total == Spend(seen, day)
      decreases |left|
    {
      var id :| id in left;
      SpendAdded(seen, id, jobs[id], day);
      total := total + Contribution(jobs[id], day);
      seen := seen[id := jobs[id]];
      left := left - {id};
    }
    assert seen == jobs;
  }

  // _rebuild_provider_cost_reservations
  method RebuildMissing(jobs: map<nat, Record>, now: int) returns (rebuilt: map<nat, Record>)
    ensures rebuilt == RebuildCosts(jobs, now)
  {
    rebuilt := jobs;
    var left := jobs.Keys;
    while left != {}
      invariant left <= jobs.Keys == rebuilt.Keys
      invariant forall id :: id in jobs ==> rebuilt[id] == if id in left then jobs[id] else RebuildCost(jobs[id], now)
      decreases |left|
    {
      var id :| id in left;
      if jobs[id].spec.jobType == VastSessionStart && jobs[id].cost.None? {
        rebuilt := rebuilt[id := RebuildCost(jobs[id], now)];
      }
      left := left - {id};
    }
  }

  // The rows there are, with those of some more scopes.
  function Opened(rows: Counters, more: set<Scope>, now: int): Counters {
    map k | k in rows.Keys + more :: FoundRow(rows, k, now)
  }

  lemma OneMoreOpen(rows: Counters, needed: set<Scope>, left: set<Scope>, k: Scope, now: int)
    requires k in left && left <= needed
    ensures var before := Opened(rows, needed - left, now);
            Opened(rows, needed - (left - {k}), now) == if k in before then before else before[k := FoundRow(rows, k, now)]
  {
    assert needed - (left - {k}) == needed - left + {k};
  }

  lemma NoneOpened(rows: Counters, needed: set<Scope>, now: int)
    ensures Opened(rows, needed - needed, now) == rows && needed - {} == needed
  {
  }

  // _create_reconciled_capacity_record for every scope that has no row yet.
  method CreateMissing(rows: Counters, needed: set<Scope>, now: int) returns (full: Counters)
    ensures full == Opened(rows, needed, now)
  {
    full := rows;
    var left := needed;
    NoneOpened(rows, needed, now);
    while left != {}
      invariant left <= needed
      invariant full == Opened(rows, needed - left, now)
      decreases |left|
    {
      var k :| k in left;
      OneMoreOpen(rows, needed, left, k, now);
      if k !in full {
        full := full[k := if k == GlobalScope then Counter(0, 0, 0, Some(Day(now))) else ZERO];
      }
      left := left - {k};
    }
  }

  // What the comparison loop leaves in a row.
  function Adjust(k: Scope, found: Counter, t: Tally, spend: nat, now: int): Counter {
    if k == GlobalScope then Counter(t.pending, t.running, spend, Some(Day(now)))
    else found.(pending := t.pending, running := t.running)
  }

  predicate Differs(k: Scope, found: Counter, t: Tally, spend: nat, now: int) {
    || found.pending != t.pending || found.running != t.running
    || found.cost != (if k == GlobalScope then spend else 0)
    || (k == GlobalScope && found.period != Some(Day(now)))
  }

  // The rows after those of some scopes were compared, and those that differed.
  function AdjustedIn(rows: Counters, done: set<Scope>, desired: Desired, spend: nat, now: int): Counters {
    map k | k in rows :: if k in done then Adjust(k, rows[k], TallyOf(desired, k), spend, now) else rows[k]
  }

  function Differing(rows: Counters, done: set<Scope>, desired: Desired, spend: nat, now: int): set<Scope> {
    set k | k in done && k in rows && Differs(k, rows[k], TallyOf(desired, k), spend, now)
  }

  lemma OneMoreAdjusted(rows: Counters, left: set<Scope>, desired: Desired, spend: nat, now: int, k: Scope)
    requires k in left && left <= rows.Keys
    ensures var before := AdjustedIn(rows, rows.Keys - left, desired, spend, now);
            var t := TallyOf(desired, k);
            && k in before && before[k] == rows[k]
            && AdjustedIn(rows, rows.Keys - (left - {k}), desired, spend, now) == before[k := Adjust(k, rows[k], t, spend, now)]
            && (!Differs(k, rows[k], t, spend, now) ==> Adjust(k, rows[k], t, spend, now) == rows[k])
  {
    assert rows.Keys - (left - {k}) == rows.Keys - left + {k};
  }

  lemma DifferingMember(rows: Counters, done: set<Scope>, desired: Desired, spend: nat, now: int, k: Scope)
    requires k in rows && k !in done
    ensures Differing(rows, done + {k}, desired, spend, now) ==
            Differing(rows, done, desired, spend, now) +
            if Differs(k, rows[k], TallyOf(desired, k), spend, now) then {k} else {}
  {
    forall x
      ensures x in Differing(rows, done + {k}, desired, spend, now) <==>
              x in Differing(rows, done, desired, spend, now) || (x == k && Differs(k, rows[k], TallyOf(desired, k), spend, now))
    {
    }
  }

  lemma OneMoreDiffering(rows: Counters, left: set<Scope>, desired: Desired, spend: nat, now: int, k: Scope)
    requires k in left && left <= rows.Keys
    ensures |Differing(rows, rows.Keys - (left - {k}), desired, spend, now)| ==
            |Differing(rows, rows.Keys - left, desired, spend, now)| +
            if Differs(k, rows[k], TallyOf(desired, k), spend, now) then 1 else 0
  {
    assert rows.Keys - (left - {k}) == rows.Keys - left + {k};
    DifferingMember(rows, rows.Keys - left, desired, spend, now, k);
  }

  lemma NothingAdjusted(rows: Counters, desired: Desired, spend: nat, now: int)
    ensures AdjustedIn(rows, rows.Keys - rows.Keys, desired, spend, now) == rows
    ensures Differing(rows, rows.Keys - rows.Keys, desired, spend, now) == {}
    ensures rows.Keys - {} == rows.Keys
  {
  }

  // The comparison loop: every row is made to agree, and those that did not are
  // counted.
  method AdjustRows(rows: Counters, desired: Desired, spend: nat, now: int) returns (rows': Counters, adjusted: nat)
    ensures rows' == AdjustedIn(rows, rows.Keys, desired, spend, now)
    ensures adjusted == |Differing(rows, rows.Keys, desired, spend, now)|
  {
    rows', adjusted := rows, 0;
    var left := rows.Keys;
    NothingAdjusted(rows, desired, spend, now);
    while left != {}
      invariant left <= rows.Keys
      invariant rows' == AdjustedIn(rows, rows.Keys - left, desired, spend, now)
      invariant adjusted == |Differing(rows, rows.Keys - left, desired, spend, now)|
      decreases |left|
    {
      var k :| k in left;
      OneMoreAdjusted(rows, left, desired, spend, now, k);
      OneMoreDiffering(rows, left, desired, spend, now, k);
      var t := TallyOf(desired, k);
      if Differs(k, rows'[k], t, spend, now) {
        rows' := rows'[k := Adjust(k, rows'[k], t, spend, now)];
        adjusted := adjusted + 1;
      }
      left := left - {k};
    }
  }
}
