// jobs/constants.py and jobs/state.py: the status table and the append-only
// event log of one job.

module JobStatusMachine {
  import opened Outcomes

  datatype Status =
    | Queued
    | Leased
    | Running
    | RetryWait
    | Completed
    | Failed
    | CancelRequested
    | Cancelled
    | DeadLetter

  // JOB_TRANSITIONS.
  function Allowed(s: Status): set<Status> {
    match s
    case Queued => {Leased, CancelRequested, Failed, DeadLetter}
    case Leased => {Running, RetryWait, CancelRequested, Failed, DeadLetter}
    case Running => {Completed, RetryWait, Failed, DeadLetter, CancelRequested}
    case RetryWait => {Leased, CancelRequested, Failed, DeadLetter}
    case CancelRequested => {Cancelled}
    case _ => {}
  }

  predicate Terminal(s: Status) {
    s in {Completed, Failed, Cancelled, DeadLetter}
  }

  // Waiting for a worker.
  predicate Pending(s: Status) {
    s in {Queued, RetryWait}
  }

  // Held by a worker, in every state where a lease exists.
  predicate Held(s: Status) {
    s in {Leased, Running, CancelRequested}
  }

  datatype EventBody =
    | Accepted
    | Moved(previous: Status, target: Status)
    | HeartbeatSeen
    | ProgressSeen

  datatype Event = Event(sequence: nat, body: EventBody)

  // coalesce(max(sequence_number), 0) over the rows of one job.
  function MaxSequence(events: seq<Event>): nat {
    if events == [] then 0 else Max(events[0].sequence, MaxSequence(events[1..]))
  }

  function Append(events: seq<Event>, body: EventBody): seq<Event> {
    events + [Event(MaxSequence(events) + 1, body)]
  }

  // Sequence numbers are exactly 1, 2, ..., n in the order of appending.
  ghost predicate Numbered(events: seq<Event>) {
    forall i :: 0 <= i < |events| ==> events[i].sequence == i + 1
  }

  // Reads a log as a walk through the transition table. None when some event
  // names a previous status that is not the one reached so far, or a move the
  // table does not have.
  function Replay(events: seq<Event>): Option<Status> {
    if events == [] then
      None
    else
      var before := Replay(events[..|events| - 1]);
      match events[|events| - 1].body
      case Accepted => if |events| == 1 then Some(Queued) else None
      case Moved(p, t) => if before == Some(p) && t in Allowed(p) then Some(t) else None
      case _ => before
  }

  // The number of status changes a log records.
  function Moves(events: seq<Event>): nat {
    if events == [] then
      0
    else
      Moves(events[..|events| - 1]) + if events[|events| - 1].body.Moved? then 1 else 0
  }

  lemma {:induction false} MaxOfRun(events: seq<Event>, skipped: nat)
    requires forall i :: 0 <= i < |events| ==> events[i].sequence == skipped + i + 1
    ensures MaxSequence(events) == if events == [] then 0 else skipped + |events|
  {
    if events != [] {
      MaxOfRun(events[1..], skipped + 1);
    }
  }

  // The next number is one more than the length, so the log stays gap-free.
  lemma AppendKeepsNumbering(events: seq<Event>, body: EventBody)
    requires Numbered(events)
    ensures Numbered(Append(events, body))
  {
    MaxOfRun(events, 0);
  }

  lemma AppendReplays(events: seq<Event>, body: EventBody)
    ensures var log := Append(events, body);
            && Moves(log) == Moves(events) + (if body.Moved? then 1 else 0)
            && (body.Moved? && Replay(events) == Some(body.previous) && body.target in Allowed(body.previous)
                ==> Replay(log) == Some(body.target))
            && ((body.HeartbeatSeen? || body.ProgressSeen?) ==> Replay(log) == Replay(events))
  {
    var log := Append(events, body);
    assert log[..|log| - 1] == events;
  }

  // No status is left once it is terminal, and the table never leads back to Queued.
  lemma TableShape(s: Status)
    ensures Terminal(s) <==> Allowed(s) == {}
    ensures Queued !in Allowed(s)
    ensures Held(s) ==> Leased !in Allowed(s)
    ensures Leased in Allowed(s) <==> s in {Queued, RetryWait}
    ensures Running in Allowed(s) <==> s == Leased
    ensures RetryWait in Allowed(s) <==> s in {Leased, Running}
    ensures Completed in Allowed(s) <==> s == Running
    ensures Cancelled in Allowed(s) <==> s == CancelRequested
    ensures forall t :: t in {Failed, DeadLetter, CancelRequested} ==> (t in Allowed(s) <==> s in {Queued, Leased, Running, RetryWait})
  {
    assert s == Queued ==> Leased in Allowed(s);
    assert s == Leased ==> Running in Allowed(s);
    assert s == Running ==> Completed in Allowed(s);
    assert s == RetryWait ==> Leased in Allowed(s);
    assert s == CancelRequested ==> Cancelled in Allowed(s);
  }

  // ---- list_job_events ----

  // The rows of one job after a given sequence number, in sequence order.
  function Newer(events: seq<Event>, after: nat): seq<Event> {
    if events == [] then
      []
    else
      (if events[0].sequence > after then [events[0]] else []) + Newer(events[1..], after)
  }

  lemma NewerAreAfter(events: seq<Event>, after: nat)
    ensures forall i :: 0 <= i < |Newer(events, after)| ==> after < Newer(events, after)[i].sequence <= MaxSequence(events)
  {
  }

  // One page, and the mark to continue from: one row more than the limit is
  // read, and its presence alone decides whether a mark is given.
  function Cut(found: seq<Event>, limit: nat): (seq<Event>, Option<nat>) {
    var fetched := if |found| > limit + 1 then found[..limit + 1] else found;
    var page := if |fetched| > limit then fetched[..limit] else fetched;
    (page, if |fetched| > limit && page != [] then Some(page[|page| - 1].sequence) else None)
  }

  lemma CutMeaning(found: seq<Event>, limit: nat)
    requires limit > 0
    ensures |found| > limit ==> Cut(found, limit) == (found[..limit], Some(found[limit - 1].sequence))
    ensures |found| <= limit ==> Cut(found, limit) == (found, None)
  {
    if |found| > limit + 1 {
      assert found[..limit + 1][..limit] == found[..limit];
    }
  }

  function Page(events: seq<Event>, after: nat, limit: nat): (seq<Event>, Option<nat>) {
    Cut(Newer(events, after), limit)
  }

  // What a client sees that follows next_after_sequence until it is absent.
  function ReadAll(events: seq<Event>, after: nat, limit: nat): seq<Event>
    decreases Max(0, MaxSequence(events) - after)
  {
    var (page, next) := Page(events, after, limit);
    NewerAreAfter(events, after);
    if next.None? then page else page + ReadAll(events, next.value, limit)
  }

  lemma {:induction false} NewerOfNumbered(events: seq<Event>, after: nat, skipped: nat)
    requires forall i :: 0 <= i < |events| ==> events[i].sequence == skipped + i + 1
    requires after <= skipped + |events|
    ensures Newer(events, after) == if after <= skipped then events else events[after - skipped..]
  {
    if events != [] {
      NewerOfNumbered(events[1..], after, skipped + 1);
    }
  }

  lemma PageOfNumbered(events: seq<Event>, after: nat, limit: nat)
    requires Numbered(events)
    requires after <= |events|
    requires limit > 0
    ensures Page(events, after, limit) ==
            if after + limit < |events| then (events[after..after + limit], Some(after + limit))
            else (events[after..], None)
  {
    var rest := events[after..];
    NewerOfNumbered(events, after, 0);
    CutMeaning(rest, limit);
    if |rest| > limit {
      assert rest[..limit] == events[after..after + limit];
    }
  }

  lemma Glued(read: seq<Event>, rest: seq<Event>, events: seq<Event>, after: nat, mid: nat)
    requires after <= mid <= |events|
    requires read == events[after..mid] + rest && rest == events[mid..]
    ensures read == events[after..]
  {
  }

  lemma ReadOn(events: seq<Event>, after: nat, limit: nat)
    requires Numbered(events) && limit > 0 && after + limit < |events|
    ensures ReadAll(events, after, limit) == events[after..after + limit] + ReadAll(events, after + limit, limit)
  {
    PageOfNumbered(events, after, limit);
  }

  lemma ReadLast(events: seq<Event>, after: nat, limit: nat)
    requires Numbered(events) && limit > 0 && after <= |events| <= after + limit
    ensures ReadAll(events, after, limit) == events[after..]
  {
    PageOfNumbered(events, after, limit);
  }

  lemma ReadFrom(events: seq<Event>, after: nat, limit: nat, rest: seq<Event>)
    requires Numbered(events) && limit > 0 && after + limit < |events|
    requires rest == ReadAll(events, after + limit, limit) && rest == events[after + limit..]
    ensures ReadAll(events, after, limit) == events[after..]
  {
    ReadOn(events, after, limit);
    Glued(ReadAll(events, after, limit), rest, events, after, after + limit);
  }

  // Paging visits every event exactly once and in order, for every page size
  // but zero.
  lemma {:induction false} PagingIsComplete(events: seq<Event>, after: nat, limit: nat)
    requires Numbered(events)
    requires after <= |events|
    requires limit > 0
    ensures ReadAll(events, after, limit) == events[after..]
    decreases |events| - after
  {
    if after + limit < |events| {
      PagingIsComplete(events, after + limit, limit);
      ReadFrom(events, after, limit, ReadAll(events, after + limit, limit));
    } else {
      ReadLast(events, after, limit);
    }
  }

  // A page size of zero is answered with an empty page and no mark.
  lemma EmptyPageStops(events: seq<Event>, after: nat)
    ensures ReadAll(events, after, 0) == []
  {
    assert Page(events, after, 0) == ([], None);
  }
}
