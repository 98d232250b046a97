// The in-process sliding-window limiter: core/public_demo.py:18-82.

module RateLimiter {
  // Clock readings in nanoseconds.
  const WINDOW: int := 60_000_000_000

  // ---- admission times ----

  predicate Sorted(times: seq<int>) {
    forall i, j :: 0 <= i < j < |times| ==> times[i] <= times[j]
  }

  // The times in the half-open interval (low, high].
  function Count(times: seq<int>, low: int, high: int): nat {
    if times == [] then 0 else (if low < times[0] <= high then 1 else 0) + Count(times[1..], low, high)
  }

  // What popping from the left leaves.
  function DropOld(times: seq<int>, cutoff: int): seq<int> {
    if times != [] && times[0] <= cutoff then DropOld(times[1..], cutoff) else times
  }

  lemma {:induction false} CountAll(times: seq<int>, low: int, high: int)
    requires forall i :: 0 <= i < |times| ==> low < times[i] <= high
    ensures Count(times, low, high) == |times|
  {
    if times != [] {
      CountAll(times[1..], low, high);
    }
  }

  lemma {:induction false} CountOfTwo(a: seq<int>, b: seq<int>, low: int, high: int)
    ensures Count(a + b, low, high) == Count(a, low, high) + Count(b, low, high)
  {
    if a == [] {
      assert a + b == b;
    } else {
      assert (a + b)[0] == a[0] && (a + b)[1..] == a[1..] + b;
      CountOfTwo(a[1..], b, low, high);
    }
  }

  // A window that reaches further back, or further on, holds no fewer times.
  lemma {:induction false} CountNarrows(times: seq<int>, low: int, high: int, low': int, high': int)
    requires low <= low'
    requires forall i :: 0 <= i < |times| && low' < times[i] <= high' ==> times[i] <= high
    ensures Count(times, low', high') <= Count(times, low, high)
  {
    if times != [] {
      CountNarrows(times[1..], low, high, low', high');
    }
  }

  // For times in order, what is left after popping is exactly the times of the
  // window.
  lemma {:induction false} LeftIsWindow(times: seq<int>, cutoff: int, now: int)
    requires Sorted(times) && forall i :: 0 <= i < |times| ==> times[i] <= now
    ensures |DropOld(times, cutoff)| == Count(times, cutoff, now)
  {
    if times != [] {
      if times[0] <= cutoff {
        LeftIsWindow(times[1..], cutoff, now);
      } else {
        CountAll(times, cutoff, now);
      }
    }
  }

  lemma {:induction false} LeftAreRecent(times: seq<int>, cutoff: int, x: int)
    requires Sorted(times)
    ensures x in DropOld(times, cutoff) <==> x in times && x > cutoff
  {
    if times != [] && times[0] <= cutoff {
      LeftAreRecent(times[1..], cutoff, x);
    }
  }

  // Popping twice is popping once with the later cutoff.
  lemma {:induction false} DropTwice(times: seq<int>, cutoff: int, later: int)
    requires cutoff <= later
    ensures DropOld(DropOld(times, cutoff), later) == DropOld(times, later)
  {
    if times != [] && times[0] <= cutoff {
      DropTwice(times[1..], cutoff, later);
    }
  }

  lemma {:induction false} DropBeforeNew(times: seq<int>, cutoff: int, now: int)
    requires cutoff < now
    ensures DropOld(times + [now], cutoff) == DropOld(times, cutoff) + [now]
  {
    if times != [] && times[0] <= cutoff {
      assert (times + [now])[1..] == times[1..] + [now];
      DropBeforeNew(times[1..], cutoff, now);
    }
  }

  // ---- one key ----

  // The admissions of the minute that ends at a time.
  function Minute(times: seq<int>, t: int): nat {
    Count(times, t - WINDOW, t)
  }

  // No interval of the window's length holds more than the limit.
  ghost predicate NeverOver(times: seq<int>, limit: nat) {
    forall t: int :: Minute(times, t) <= limit
  }

  // One more admission at the latest time, into a window with room.
  lemma AdmissionKeepsLimit(times: seq<int>, now: int, limit: nat)
    requires NeverOver(times, limit) && forall i :: 0 <= i < |times| ==> times[i] <= now
    requires Minute(times, now) < limit
    ensures NeverOver(times + [now], limit)
  {
    forall t: int
      ensures Minute(times + [now], t) <= limit
    {
      CountOfTwo(times, [now], t - WINDOW, t);
      assert [now][1..] == [];
      if t >= now {
        CountNarrows(times, now - WINDOW, now, t - WINDOW, t);
      } else {
        assert Minute(times, t) <= limit;
      }
    }
  }

  // ---- any sequence of requests for one key ----

  // The admissions among requests at the given times.
  function AdmittedOf(requests: seq<int>, limit: nat): seq<int> {
    if requests == [] then []
    else
      var before, now := AdmittedOf(requests[..|requests| - 1], limit), requests[|requests| - 1];
      if Minute(before, now) < limit then before + [now] else before
  }

  // The requests came in order, the last one not after a time.
  ghost predicate InOrder(requests: seq<int>, seen: int) {
    requests == [] || (requests[|requests| - 1] <= seen && InOrder(requests[..|requests| - 1], requests[|requests| - 1]))
  }

  lemma {:induction false} SortedIsInOrder(requests: seq<int>)
    requires Sorted(requests) && requests != []
    ensures InOrder(requests, requests[|requests| - 1])
  {
    if |requests| > 1 {
      SortedIsInOrder(requests[..|requests| - 1]);
      LaterInOrder(requests[..|requests| - 1], requests[|requests| - 2], requests[|requests| - 1]);
    }
  }

  lemma LaterInOrder(requests: seq<int>, seen: int, now: int)
    requires InOrder(requests, seen) && seen <= now
    ensures InOrder(requests, now) && InOrder(requests + [now], now)
  {
    assert (requests + [now])[..|requests|] == requests;
  }

  lemma SortedWithLast(times: seq<int>, now: int)
    requires Sorted(times) && forall i :: 0 <= i < |times| ==> times[i] <= now
    ensures Sorted(times + [now])
    ensures forall i :: 0 <= i < |times + [now]| ==> (times + [now])[i] <= now
  {
  }

  lemma {:induction false} AdmittedAreKept(requests: seq<int>, seen: int, limit: nat)
    requires InOrder(requests, seen)
    ensures var times := AdmittedOf(requests, limit);
            Sorted(times) && (forall i :: 0 <= i < |times| ==> times[i] <= seen) && NeverOver(times, limit)
  {
    if requests == [] {
      NothingIsOver(limit);
    } else {
      var front, now := requests[..|requests| - 1], requests[|requests| - 1];
      AdmittedAreKept(front, now, limit);
      if Minute(AdmittedOf(front, limit), now) < limit {
        SortedWithLast(AdmittedOf(front, limit), now);
        AdmissionKeepsLimit(AdmittedOf(front, limit), now, limit);
      }
    }
  }

  lemma NothingIsOver(limit: nat)
    ensures NeverOver([], limit)
  {
    forall t: int
      ensures Minute([], t) <= limit
    {
    }
  }

  // Over every sequence of requests on a clock that does not run backwards, no
  // minute admits more than the limit; and where a request is turned away, its
  // minute holds exactly the limit.
  lemma LimitIsKept(requests: seq<int>, limit: nat)
    requires Sorted(requests)
    ensures NeverOver(AdmittedOf(requests, limit), limit)
    ensures requests != [] ==>
              var front, now := requests[..|requests| - 1], requests[|requests| - 1];
              AdmittedOf(requests, limit) == AdmittedOf(front, limit) ==>
                Minute(AdmittedOf(front, limit), now) == limit
  {
    if requests == [] {
      NothingIsOver(limit);
    } else {
      var front, now := requests[..|requests| - 1], requests[|requests| - 1];
      SortedIsInOrder(requests);
      AdmittedAreKept(requests, now, limit);
      AdmittedAreKept(front, now, limit);
      assert Minute(AdmittedOf(front, limit), now) <= limit;
    }
  }

  lemma {:induction false} LeftAtLeast(times: seq<int>, cutoff: int, n: nat)
    requires Sorted(times) && n >= 1
    ensures |DropOld(times, cutoff)| >= n <==> |times| >= n && cutoff < times[|times| - n]
  {
    if times != [] && times[0] <= cutoff {
      LeftAtLeast(times[1..], cutoff, n);
    }
  }

  // A request is turned away exactly when the last admission but limit - 1 was less
  // than sixty seconds ago; otherwise it is the next admission.
  lemma RefusedIffTooSoon(requests: seq<int>, now: int, limit: nat)
    requires InOrder(requests, now) && limit >= 1
    ensures var times := AdmittedOf(requests, limit);
            AdmittedOf(requests + [now], limit) ==
            if |times| >= limit && now - times[|times| - limit] < 60_000_000_000 then times else times + [now]
  {
    NextAdmission(requests, now, limit);
    AdmittedFullIffRecent(requests, now, limit);
  }

  lemma AdmittedFullIffRecent(requests: seq<int>, now: int, limit: nat)
    requires InOrder(requests, now) && limit >= 1
    ensures var times := AdmittedOf(requests, limit);
            Minute(times, now) >= limit <==> |times| >= limit && now - times[|times| - limit] < 60_000_000_000
  {
    AdmittedAreKept(requests, now, limit);
    FullIffRecent(AdmittedOf(requests, limit), now, limit);
  }

  lemma NextAdmission(requests: seq<int>, now: int, limit: nat)
    ensures var times := AdmittedOf(requests, limit);
            AdmittedOf(requests + [now], limit) == if Minute(times, now) < limit then times + [now] else times
  {
    assert (requests + [now])[..|requests|] == requests;
  }

  lemma FullIffRecent(times: seq<int>, now: int, limit: nat)
    requires Sorted(times) && (forall i :: 0 <= i < |times| ==> times[i] <= now) && limit >= 1
    ensures Minute(times, now) >= limit <==> |times| >= limit && now - times[|times| - limit] < 60_000_000_000
  {
    LeftIsWindow(times, now - WINDOW, now);
    LeftAtLeast(times, now - WINDOW, limit);
  }

  // ---- the deque of one key ----

  datatype Verdict = Admitted | TooMany

  // The requests of a key so far, and the time of the last one.
  datatype Past = Past(requests: seq<int>, seen: int)

  // The deque is the admissions among them with the oldest popped, as the last
  // request left it.
  ghost predicate InStep(window: seq<int>, p: Past, limit: nat) {
    InOrder(p.requests, p.seen) && window == DropOld(AdmittedOf(p.requests, limit), p.seen - WINDOW)
  }

  // Popping at a later time leaves exactly the admissions of the last minute.
  lemma PoppedIsMinute(window: seq<int>, p: Past, now: int, limit: nat)
    requires InStep(window, p, limit) && p.seen <= now
    ensures DropOld(window, now - WINDOW) == DropOld(AdmittedOf(p.requests, limit), now - WINDOW)
    ensures |DropOld(window, now - WINDOW)| == Minute(AdmittedOf(p.requests, limit), now)
  {
    AdmittedAreKept(p.requests, p.seen, limit);
    DropTwice(AdmittedOf(p.requests, limit), p.seen - WINDOW, now - WINDOW);
    LeftIsWindow(AdmittedOf(p.requests, limit), now - WINDOW, now);
  }

  // The deque after one request more, admitted or not.
  lemma OneMoreRequest(window: seq<int>, p: Past, now: int, limit: nat)
    requires InStep(window, p, limit) && p.seen <= now
    ensures var times, left := AdmittedOf(p.requests, limit), DropOld(window, now - WINDOW);
            InStep(if Minute(times, now) < limit then left + [now] else left, Past(p.requests + [now], now), limit)
  {
    LaterInOrder(p.requests, p.seen, now);
    PoppedIsMinute(window, p, now, limit);
    DropBeforeNew(AdmittedOf(p.requests, limit), now - WINDOW, now);
    AdmittedOneMore(p.requests, now, limit);
  }

  lemma AdmittedOneMore(requests: seq<int>, now: int, limit: nat)
    ensures var times := AdmittedOf(requests, limit);
            AdmittedOf(requests + [now], limit) == if Minute(times, now) < limit then times + [now] else times
  {
    assert (requests + [now])[..|requests|] == requests;
  }

  // In step, the deque holds the admissions of the minute before the last request
  // and no others.
  lemma DequeIsLastMinute(window: seq<int>, p: Past, limit: nat, x: int)
    requires InStep(window, p, limit)
    ensures x in window <==> x in AdmittedOf(p.requests, limit) && p.seen - WINDOW < x <= p.seen
    ensures |window| == Minute(AdmittedOf(p.requests, limit), p.seen) <= limit
  {
    var times := AdmittedOf(p.requests, limit);
    AdmittedAreKept(p.requests, p.seen, limit);
    LeftAreRecent(times, p.seen - WINDOW, x);
    LeftIsWindow(times, p.seen - WINDOW, p.seen);
  }

  // The loop that pops from the left.
  method PopOld(start: seq<int>, cutoff: int) returns (window: seq<int>)
    ensures window == DropOld(start, cutoff)
  {
    window := start;
    while window != [] && window[0] <= cutoff
      invariant DropOld(window, cutoff) == DropOld(start, cutoff)
    {
      window := window[1..];
    }
  }

  // A request on the deque of its key: turned away exactly when the last minute
  // holds a full limit of admissions.
  method Visit(window: seq<int>, ghost p: Past, now: int, limit: nat) returns (verdict: Verdict, window': seq<int>)
    requires InStep(window, p, limit) && p.seen <= now
    ensures verdict == TooMany <==> Minute(AdmittedOf(p.requests, limit), now) >= limit
    ensures InStep(window', Past(p.requests + [now], now), limit)
  {
    PoppedIsMinute(window, p, now, limit);
    OneMoreRequest(window, p, now, limit);
    window' := PopOld(window, now - WINDOW);
    if |window'| >= limit {
      return TooMany, window';
    }
    return Admitted, window' + [now];
  }

  // What a verdict means for the admissions: they are those the limit admits, and
  // this request is among them exactly when it was let through.
  lemma VerdictIsAdmission(p: Past, now: int, limit: nat, verdict: Verdict)
    requires verdict == TooMany <==> Minute(AdmittedOf(p.requests, limit), now) >= limit
    ensures AdmittedOf(p.requests + [now], limit) ==
            if verdict == Admitted then AdmittedOf(p.requests, limit) + [now] else AdmittedOf(p.requests, limit)
  {
    assert (p.requests + [now])[..|p.requests|] == p.requests;
  }

  // ---- the limiter ----

  ghost predicate AllInStep(windows: map<string, seq<int>>, past: map<string, Past>, clock: int, limit: nat) {
    && windows.Keys == past.Keys
    && forall key :: key in past ==> past[key].seen <= clock && InStep(windows[key], past[key], limit)
  }

  ghost function Recall(past: map<string, Past>, key: string, clock: int): Past {
    if key in past then past[key] else Past([], clock)
  }

  lemma PutInStep(windows: map<string, seq<int>>, past: map<string, Past>, clock: int, limit: nat,
                  key: string, window: seq<int>, p: Past)
    requires AllInStep(windows, past, clock, limit) && clock <= p.seen
    requires InStep(window, p, limit)
    ensures AllInStep(windows[key := window], past[key := p], p.seen, limit)
  {
  }

  class Limiter {
    const limit: int
    var windows: map<string, seq<int>>
    ghost var past: map<string, Past>
    ghost var clock: int

    // max(int(limit), 1)
    function Bound(): (b: nat)
      ensures b >= 1
    {
      if limit > 1 then limit else 1
    }

    // A key's requests so far; none before the first.
    ghost function PastOf(key: string): Past
      reads this
    {
      Recall(past, key, clock)
    }

    ghost predicate Valid()
      reads this
    {
      AllInStep(windows, past, clock, Bound())
    }

    constructor (limit: int, now: int)
      ensures Valid() && this.limit == limit && past == map[] && clock == now
    {
      this.limit := limit;
      windows, past, clock := map[], map[], now;
    }

    // _enforce_legacy_public_demo_limit, on a clock that does not run backwards.
    // The admissions of every key are those the limit admits among its requests.
    method Enforce(key: string, now: int) returns (verdict: Verdict)
      requires Valid() && clock <= now
      modifies this
      ensures Valid() && clock == now
      ensures past == old(past)[key := Past(old(PastOf(key)).requests + [now], now)]
      ensures windows == old(windows)[key := windows[key]]
      ensures verdict == TooMany <==> Minute(AdmittedOf(old(PastOf(key)).requests, Bound()), now) >= Bound()
    {
      ghost var p := PastOf(key);
      var window := if key in windows then windows[key] else [];
      verdict, window := Visit(window, p, now, Bound());
      PutInStep(windows, past, clock, Bound(), key, window, Past(p.requests + [now], now));
      windows, past, clock := windows[key := window], past[key := Past(p.requests + [now], now)], now;
    }

    // reset_public_rate_limits
    method Reset()
      requires Valid()
      modifies this
      ensures Valid() && windows == map[] && past == map[] && clock == old(clock)
    {
      windows, past := map[], map[];
    }
  }
}
