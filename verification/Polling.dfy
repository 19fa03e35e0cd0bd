/** How a client of the service waits for a job: the adaptive intervals, whatever order they
    are given in, and the polling loop, which ends and does not poll too often. */
module Polling {
  import opened Common
  import opened QueueNames
  import D = Delivery

  /** A step as the caller writes it, and as it is used. */
  datatype Given = Given(afterMs: real, intervalMs: real)

  datatype Step = Step(afterMs: nat, intervalMs: nat)

  const DEFAULT_INTERVALS := [Given(0.0, 120.0), Given(600.0, 200.0), Given(1500.0, 300.0), Given(3000.0, 450.0), Given(6000.0, 700.0)]

  function Max(a: int, b: int): int { if a >= b then a else b }

  /** Whole milliseconds, not before the start and at least one apart. */
  function Clamp(g: Given): (r: Step)
    ensures g.afterMs < 0.0 ==> r.afterMs == 0
    ensures g.afterMs >= 0.0 ==> r.afterMs as real <= g.afterMs < r.afterMs as real + 1.0
    ensures g.intervalMs < 1.0 ==> r.intervalMs == 1
    ensures g.intervalMs >= 1.0 ==> r.intervalMs as real <= g.intervalMs < r.intervalMs as real + 1.0
  {
    Step(Max(0, g.afterMs.Floor), Max(1, g.intervalMs.Floor))
  }

  function Clamped(given: seq<Given>): (r: seq<Step>)
    ensures r != []
    ensures |r| == |if given == [] then DEFAULT_INTERVALS else given|
    ensures forall i :: 0 <= i < |r| ==> r[i] == Clamp((if given == [] then DEFAULT_INTERVALS else given)[i])
  {
    var source := if given == [] then DEFAULT_INTERVALS else given;
    seq(|source|, i requires 0 <= i < |source| => Clamp(source[i]))
  }

  // ---------------------------------------------------------------------------
  // A stable sort
  // ---------------------------------------------------------------------------

  function Insert(x: Step, s: seq<Step>): seq<Step> {
    if s == [] || x.afterMs <= s[0].afterMs then [x] + s else [s[0]] + Insert(x, s[1..])
  }

  function Sort(s: seq<Step>): seq<Step> {
    if s == [] then [] else Insert(s[0], Sort(s[1..]))
  }

  function NormalizeAdaptiveIntervals(given: seq<Given>): seq<Step> {
    Sort(Clamped(given))
  }

  predicate Sorted(s: seq<Step>) {
    forall i, j :: 0 <= i < j < |s| ==> s[i].afterMs <= s[j].afterMs
  }

  lemma {:induction false} InsertElements(x: Step, s: seq<Step>)
    ensures |Insert(x, s)| == |s| + 1
    ensures forall y :: y in Insert(x, s) <==> y == x || y in s
  {
    if s != [] && x.afterMs > s[0].afterMs {
      InsertElements(x, s[1..]);
      assert s == [s[0]] + s[1..];
    }
  }

  lemma {:induction false} InsertSorted(x: Step, s: seq<Step>)
    requires Sorted(s)
    ensures Sorted(Insert(x, s))
  {
    if s != [] && x.afterMs > s[0].afterMs {
      InsertSorted(x, s[1..]);
      InsertElements(x, s[1..]);
      var r := Insert(x, s[1..]);
      forall j | 0 <= j < |r| ensures s[0].afterMs <= r[j].afterMs {
        var y := r[j];
        assert y in r;
        assert y == x || y in s[1..];
      }
    }
  }

  lemma {:induction false} SortSorted(s: seq<Step>)
    ensures Sorted(Sort(s)) && |Sort(s)| == |s|
    ensures forall y :: y in Sort(s) <==> y in s
  {
    if s != [] {
      SortSorted(s[1..]);
      InsertSorted(s[0], Sort(s[1..]));
      InsertElements(s[0], Sort(s[1..]));
      assert s == [s[0]] + s[1..];
    }
  }

  // ---------------------------------------------------------------------------
  // The interval in force
  // ---------------------------------------------------------------------------

  /** The last step of a sorted list that has begun. */
  function LastDue(s: seq<Step>, elapsed: int): Option<Step> {
    if s == [] || s[0].afterMs > elapsed then None
    else if LastDue(s[1..], elapsed).Some? then LastDue(s[1..], elapsed)
    else Some(s[0])
  }

  function Interval(s: seq<Step>, elapsed: int): nat {
    if LastDue(s, elapsed).Some? then LastDue(s, elapsed).value.intervalMs
    else if s != [] then s[0].intervalMs
    else 2000
  }

  lemma {:induction false} LastDueFrom(s: seq<Step>, n: nat, elapsed: int)
    requires n <= |s| && forall i :: 0 <= i < n ==> s[i].afterMs <= elapsed
    requires n < |s| ==> s[n].afterMs > elapsed
    ensures LastDue(s, elapsed) == if n == 0 then None else Some(s[n - 1])
  {
    if n > 0 {
      LastDueFrom(s[1..], n - 1, elapsed);
    }
  }

  /** The loop stops at the first step that has not begun. */
  method ResolveAdaptiveInterval(elapsed: int, intervals: seq<Step>) returns (resolved: nat)
    ensures resolved == Interval(intervals, elapsed)
    ensures intervals == [] ==> resolved == 2000
  {
    resolved := if intervals != [] then intervals[0].intervalMs else 2000;
    var n := 0;
    while n < |intervals|
      invariant 0 <= n <= |intervals|
      invariant forall i :: 0 <= i < n ==> intervals[i].afterMs <= elapsed
      invariant n > 0 ==> resolved == intervals[n - 1].intervalMs
      invariant n == 0 ==> resolved == if intervals != [] then intervals[0].intervalMs else 2000
    {
      if elapsed < intervals[n].afterMs {
        break;
      }
      resolved := intervals[n].intervalMs;
      n := n + 1;
    }
    LastDueFrom(intervals, n, elapsed);
  }

  /** Step i of a list in any order is in force: of those that have begun it began last, and
      of two that began together it was given later; before all of them the earliest is in
      force, and of two equally early ones the one given first. */
  predicate InForce(s: seq<Step>, elapsed: int, i: nat)
    requires i < |s|
  {
    if exists j :: 0 <= j < |s| && s[j].afterMs <= elapsed
    then s[i].afterMs <= elapsed
      && forall j :: 0 <= j < |s| && s[j].afterMs <= elapsed ==>
        s[j].afterMs < s[i].afterMs || (s[j].afterMs == s[i].afterMs && j <= i)
    else forall j :: 0 <= j < |s| ==>
        s[i].afterMs < s[j].afterMs || (s[i].afterMs == s[j].afterMs && i <= j)
  }

  lemma InForceUnique(s: seq<Step>, elapsed: int, i: nat, k: nat)
    requires i < |s| && k < |s| && InForce(s, elapsed, i) && InForce(s, elapsed, k)
    ensures i == k
  {
  }

  lemma {:induction false} DueIsSome(s: seq<Step>, elapsed: int)
    requires Sorted(s)
    ensures match LastDue(s, elapsed)
      case None => forall y :: y in s ==> y.afterMs > elapsed
      case Some(x) => x in s && x.afterMs <= elapsed
  {
    if s != [] && s[0].afterMs <= elapsed {
      DueIsSome(s[1..], elapsed);
    }
  }

  /** A later step wins over an inserted one that begins no later. */
  lemma {:induction false} InsertDue(x: Step, s: seq<Step>, elapsed: int)
    requires Sorted(s)
    ensures var due := LastDue(s, elapsed);
      LastDue(Insert(x, s), elapsed) ==
        if x.afterMs <= elapsed && (due.Some? ==> due.value.afterMs < x.afterMs) then Some(x) else due
  {
    DueIsSome(s, elapsed);
    if s != [] && x.afterMs > s[0].afterMs {
      DueIsSome(s[1..], elapsed);
      InsertDue(x, s[1..], elapsed);
    } else {
      assert ([x] + s)[1..] == s;
    }
  }

  function LastBegun(s: seq<Step>, elapsed: int): Option<nat> {
    if s == [] then None
    else
      match LastBegun(s[1..], elapsed)
      case None => if s[0].afterMs <= elapsed then Some(0) else None
      case Some(j) =>
        if j + 1 < |s| && s[0].afterMs <= elapsed && s[j + 1].afterMs < s[0].afterMs then Some(0) else Some(j + 1)
  }

  lemma {:induction false} BegunInForce(s: seq<Step>, elapsed: int)
    ensures match LastBegun(s, elapsed)
      case None => forall j :: 0 <= j < |s| ==> s[j].afterMs > elapsed
      case Some(i) => i < |s| && s[i].afterMs <= elapsed && InForce(s, elapsed, i) && LastDue(Sort(s), elapsed) == Some(s[i])
    ensures LastBegun(s, elapsed) == None ==> LastDue(Sort(s), elapsed) == None
  {
    if s != [] {
      var t := s[1..];
      BegunInForce(t, elapsed);
      SortSorted(t);
      InsertDue(s[0], Sort(t), elapsed);
      assert forall j :: 1 <= j < |s| ==> s[j] == t[j - 1];
    }
  }

  function Earliest(s: seq<Step>): (i: nat)
    requires s != []
    ensures i < |s|
  {
    if |s| == 1 || s[0].afterMs <= s[1..][Earliest(s[1..])].afterMs then 0 else Earliest(s[1..]) + 1
  }

  lemma {:induction false} EarliestFirst(s: seq<Step>)
    requires s != []
    ensures Sort(s) != [] && Sort(s)[0] == s[Earliest(s)]
    ensures forall j :: 0 <= j < |s| ==>
      s[Earliest(s)].afterMs < s[j].afterMs || (s[Earliest(s)].afterMs == s[j].afterMs && Earliest(s) <= j)
  {
    SortSorted(s);
    if |s| > 1 {
      var t := s[1..];
      EarliestFirst(t);
      assert forall j :: 1 <= j < |s| ==> s[j] == t[j - 1];
    }
  }

  /** Main result on intervals: for any list of steps in any order, the interval used is that
      of the one step in force. */
  lemma AdaptiveInterval(given: seq<Given>, elapsed: int) returns (i: nat)
    ensures var s := Clamped(given);
      i < |s| && InForce(s, elapsed, i) && Interval(NormalizeAdaptiveIntervals(given), elapsed) == s[i].intervalMs
  {
    var s := Clamped(given);
    BegunInForce(s, elapsed);
    EarliestFirst(s);
    i := if LastBegun(s, elapsed).Some? then LastBegun(s, elapsed).value else Earliest(s);
  }

  /** What that means for a caller who gives no steps. */
  lemma DefaultInterval(elapsed: nat)
    ensures Interval(NormalizeAdaptiveIntervals([]), elapsed)
      == if elapsed < 600 then 120 else if elapsed < 1500 then 200 else if elapsed < 3000 then 300
         else if elapsed < 6000 then 450 else 700
  {
    var i := AdaptiveInterval([], elapsed);
    var s := Clamped([]);
    assert s == [Step(0, 120), Step(600, 200), Step(1500, 300), Step(3000, 450), Step(6000, 700)];
    assert s[0].afterMs <= elapsed;
  }

  // ---------------------------------------------------------------------------
  // Waiting
  // ---------------------------------------------------------------------------

  datatype Options = Options(intervalMs: int, timeoutMs: int, adaptive: bool, steps: seq<Given>, fetchResult: bool)

  /** How long a timer really waits: delays below one or above the runtime's maximum are one. */
  function Delay(ms: int): (d: nat)
    ensures d >= 1
    ensures ms < 1 || ms > 2_147_483_647 ==> d == 1
    ensures d != ms ==> ms < 1 || ms > 2_147_483_647
  {
    if 1 <= ms <= 2_147_483_647 then ms else 1
  }

  function NextInterval(o: Options, elapsed: int): int {
    if o.adaptive then Interval(NormalizeAdaptiveIntervals(o.steps), elapsed) else o.intervalMs
  }

  function LeastDelay(s: seq<Step>): (d: nat)
    requires s != []
    ensures d >= 1
    ensures exists i :: 0 <= i < |s| && d == Delay(s[i].intervalMs)
  {
    var first := Delay(s[0].intervalMs);
    if |s| == 1 || first <= LeastDelay(s[1..]) then first else LeastDelay(s[1..])
  }

  lemma {:induction false} LeastDelayIsLeast(s: seq<Step>, i: nat)
    requires i < |s|
    ensures LeastDelay(s) <= Delay(s[i].intervalMs)
  {
    if i > 0 {
      LeastDelayIsLeast(s[1..], i - 1);
    }
  }

  /** The shortest pause the options allow. */
  function Shortest(o: Options): (d: nat)
    ensures d >= 1
  {
    if o.adaptive then LeastDelay(Clamped(o.steps)) else Delay(o.intervalMs)
  }

  lemma ShortestIsShortest(o: Options, elapsed: int)
    ensures Delay(NextInterval(o, elapsed)) >= Shortest(o)
  {
    if o.adaptive {
      var i := AdaptiveInterval(o.steps, elapsed);
      LeastDelayIsLeast(Clamped(o.steps), i);
    }
  }

  predicate Terminal(s: D.Status) {
    s != D.Queued && s != D.Processing
  }

  /** A request throws when it fails and also when the caller aborts it. */
  datatype Outcome = Finished(status: D.Status) | Result | TimedOut | Aborted | RequestFailed

  /** Polls allowed within a time: the quotient, rounded up. */
  function MostPolls(timeoutMs: int, shortest: nat): (r: nat)
    requires shortest >= 1
    ensures timeoutMs <= 0 ==> r == 0
    ensures timeoutMs > 0 ==> (r - 1) * shortest < timeoutMs <= r * shortest
  {
    if timeoutMs <= 0 then 0 else (timeoutMs + shortest - 1) / shortest
  }

  lemma PollBound(polls: nat, shortest: nat, timeoutMs: int)
    requires shortest >= 1 && polls * shortest < timeoutMs
    ensures polls + 1 <= MostPolls(timeoutMs, shortest)
  {
    var q := (timeoutMs + shortest - 1) / shortest;
    assert timeoutMs + shortest - 1 == q * shortest + (timeoutMs + shortest - 1) % shortest;
    if q <= polls {
      Monotone(q, polls, shortest);
    }
  }

  /** A pause that was asked for when this much time had passed. */
  datatype Pause = Pause(elapsed: int, ms: int)

  /** It is the fixed interval, or that of the step in force. */
  ghost predicate PausesRightly(o: Options, p: Pause) {
    if o.adaptive
    then exists i: nat :: i < |Clamped(o.steps)| && InForce(Clamped(o.steps), p.elapsed, i) && p.ms == Clamped(o.steps)[i].intervalMs
    else p.ms == o.intervalMs
  }

  lemma RightPause(o: Options, elapsed: int)
    ensures PausesRightly(o, Pause(elapsed, NextInterval(o, elapsed)))
  {
    if o.adaptive {
      var i := AdaptiveInterval(o.steps, elapsed);
    }
  }

  class Client {
    var now: int
    ghost var polled: seq<D.Status>
    ghost var pauses: seq<Pause>
    ghost var aborted: bool       // the caller has aborted the wait,
    ghost var failed: bool        // a request has failed,
    ghost var found: bool         // the result was there

    constructor ()
      ensures Fresh()
    {
      now := 0;
      polled, pauses := [], [];
      aborted, failed, found := false, false, false;
    }

    ghost predicate Fresh()
      reads this
    {
      polled == [] && pauses == [] && !aborted && !failed && !found
    }

    /** Whether the caller has aborted. */
    method IsAborted() returns (answer: bool)
      modifies `aborted
      ensures answer <==> aborted
    {
      answer := *;
      aborted := answer;
    }

    /** A request takes time and may fail; the server's answer is arbitrary. */
    method GetJob() returns (status: Option<D.Status>)
      modifies `now, `polled, `failed
      ensures now >= old(now) && failed == (old(failed) || status == None)
      ensures polled == if status.Some? then old(polled) + [status.value] else old(polled)
    {
      var time :| 0 <= time;
      now := now + time;
      var failed: bool := *;
      if failed {
        this.failed := true;
        return None;
      }
      var answer: D.Status := *;
      polled := polled + [answer];
      status := Some(answer);
    }

    /** Whether the result was there; None when the request fails. */
    method GetJobResult() returns (answer: Option<bool>)
      modifies `now, `failed, `found
      ensures now >= old(now) && failed == (old(failed) || answer == None) && found == (old(found) || answer == Some(true))
    {
      var time :| 0 <= time;
      now := now + time;
      answer := *;
      failed := failed || answer == None;
      found := found || answer == Some(true);
    }

    /** A sleep lasts its time or more, unless the caller aborts it; a delay that the timer does
        not know lasts one millisecond. */
    method Sleep(ms: int, ghost elapsed: int) returns (woken: bool)
      modifies `now, `pauses, `aborted
      ensures now >= old(now) && pauses == old(pauses) + [Pause(elapsed, ms)] && aborted == (old(aborted) || woken)
      ensures !woken ==> now >= old(now) + Delay(ms)
      ensures !woken && 1 <= ms <= 2_147_483_647 ==> now >= old(now) + ms
    {
      var time :| 0 <= time;
      woken := *;
      aborted := aborted || woken;
      pauses := pauses + [Pause(elapsed, ms)];
      now := now + if woken then time else Delay(ms) + time;
    }

    method WaitForResult(o: Options, startedAt: int) returns (outcome: Outcome)
      requires !aborted && !failed && !found
      modifies `now, `pauses, `aborted, `failed, `found
      ensures now >= old(now) && old(pauses) <= pauses
      ensures aborted == (outcome == Aborted) && failed == (outcome == RequestFailed) && found == (outcome == Result)
      ensures forall i :: |old(pauses)| <= i < |pauses| ==> PausesRightly(o, pauses[i]) && pauses[i].elapsed < o.timeoutMs
      ensures outcome == TimedOut ==> now - startedAt >= o.timeoutMs
      ensures outcome in {Result, TimedOut, Aborted, RequestFailed}
    {
      hide PausesRightly, NextInterval, Clamped;
      while true
        invariant now >= old(now) && old(pauses) <= pauses && !aborted && !failed && !found
        invariant forall i :: |old(pauses)| <= i < |pauses| ==> PausesRightly(o, pauses[i]) && pauses[i].elapsed < o.timeoutMs
        decreases startedAt + o.timeoutMs - now
      {
        var answer := GetJobResult();
        if answer == None {
          return RequestFailed;
        }
        if answer.value {
          return Result;
        }
        if now - startedAt >= o.timeoutMs {
          return TimedOut;
        }
        RightPause(o, now - startedAt);
        var woken := Sleep(NextInterval(o, now - startedAt), now - startedAt);
        if woken {
          return Aborted;
        }
      }
    }

    /** Main result on waiting: the loop ends, with an abort, a failed request or a result only
        when there was one. Each poll is followed by a pause, for the fixed
        interval or for that of the step in force, so it polls at most the timeout divided by
        the shortest pause, rounded up. Every answer but the last was queued or processing; any
        other one is reported as it is, and only a deadline that has passed is reported as a
        timeout. */
    method WaitForCompletion(o: Options) returns (outcome: Outcome, pollCount: nat)
      requires Fresh()
      modifies this
      ensures aborted == (outcome == Aborted) && failed == (outcome == RequestFailed) && found == (outcome == Result)
      ensures pollCount == |polled| <= MostPolls(o.timeoutMs, Shortest(o))
      ensures forall i :: 0 <= i < pollCount - 1 ==> polled[i] == D.Queued || polled[i] == D.Processing
      ensures forall i :: 0 <= i < |pauses| ==> PausesRightly(o, pauses[i])
      ensures outcome.Finished? ==>
        && pollCount > 0 && polled[pollCount - 1] == outcome.status
        && outcome.status != D.Queued && outcome.status != D.Processing
        && !(o.fetchResult && outcome.status == D.Completed)
      ensures outcome.Result? ==> o.fetchResult && pollCount > 0 && polled[pollCount - 1] == D.Completed
      ensures outcome.TimedOut? ==> now - old(now) >= o.timeoutMs
      ensures outcome.TimedOut? && pollCount > 0 && polled[pollCount - 1] != D.Queued && polled[pollCount - 1] != D.Processing ==>
        o.fetchResult && polled[pollCount - 1] == D.Completed
    {
      hide PausesRightly, Interval, NormalizeAdaptiveIntervals, Shortest, MostPolls, Clamped;
      var startedAt := now;
      pollCount := 0;
      while true
        invariant now - startedAt >= pollCount * Shortest(o)
        invariant now >= startedAt == old(now) && pollCount == |polled| <= MostPolls(o.timeoutMs, Shortest(o))
        invariant forall i :: 0 <= i < pollCount ==> !Terminal(polled[i])
        invariant forall i :: 0 <= i < |pauses| ==> PausesRightly(o, pauses[i])
        invariant !aborted && !failed && !found
        decreases startedAt + o.timeoutMs - now
      {
        var stop := IsAborted();
        if stop {
          return Aborted, pollCount;
        }
        if now - startedAt >= o.timeoutMs {
          return TimedOut, pollCount;
        }
        PollBound(pollCount, Shortest(o), o.timeoutMs);
        var status := GetJob();
        if status == None {
          return RequestFailed, pollCount;
        }
        pollCount := pollCount + 1;
        if Terminal(status.value) {
          if status.value == D.Completed && o.fetchResult {
            outcome := WaitForResult(o, startedAt);
            return;
          }
          return Finished(status.value), pollCount;
        }
        ShortestIsShortest(o, now - startedAt);
        RightPause(o, now - startedAt);
        assert pollCount * Shortest(o) == (pollCount - 1) * Shortest(o) + Shortest(o);
        var intervals := NormalizeAdaptiveIntervals(o.steps);
        var interval: int := o.intervalMs;
        if o.adaptive {
          interval := ResolveAdaptiveInterval(now - startedAt, intervals);
        }
        stop := Sleep(interval, now - startedAt);
        if stop {
          return Aborted, pollCount;
        }
      }
    }
  }
}
