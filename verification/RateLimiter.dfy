/** The fixed-window limiter of the public API, and what it guarantees for windows that
    slide: a key is admitted fewer than twice its limit within any minute. */
module RateLimiter {

  type Key = string

  const WINDOW := 60_000

  datatype Bucket = Bucket(count: nat, resetAt: nat)

  type Buckets = map<Key, Bucket>

  // ---------------------------------------------------------------------------
  // One request
  // ---------------------------------------------------------------------------

  function Current(buckets: Buckets, key: Key, now: nat): Bucket {
    if key !in buckets || buckets[key].resetAt <= now then Bucket(0, now + WINDOW) else buckets[key]
  }

  function Counted(buckets: Buckets, key: Key, now: nat): Buckets {
    var b := Current(buckets, key, now);
    buckets[key := b.(count := b.count + 1)]
  }

  predicate Admits(buckets: Buckets, key: Key, limit: nat, now: nat) {
    Current(buckets, key, now).count + 1 <= limit
  }

  /** What the API knows about the key of a request. A stored limit of null means unlimited. */
  datatype ApiKey = Unknown | Unlimited | Limited(limit: nat)

  /** A stored limit of zero is ignored. */
  function LimitOf(apiKey: ApiKey, globalLimit: nat): nat {
    match apiKey
    case Limited(n) => if n != 0 then n else globalLimit
    case Unknown => globalLimit
    case Unlimited => globalLimit
  }

  datatype Headers = NoLimit | Headers(limit: nat, remaining: nat, resetSeconds: nat)

  class PublicApiRateLimit {
    var buckets: Buckets

    constructor ()
      ensures buckets == map[]
    {
      buckets := map[];
    }

    /** Counts the request and says whether it is let through. */
    method Use(key: Key, apiKey: ApiKey, globalLimit: nat, now: nat) returns (admitted: bool, headers: Headers)
      modifies this
      ensures apiKey.Unlimited? ==> admitted && buckets == old(buckets) && headers == NoLimit
      ensures !apiKey.Unlimited? ==>
        && key in buckets && buckets == old(buckets)[key := buckets[key]]
        && buckets[key] == (if key in old(buckets) && now < old(buckets)[key].resetAt
                            then Bucket(old(buckets)[key].count + 1, old(buckets)[key].resetAt)
                            else Bucket(1, now + 60_000))
        && headers.Headers?
        && headers.limit == (if apiKey.Limited? && apiKey.limit > 0 then apiKey.limit else globalLimit)
        && (admitted <==> buckets[key].count <= headers.limit)
      ensures !apiKey.Unlimited? ==>
        && buckets == Counted(old(buckets), key, now)
        && admitted == Admits(old(buckets), key, headers.limit, now)
        && (headers.remaining == 0 <==> buckets[key].count >= headers.limit)
        && (headers.remaining > 0 ==> headers.remaining + buckets[key].count == headers.limit)
        && headers.resetSeconds * 1000 - 1000 < buckets[key].resetAt <= headers.resetSeconds * 1000
    {
      if apiKey.Unlimited? {
        return true, NoLimit;
      }
      var limit := LimitOf(apiKey, globalLimit);
      var bucket := Bucket(0, now + WINDOW);
      if key in buckets && buckets[key].resetAt > now {
        bucket := buckets[key];
      }
      bucket := bucket.(count := bucket.count + 1);
      buckets := buckets[key := bucket];
      var remaining := if limit > bucket.count then limit - bucket.count else 0;
      headers := Headers(limit, remaining, (bucket.resetAt + 999) / 1000);
      admitted := bucket.count <= limit;
    }
  }

  // ---------------------------------------------------------------------------
  // Traces
  // ---------------------------------------------------------------------------

  datatype Request = Request(key: Key, at: nat)

  /** A fixed limit for each key. */
  type Limits = Key -> nat

  function After(reqs: seq<Request>): Buckets {
    if reqs == [] then map[]
    else var r := reqs[|reqs| - 1]; Counted(After(reqs[..|reqs| - 1]), r.key, r.at)
  }

  predicate Admitted(limits: Limits, reqs: seq<Request>)
    requires reqs != []
  {
    var r := reqs[|reqs| - 1];
    Admits(After(reqs[..|reqs| - 1]), r.key, limits(r.key), r.at)
  }

  /** Admitted requests of a key in the half-open minute from t. */
  function CountIn(limits: Limits, reqs: seq<Request>, key: Key, t: nat): nat {
    if reqs == [] then 0
    else
      var r := reqs[|reqs| - 1];
      CountIn(limits, reqs[..|reqs| - 1], key, t)
        + if r.key == key && t <= r.at < t + WINDOW && Admitted(limits, reqs) then 1 else 0
  }

  predicate Ordered(reqs: seq<Request>) {
    forall i, j :: 0 <= i < j < |reqs| ==> reqs[i].at <= reqs[j].at
  }

  function Min(a: nat, b: nat): nat { if a <= b then a else b }

  /** One less, but not below zero. */
  function Less(n: nat): nat { if n == 0 then 0 else n - 1 }

  /** How many admissions the minute from t can hold when a key's bucket looks like this:
      a window that opened before t has spent its first admission outside, and at most one
      more window opens within the minute. */
  predicate Within(count: nat, limit: nat, buckets: Buckets, key: Key, t: nat) {
    if key !in buckets then count == 0
    else
      var b := buckets[key];
      && b.count >= 1 && b.resetAt >= WINDOW
      && (b.resetAt - WINDOW < t ==> count <= Less(Min(b.count, limit)))
      && (t <= b.resetAt - WINDOW < t + WINDOW ==> count <= Less(limit) + Min(b.count, limit))
      && count <= Less(limit) + limit
  }

  lemma {:induction false} SlidingInvariant(limits: Limits, reqs: seq<Request>, key: Key, t: nat)
    requires Ordered(reqs)
    ensures Within(CountIn(limits, reqs, key, t), limits(key), After(reqs), key, t)
    ensures reqs != [] && reqs[|reqs| - 1].at < t ==> CountIn(limits, reqs, key, t) == 0
    ensures forall k :: k in After(reqs) ==> After(reqs)[k].resetAt >= WINDOW
    ensures forall k :: k in After(reqs) && reqs != [] ==> After(reqs)[k].resetAt - WINDOW <= reqs[|reqs| - 1].at
  {
    if reqs != [] {
      var n := |reqs| - 1;
      SlidingInvariant(limits, reqs[..n], key, t);
      if n > 0 { assert reqs[..n][n - 1].at <= reqs[n].at; }
    }
  }

  /** Main result: within any minute a key with limit n >= 1 is admitted at most 2n - 1
      times, one less than twice its limit; with limit 0 it is never admitted. */
  lemma SlidingBound(limits: Limits, reqs: seq<Request>, key: Key, t: nat)
    requires Ordered(reqs)
    ensures CountIn(limits, reqs, key, t) <= if limits(key) == 0 then 0 else 2 * limits(key) - 1
  {
    SlidingInvariant(limits, reqs, key, t);
  }

  /** Admitted requests of a key in the window that resets at r. */
  function CountInWindow(limits: Limits, reqs: seq<Request>, key: Key, r: nat): nat {
    if reqs == [] then 0
    else
      var x := reqs[|reqs| - 1];
      CountInWindow(limits, reqs[..|reqs| - 1], key, r)
        + if x.key == key && After(reqs)[key].resetAt == r && Admitted(limits, reqs) then 1 else 0
  }

  lemma {:induction false} WindowInvariant(limits: Limits, reqs: seq<Request>, key: Key, r: nat)
    requires Ordered(reqs)
    ensures var n := CountInWindow(limits, reqs, key, r);
      && n <= limits(key)
      && (key !in After(reqs) || After(reqs)[key].resetAt < r ==> n == 0)
      && (key in After(reqs) && After(reqs)[key].resetAt == r ==> n == Min(After(reqs)[key].count, limits(key)))
  {
    if reqs != [] {
      WindowInvariant(limits, reqs[..|reqs| - 1], key, r);
    }
  }

  /** Each window admits at most the limit, and exactly that many once it is used up. */
  lemma WindowBound(limits: Limits, reqs: seq<Request>, key: Key, r: nat)
    requires Ordered(reqs)
    ensures CountInWindow(limits, reqs, key, r) <= limits(key)
    ensures key in After(reqs) && After(reqs)[key].resetAt == r && After(reqs)[key].count >= limits(key)
      ==> CountInWindow(limits, reqs, key, r) == limits(key)
  {
    WindowInvariant(limits, reqs, key, r);
  }

  // ---------------------------------------------------------------------------
  // The bound is attained
  // ---------------------------------------------------------------------------

  function Burst(key: Key, at: nat, n: nat): seq<Request> {
    seq(n, _ => Request(key, at))
  }

  lemma OneMore(limits: Limits, reqs: seq<Request>, key: Key, at: nat, t: nat)
    ensures var all := reqs + [Request(key, at)];
      && After(all) == Counted(After(reqs), key, at)
      && CountIn(limits, all, key, t) == CountIn(limits, reqs, key, t)
        + if t <= at < t + WINDOW && Admits(After(reqs), key, limits(key), at) then 1 else 0
  {
    assert (reqs + [Request(key, at)])[..|reqs|] == reqs;
  }

  lemma {:induction false} BurstCounts(limits: Limits, reqs: seq<Request>, key: Key, at: nat, n: nat, t: nat)
    requires key in After(reqs) && at < After(reqs)[key].resetAt && t <= at < t + WINDOW
    requires After(reqs)[key].count + n <= limits(key)
    ensures var all := reqs + Burst(key, at, n);
      && key in After(all) && After(all)[key] == Bucket(After(reqs)[key].count + n, After(reqs)[key].resetAt)
      && CountIn(limits, all, key, t) == CountIn(limits, reqs, key, t) + n
  {
    hide After, CountIn;
    if n == 0 {
      assert reqs + Burst(key, at, n) == reqs;
    } else {
      var before := reqs + Burst(key, at, n - 1);
      BurstCounts(limits, reqs, key, at, n - 1, t);
      assert reqs + Burst(key, at, n) == before + [Request(key, at)];
      OneMore(limits, before, key, at, t);
    }
  }

  lemma OrderedBurst(reqs: seq<Request>, key: Key, at: nat, n: nat)
    requires Ordered(reqs) && forall i :: 0 <= i < |reqs| ==> reqs[i].at <= at
    ensures Ordered(reqs + Burst(key, at, n))
    ensures forall i :: 0 <= i < |reqs + Burst(key, at, n)| ==> (reqs + Burst(key, at, n))[i].at <= at
  {
  }

  /** n requests at one time, the first of which opens a window. */
  lemma FreshBurst(limits: Limits, reqs: seq<Request>, key: Key, at: nat, n: nat, t: nat)
    requires 1 <= n <= limits(key) && t <= at < t + WINDOW
    requires key in After(reqs) && After(reqs)[key].resetAt <= at
    ensures CountIn(limits, reqs + Burst(key, at, n), key, t) == CountIn(limits, reqs, key, t) + n
  {
    hide After, CountIn;
    var first := reqs + [Request(key, at)];
    OneMore(limits, reqs, key, at, t);
    BurstCounts(limits, first, key, at, n - 1, t);
    assert reqs + Burst(key, at, n) == first + Burst(key, at, n - 1);
  }

  lemma FirstRequest(limits: Limits, key: Key)
    ensures After([Request(key, 0)]) == map[key := Bucket(1, WINDOW)]
    ensures CountIn(limits, [Request(key, 0)], key, 1) == 0
  {
    assert [Request(key, 0)][..0] == [];
  }

  /** A window that opens at 0 and is used up just before it resets. */
  lemma UsedUp(limits: Limits, key: Key) returns (reqs: seq<Request>)
    requires limits(key) >= 1
    ensures Ordered(reqs) && forall i :: 0 <= i < |reqs| ==> reqs[i].at <= WINDOW - 1
    ensures key in After(reqs) && After(reqs)[key].resetAt == WINDOW
    ensures CountIn(limits, reqs, key, 1) == limits(key) - 1
  {
    hide After, CountIn, Admits;
    var n := limits(key);
    var first := [Request(key, 0)];
    FirstRequest(limits, key);
    BurstCounts(limits, first, key, WINDOW - 1, n - 1, 1);
    OrderedBurst(first, key, WINDOW - 1, n - 1);
    reqs := first + Burst(key, WINDOW - 1, n - 1);
  }

  /** One request opens a window, the rest of its limit follows just before it resets, and
      a full limit right after: 2n - 1 admissions within one minute. */
  lemma BoundAttained(limits: Limits, key: Key) returns (reqs: seq<Request>)
    requires limits(key) >= 1
    ensures Ordered(reqs) && CountIn(limits, reqs, key, 1) == 2 * limits(key) - 1
  {
    hide After, CountIn;
    var full := UsedUp(limits, key);
    FreshBurst(limits, full, key, WINDOW, limits(key), 1);
    OrderedBurst(full, key, WINDOW, limits(key));
    reqs := full + Burst(key, WINDOW, limits(key));
  }
}
