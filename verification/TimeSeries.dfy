/** The overview's time series: jobs counted in equal buckets that end with the current one.
    Local time has a fixed offset from the epoch's time. */
module TimeSeries {
  import opened Common
  import opened QueueNames
  import D = Delivery

  const HOUR_MS := 3_600_000
  const DAY_MS := 86_400_000

  datatype Timeframe = Hour | HalfDay | Day

  datatype Settings = Settings(bucketMs: nat, defaultLookback: nat)

  function TimeSeriesSettings(tf: Timeframe): Settings {
    match tf
    case Hour => Settings(HOUR_MS, 24)
    case HalfDay => Settings(12 * HOUR_MS, 14)
    case Day => Settings(DAY_MS, 30)
  }

  function BucketMs(tf: Timeframe): (r: nat)
    ensures r == match tf case Hour => 3_600_000 case HalfDay => 43_200_000 case Day => 86_400_000
  {
    TimeSeriesSettings(tf).bucketMs
  }

  const MAX_LOOKBACK := 120

  /** Missing and infinite numbers count as none. */
  function SafeLookback(tf: Timeframe, lookback: Option<real>): (r: nat)
    ensures 1 <= r <= MAX_LOOKBACK
    ensures lookback == None ==> r == match tf case Hour => 24 case HalfDay => 14 case Day => 30
    ensures lookback.Some? && lookback.value < 1.0 ==> r == 1
    ensures lookback.Some? && 1.0 <= lookback.value < 121.0 ==> r as real <= lookback.value < r as real + 1.0
    ensures lookback.Some? && lookback.value >= 121.0 ==> r == 120
  {
    match lookback
    case None => TimeSeriesSettings(tf).defaultLookback
    case Some(x) => if x.Floor < 1 then 1 else if x.Floor > MAX_LOOKBACK then MAX_LOOKBACK else x.Floor
  }

  // ---------------------------------------------------------------------------
  // Where a bucket starts
  // ---------------------------------------------------------------------------

  /** The wall clock's hour, and the time with minutes and below cleared. */
  function LocalHour(local: int): int { (local % DAY_MS) / HOUR_MS }

  function ClearMinutes(local: int): int { local - local % HOUR_MS }

  function SetHours(local: int, hour: int): int { local + (hour - LocalHour(local)) * HOUR_MS }

  function BucketStart(t: int, offset: int, tf: Timeframe): int {
    var local := t + offset;
    var start :=
      match tf
      case Hour => ClearMinutes(local)
      case HalfDay =>
        var h := ClearMinutes(local);
        SetHours(h, if LocalHour(h) < 12 then 0 else 12)
      case Day => SetHours(ClearMinutes(local), 0);
    start - offset
  }

  predicate Aligned(t: int, offset: int, tf: Timeframe) {
    (t + offset) % BucketMs(tf) == 0
  }

  /** The day, the hour within it and what is left over, of a local time. */
  lemma Parts(local: int)
    ensures var d, h := local / DAY_MS, LocalHour(local);
      && 0 <= h < 24
      && ClearMinutes(local) == d * DAY_MS + h * HOUR_MS <= local < ClearMinutes(local) + HOUR_MS
      && LocalHour(ClearMinutes(local)) == h
  {
    var d, r := local / DAY_MS, local % DAY_MS;
    var h, m := r / HOUR_MS, r % HOUR_MS;
    assert local == d * DAY_MS + r && r == h * HOUR_MS + m;
    WholeHours(d * 24 + h, m);
    assert local % HOUR_MS == m;
    WholeDays(d, h * HOUR_MS);
  }

  lemma WholeHours(q: int, m: nat)
    requires m < HOUR_MS
    ensures (q * HOUR_MS + m) % HOUR_MS == m
  {
  }

  lemma WholeDays(d: int, r: nat)
    requires r < DAY_MS
    ensures (d * DAY_MS + r) % DAY_MS == r && (d * DAY_MS + r) / DAY_MS == d
  {
  }

  lemma WholeBuckets(q: int, tf: Timeframe)
    ensures (q * BucketMs(tf)) % BucketMs(tf) == 0
  {
    match tf case Hour => case HalfDay => case Day =>
  }

  /** The number of a time's bucket in local time. */
  lemma BucketNumber(t: int, offset: int, tf: Timeframe) returns (q: int)
    ensures var b := BucketStart(t, offset, tf);
      b + offset == q * BucketMs(tf) && b <= t < b + BucketMs(tf)
  {
    hide LocalHour, ClearMinutes;
    var local := t + offset;
    var d, h := local / DAY_MS, LocalHour(local);
    Parts(local);
    match tf
    case Hour => q := d * 24 + h;
    case HalfDay => q := if h < 12 then 2 * d else 2 * d + 1;
    case Day => q := d;
  }

  /** A time's bucket starts at a boundary, at most one bucket before it. */
  lemma BucketContains(t: int, offset: int, tf: Timeframe)
    ensures var b := BucketStart(t, offset, tf);
      Aligned(b, offset, tf) && b <= t < b + BucketMs(tf)
  {
    hide BucketStart;
    var q := BucketNumber(t, offset, tf);
    WholeBuckets(q, tf);
  }

  /** There is no other such boundary. */
  lemma OnlyBucket(t: int, offset: int, tf: Timeframe, k: int)
    requires Aligned(k, offset, tf)
    ensures k <= t < k + BucketMs(tf) <==> BucketStart(t, offset, tf) == k
  {
    BucketContains(t, offset, tf);
    SameBoundary(BucketStart(t, offset, tf) + offset, k + offset, tf);
  }

  lemma SameBoundary(a: int, b: int, tf: Timeframe)
    requires a % BucketMs(tf) == 0 && b % BucketMs(tf) == 0
    ensures 0 - BucketMs(tf) < a - b < BucketMs(tf) ==> a == b
  {
    match tf case Hour => case HalfDay => case Day =>
  }

  /** Bucket number i from a start. */
  function At(start: int, i: int, tf: Timeframe): int {
    start + i * BucketMs(tf)
  }

  lemma AtNext(start: int, i: int, tf: Timeframe)
    ensures At(start, i + 1, tf) == At(start, i, tf) + BucketMs(tf)
  {
    match tf case Hour => case HalfDay => case Day =>
  }

  lemma AtAligned(start: int, offset: int, i: int, tf: Timeframe)
    requires Aligned(start, offset, tf)
    ensures Aligned(At(start, i, tf), offset, tf)
  {
    match tf case Hour => case HalfDay => case Day =>
  }

  lemma AtOrder(start: int, i: int, k: int, tf: Timeframe)
    ensures At(start, i, tf) <= At(start, k, tf) <==> i <= k
  {
    match tf case Hour => case HalfDay => case Day =>
  }

  // ---------------------------------------------------------------------------
  // Counting
  // ---------------------------------------------------------------------------

  /** A date as it is stored: it may be missing, and it may be no date at all. */
  datatype Date = Missing | Invalid | Ms(at: int)

  datatype Job = Job(updatedAt: Date, requestedAt: Date, status: D.Status)

  function DateOf(j: Job): Date {
    if j.updatedAt != Missing then j.updatedAt else j.requestedAt
  }

  predicate Within(j: Job, lo: int, hi: int) {
    DateOf(j).Ms? && lo <= DateOf(j).at < hi
  }

  /** Jobs dated from lo up to hi, all of them or those with one status. */
  function CountIn(jobs: seq<Job>, lo: int, hi: int, status: Option<D.Status>): nat {
    if jobs == [] then 0
    else
      var last := jobs[|jobs| - 1];
      CountIn(jobs[..|jobs| - 1], lo, hi, status)
        + if Within(last, lo, hi) && (status == None || status == Some(last.status)) then 1 else 0
  }

  datatype Bucket = Bucket(start: int, dispatched: nat, completed: nat, failed: nat)

  function Counted(b: Bucket, status: D.Status): Bucket {
    Bucket(b.start, b.dispatched + 1,
           b.completed + (if status == D.Completed then 1 else 0), b.failed + if status == D.Failed then 1 else 0)
  }

  /** What a bucket should say. */
  predicate Tells(b: Bucket, start: int, jobs: seq<Job>, tf: Timeframe) {
    var end := start + BucketMs(tf);
    b == Bucket(start, CountIn(jobs, start, end, None), CountIn(jobs, start, end, Some(D.Completed)),
                CountIn(jobs, start, end, Some(D.Failed)))
  }

  lemma TellsNext(b: Bucket, start: int, jobs: seq<Job>, job: Job, tf: Timeframe)
    requires Tells(b, start, jobs, tf)
    ensures Tells(if Within(job, start, start + BucketMs(tf)) then Counted(b, job.status) else b, start, jobs + [job], tf)
  {
    assert (jobs + [job])[..|jobs|] == jobs;
  }

  /** The empty buckets from a start to an end, in order. */
  method EmptyBuckets(start: int, n: nat, tf: Timeframe) returns (grouped: map<int, Bucket>, order: seq<int>)
    requires n >= 1
    ensures |order| == n && forall i :: 0 <= i < n ==> order[i] == At(start, i, tf)
    ensures forall k :: k in grouped <==> k in order
    ensures forall k :: k in grouped ==> grouped[k] == Bucket(k, 0, 0, 0)
  {
    var end := At(start, n - 1, tf);
    var cursor := start;
    grouped, order := map[], [];
    while cursor <= end
      invariant cursor == At(start, |order|, tf) && |order| <= n
      invariant forall i :: 0 <= i < |order| ==> order[i] == At(start, i, tf)
      invariant forall k :: k in grouped <==> k in order
      invariant forall k :: k in grouped ==> grouped[k] == Bucket(k, 0, 0, 0)
      decreases n - |order|
    {
      AtOrder(start, |order|, n - 1, tf);
      AtNext(start, |order|, tf);
      grouped := grouped[cursor := Bucket(cursor, 0, 0, 0)];
      order := order + [cursor];
      cursor := cursor + BucketMs(tf);
    }
    AtOrder(start, |order|, n - 1, tf);
  }

  /** Adds every dated job to its bucket, if that bucket is shown. */
  method Group(jobs: seq<Job>, offset: int, tf: Timeframe, empty: map<int, Bucket>) returns (grouped: map<int, Bucket>)
    requires forall k :: k in empty ==> empty[k] == Bucket(k, 0, 0, 0) && Aligned(k, offset, tf)
    ensures grouped.Keys == empty.Keys
    ensures forall k :: k in grouped ==> Tells(grouped[k], k, jobs, tf)
  {
    grouped := empty;
    for n := 0 to |jobs|
      invariant grouped.Keys == empty.Keys
      invariant forall k :: k in grouped ==> Tells(grouped[k], k, jobs[..n], tf)
    {
      var job := jobs[n];
      ghost var before := grouped;
      assert jobs[..n + 1] == jobs[..n] + [job];
      var date := if job.updatedAt == Missing then job.requestedAt else job.updatedAt;
      if date.Ms? {
        var key := BucketStart(date.at, offset, tf);
        if key in grouped {
          grouped := grouped[key := Counted(grouped[key], job.status)];
        }
      }
      forall k | k in grouped ensures Tells(grouped[k], k, jobs[..n + 1], tf) {
        TellsNext(before[k], k, jobs[..n], job, tf);
        if DateOf(job).Ms? {
          OnlyBucket(DateOf(job).at, offset, tf, k);
        }
      }
    }
    assert jobs[..|jobs|] == jobs;
  }

  function FirstStart(end: int, n: nat, tf: Timeframe): int {
    end - (n - 1) * BucketMs(tf)
  }

  lemma LastStart(end: int, offset: int, n: nat, tf: Timeframe)
    requires Aligned(end, offset, tf)
    ensures At(FirstStart(end, n, tf), n - 1, tf) == end
    ensures Aligned(FirstStart(end, n, tf), offset, tf)
  {
    AtAligned(end, offset, 1 - n, tf);
    assert (1 - n) * BucketMs(tf) == 0 - (n - 1) * BucketMs(tf);
  }

  method Buckets(grouped: map<int, Bucket>, order: seq<int>) returns (buckets: seq<Bucket>)
    requires forall i :: 0 <= i < |order| ==> order[i] in grouped
    ensures |buckets| == |order| && forall i :: 0 <= i < |order| ==> order[i] in grouped && buckets[i] == grouped[order[i]]
  {
    buckets := [];
    for i := 0 to |order|
      invariant |buckets| == i
      invariant forall j :: 0 <= j < i ==> order[j] in grouped && buckets[j] == grouped[order[j]]
    {
      buckets := buckets + [grouped[order[i]]];
    }
  }

  /** Exactly the asked number of buckets, one right after the other, the last one current;
      each counts the jobs dated within it. */
  method GetOverviewTimeSeries(now: int, offset: int, tf: Timeframe, lookback: Option<real>, jobs: seq<Job>)
    returns (buckets: seq<Bucket>)
    ensures |buckets| == SafeLookback(tf, lookback)
    ensures buckets[|buckets| - 1].start <= now < buckets[|buckets| - 1].start + BucketMs(tf)
    ensures Series(buckets, offset, jobs, tf)
  {
    var n := SafeLookback(tf, lookback);
    var end := BucketStart(now, offset, tf);
    BucketContains(now, offset, tf);
    var start := FirstStart(end, n, tf);
    LastStart(end, offset, n, tf);
    var empty, order := EmptyBuckets(start, n, tf);
    forall k | k in empty ensures Aligned(k, offset, tf) {
      var i :| 0 <= i < |order| && order[i] == k;
      AtAligned(start, offset, i, tf);
    }
    var grouped := Group(jobs, offset, tf, empty);
    forall i | 0 <= i < |order| ensures order[i] in grouped {
      assert order[i] in order;
      assert order[i] in empty.Keys;
    }
    buckets := Buckets(grouped, order);
    AtOrder(start, 0, 0, tf);
    assert At(start, 0, tf) == start;
    assert forall i :: 0 <= i < n ==> Tells(buckets[i], At(start, i, tf), jobs, tf);
  }

  // ---------------------------------------------------------------------------
  // Every job once
  // ---------------------------------------------------------------------------

  lemma {:induction false} SplitCount(jobs: seq<Job>, lo: int, mid: int, hi: int, status: Option<D.Status>)
    requires lo <= mid <= hi
    ensures CountIn(jobs, lo, hi, status) == CountIn(jobs, lo, mid, status) + CountIn(jobs, mid, hi, status)
  {
    if jobs != [] {
      SplitCount(jobs[..|jobs| - 1], lo, mid, hi, status);
    }
  }

  lemma {:induction false} OutcomesWithin(jobs: seq<Job>, lo: int, hi: int)
    ensures CountIn(jobs, lo, hi, Some(D.Completed)) + CountIn(jobs, lo, hi, Some(D.Failed)) <= CountIn(jobs, lo, hi, None)
  {
    if jobs != [] {
      OutcomesWithin(jobs[..|jobs| - 1], lo, hi);
    }
  }

  function Dispatched(buckets: seq<Bucket>): nat {
    if buckets == [] then 0 else Dispatched(buckets[..|buckets| - 1]) + buckets[|buckets| - 1].dispatched
  }

  /** A series as the method above returns it. */
  predicate Series(buckets: seq<Bucket>, offset: int, jobs: seq<Job>, tf: Timeframe) {
    && buckets != []
    && Aligned(buckets[0].start, offset, tf)
    && forall i :: 0 <= i < |buckets| ==> Tells(buckets[i], At(buckets[0].start, i, tf), jobs, tf)
  }

  /** Main result: the dispatched totals add up to the jobs dated within the window. */
  lemma {:induction false} TotalsAddUp(buckets: seq<Bucket>, offset: int, jobs: seq<Job>, tf: Timeframe)
    requires Series(buckets, offset, jobs, tf)
    ensures Dispatched(buckets) == CountIn(jobs, buckets[0].start, At(buckets[0].start, |buckets|, tf), None)
  {
    var n, start := |buckets| - 1, buckets[0].start;
    AtNext(start, n, tf);
    AtOrder(start, 0, n, tf);
    if n == 0 {
      assert Dispatched(buckets) == buckets[0].dispatched;
    } else {
      TotalsAddUp(buckets[..n], offset, jobs, tf);
      SplitCount(jobs, start, At(start, n, tf), At(start, n + 1, tf), None);
    }
  }

  /** A time lies in the window exactly when it lies in some bucket, and then its bucket is
      the one that starts where the time's own bucket starts, and no other. */
  lemma OneBucketEach(buckets: seq<Bucket>, offset: int, jobs: seq<Job>, tf: Timeframe, t: int) returns (i: int)
    requires Series(buckets, offset, jobs, tf)
    ensures buckets[0].start <= t < At(buckets[0].start, |buckets|, tf) <==> 0 <= i < |buckets|
    ensures forall k :: 0 <= k < |buckets| ==>
      (buckets[k].start <= t < buckets[k].start + BucketMs(tf) <==> k == i)
    ensures 0 <= i < |buckets| ==> buckets[i].start == BucketStart(t, offset, tf)
  {
    var start := buckets[0].start;
    i := (t - start) / BucketMs(tf);
    BoundsOf(start, t, tf);
    AtNext(start, i, tf);
    AtOrder(start, 0, i, tf);
    AtOrder(start, i + 1, 0, tf);
    AtOrder(start, |buckets|, i, tf);
    AtOrder(start, i + 1, |buckets|, tf);
    forall k | 0 <= k < |buckets| ensures buckets[k].start <= t < buckets[k].start + BucketMs(tf) <==> k == i {
      AtNext(start, k, tf);
      AtOrder(start, k + 1, i, tf);
      AtOrder(start, i + 1, k, tf);
    }
    if 0 <= i < |buckets| {
      AtAligned(start, offset, i, tf);
      OnlyBucket(t, offset, tf, buckets[i].start);
    }
  }

  lemma BoundsOf(start: int, t: int, tf: Timeframe)
    ensures var i := (t - start) / BucketMs(tf); At(start, i, tf) <= t < At(start, i, tf) + BucketMs(tf)
  {
  }

  /** In every bucket, completed and failed jobs are among the dispatched ones. */
  lemma OutcomesBounded(buckets: seq<Bucket>, offset: int, jobs: seq<Job>, tf: Timeframe, i: nat)
    requires Series(buckets, offset, jobs, tf) && i < |buckets|
    ensures buckets[i].completed + buckets[i].failed <= buckets[i].dispatched
  {
    var start := At(buckets[0].start, i, tf);
    OutcomesWithin(jobs, start, start + BucketMs(tf));
  }
}
