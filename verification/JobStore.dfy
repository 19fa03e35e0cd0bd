/** The record store that the API and the workers share: job records, the index of the jobs
    saved most recently, and idempotency keys. The index is kept by remove, push and trim;
    it always lists the distinct ids of the saves, newest first, up to its maximum. */
module JobStore {
  import opened Common
  import opened QueueNames
  import D = Delivery

  type JobId = string

  /** A missing text is the empty text. */
  datatype Record = Record(jobId: JobId, strategy: Strategy, status: D.Status, progress: nat, stage: string,
                           error: string, requestedAt: nat, updatedAt: nat, targetWorkerId: string,
                           targetServiceName: string, targetHostname: string, retriedFrom: JobId,
                           webhookUrl: string, useCache: bool, idempotencyKey: string)

  datatype Result = Result(jobId: JobId, status: D.Status, strategy: Strategy, requestedAt: nat, completedAt: nat,
                           content: string, cached: bool, targetWorkerId: string, targetServiceName: string,
                           targetHostname: string, retriedFrom: JobId, webhookUrl: string, idempotencyKey: string)

  // ---------------------------------------------------------------------------
  // List commands
  // ---------------------------------------------------------------------------

  function LRem(s: seq<JobId>, id: JobId): seq<JobId> {
    if s == [] then [] else (if s[0] == id then [] else [s[0]]) + LRem(s[1..], id)
  }

  function LTrim<T>(s: seq<T>, n: nat): seq<T> {
    if |s| <= n then s else s[..n]
  }

  /** Both ends inclusive. */
  function LRange<T>(s: seq<T>, start: nat, stop: nat): seq<T> {
    var end := if stop < |s| then stop + 1 else |s|;
    if start < end then s[start..end] else []
  }

  // ---------------------------------------------------------------------------
  // The index: distinct ids of the history read backwards
  // ---------------------------------------------------------------------------

  function Reverse(s: seq<JobId>): (r: seq<JobId>)
    ensures |r| == |s|
    ensures forall k :: 0 <= k < |s| ==> r[k] == s[|s| - 1 - k]
  {
    seq(|s|, k requires 0 <= k < |s| => s[|s| - 1 - k])
  }

  /** The elements in the order of their first occurrence. */
  function FirstSeen(s: seq<JobId>): seq<JobId> {
    if s == [] then []
    else
      var n := |s| - 1;
      FirstSeen(s[..n]) + if s[n] in s[..n] then [] else [s[n]]
  }

  function Recent(history: seq<JobId>, max: nat): seq<JobId> {
    LTrim(FirstSeen(Reverse(history)), max)
  }

  lemma {:induction false} FirstSeenElements(s: seq<JobId>)
    ensures forall x :: x in FirstSeen(s) <==> x in s
    ensures Distinct(FirstSeen(s))
  {
    if s != [] {
      var n := |s| - 1;
      FirstSeenElements(s[..n]);
      assert s == s[..n] + [s[n]];
    }
  }

  lemma RemoveFew(x: JobId, y: JobId)
    ensures LRem([], x) == [] && LRem([y], x) == if x == y then [] else [y]
  {
  }

  lemma RemoveHead(s: seq<JobId>, id: JobId)
    requires s != []
    ensures LRem(s, id) == (if s[0] == id then [] else [s[0]]) + LRem(s[1..], id)
  {
  }

  lemma {:induction false} RemoveAppend(a: seq<JobId>, b: seq<JobId>, id: JobId)
    ensures LRem(a + b, id) == LRem(a, id) + LRem(b, id)
  {
    hide LRem;
    if a == [] {
      assert a + b == b;
      RemoveFew(id, id);
    } else {
      RemoveAppend(a[1..], b, id);
      RemoveHead(a, id);
      RemoveHead(a + b, id);
      assert (a + b)[1..] == a[1..] + b;
    }
  }

  lemma {:induction false} RemoveAbsent(s: seq<JobId>, id: JobId)
    requires id !in s
    ensures LRem(s, id) == s
  {
    if s != [] {
      RemoveAbsent(s[1..], id);
    }
  }

  lemma {:induction false} RemoveOne(s: seq<JobId>, id: JobId)
    requires Distinct(s)
    ensures |LRem(s, id)| >= |s| - 1
  {
    if s != [] {
      if s[0] == id {
        RemoveAbsent(s[1..], id);
      } else {
        RemoveOne(s[1..], id);
      }
    }
  }

  lemma FirstSeenSnoc(s: seq<JobId>, y: JobId)
    ensures FirstSeen(s + [y]) == FirstSeen(s) + if y in s then [] else [y]
  {
    assert (s + [y])[..|s|] == s;
  }

  lemma {:induction false} FirstSeenCons(x: JobId, s: seq<JobId>)
    ensures FirstSeen([x] + s) == [x] + LRem(FirstSeen(s), x)
  {
    if s == [] {
      assert [x] + s == [] + [x];
      FirstSeenSnoc([], x);
    } else {
      var t, y := s[..|s| - 1], s[|s| - 1];
      FirstSeenCons(x, t);
      FirstSeenConsStep(x, t, y);
      assert s == t + [y];
    }
  }

  lemma FirstSeenConsStep(x: JobId, t: seq<JobId>, y: JobId)
    requires FirstSeen([x] + t) == [x] + LRem(FirstSeen(t), x)
    ensures FirstSeen([x] + (t + [y])) == [x] + LRem(FirstSeen(t + [y]), x)
  {
    hide FirstSeen, LRem;
    FirstSeenSnoc(t, y);
    FirstSeenSnoc([x] + t, y);
    assert [x] + (t + [y]) == [x] + t + [y];
    RemoveFew(x, y);
    RemoveAppend(FirstSeen(t), if y in t then [] else [y], x);
  }

  /** Removing, pushing and trimming a trimmed list is the same as trimming at the end. */
  lemma TrimmedPush(all: seq<JobId>, id: JobId, max: nat)
    requires Distinct(all) && max >= 1
    ensures LTrim([id] + LRem(LTrim(all, max), id), max) == LTrim([id] + LRem(all, id), max)
  {
    if |all| > max {
      assert all == all[..max] + all[max..];
      RemoveAppend(all[..max], all[max..], id);
      RemoveOne(all[..max], id);
    }
  }

  /** One save in terms of the history. */
  lemma SaveRefines(history: seq<JobId>, id: JobId, max: nat)
    requires max >= 1
    ensures LTrim([id] + LRem(Recent(history, max), id), max) == Recent(history + [id], max)
  {
    var back := Reverse(history);
    assert Reverse(history + [id]) == [id] + back;
    FirstSeenCons(id, back);
    FirstSeenElements(back);
    TrimmedPush(FirstSeen(back), id, max);
  }

  function Ids(s: seq<JobId>): set<JobId> {
    set x | x in s
  }

  lemma {:induction false} FirstSeenLength(s: seq<JobId>)
    ensures |FirstSeen(s)| == |Ids(s)|
  {
    if s != [] {
      var n := |s| - 1;
      FirstSeenLength(s[..n]);
      assert s == s[..n] + [s[n]];
      if s[n] in s[..n] {
        assert Ids(s) == Ids(s[..n]);
      } else {
        assert Ids(s) == Ids(s[..n]) + {s[n]};
      }
    }
  }

  lemma {:induction false} FirstSeenPrefix(a: seq<JobId>, b: seq<JobId>)
    ensures FirstSeen(a) <= FirstSeen(a + b)
  {
    if b == [] {
      assert a + b == a;
    } else {
      FirstSeenPrefix(a, b[..|b| - 1]);
      assert (a + b)[..|a + b| - 1] == a + b[..|b| - 1];
    }
  }

  /** What the index says: a job last saved at position j is listed exactly when fewer than
      max other jobs were saved since, and its place is the number of those jobs. */
  lemma IndexPlace(history: seq<JobId>, j: nat, max: nat)
    requires j < |history| && history[j] !in history[j + 1..]
    ensures var later := |Ids(history[j + 1..])|;
      && (history[j] in Recent(history, max) <==> later < max)
      && (later < max ==> later < |Recent(history, max)| && Recent(history, max)[later] == history[j])
  {
    var id, after := history[j], Reverse(history[j + 1..]);
    assert Reverse(history) == (after + [id]) + Reverse(history[..j]);
    FirstSeenPrefix(after + [id], Reverse(history[..j]));
    assert (after + [id])[..|after|] == after;
    assert id !in after;
    assert FirstSeen(after + [id]) == FirstSeen(after) + [id];
    FirstSeenLength(after);
    forall x ensures x in Ids(after) <==> x in Ids(history[j + 1..]) {
      SameElements(history[j + 1..], x);
    }
    assert Ids(after) == Ids(history[j + 1..]);
    var all := FirstSeen(Reverse(history));
    assert all[|FirstSeen(after)|] == id;
    FirstSeenElements(Reverse(history));
  }

  lemma SameElements(s: seq<JobId>, x: JobId)
    ensures x in Reverse(s) <==> x in s
  {
    if x in s {
      var i :| 0 <= i < |s| && s[i] == x;
      assert Reverse(s)[|s| - 1 - i] == x;
    }
  }

  lemma RecentKnown(history: seq<JobId>, max: nat)
    ensures Distinct(Recent(history, max)) && |Recent(history, max)| <= max
    ensures forall x :: x in Recent(history, max) ==> x in history
  {
    FirstSeenElements(Reverse(history));
    forall x | x in Recent(history, max) ensures x in history {
      assert x in FirstSeen(Reverse(history));
      SameElements(history, x);
    }
  }

  // ---------------------------------------------------------------------------
  // The store
  // ---------------------------------------------------------------------------

  datatype Binding = Binding(jobId: JobId, expiresAt: nat)

  datatype StoredResult = StoredResult(result: Result, expiresAt: nat)

  class JobStore {
    const max: nat
    const resultTtl: nat
    var records: map<JobId, Record>
    var index: seq<JobId>
    var keys: map<string, Binding>
    var results: map<JobId, StoredResult>
    var now: nat
    ghost var history: seq<JobId>

    ghost predicate Valid()
      reads this
    {
      && max >= 1
      && index == Recent(history, max)
      && (forall id :: id in history <==> id in records)
      && (forall id :: id in records ==> records[id].jobId == id)
    }

    constructor (max: nat, resultTtl: nat)
      requires max >= 1
      ensures Valid() && records == map[] && keys == map[] && results == map[] && now == 0 && history == []
      ensures this.max == max && this.resultTtl == resultTtl
    {
      this.max := max;
      this.resultTtl := resultTtl;
      records := map[];
      index := [];
      keys := map[];
      results := map[];
      now := 0;
      history := [];
    }

    /** The listed records, newest first. */
    ghost function Listing(): (r: seq<Record>)
      requires Valid()
      reads this
      ensures |r| == |index| <= max
      ensures forall k :: 0 <= k < |r| ==> index[k] in records && r[k] == records[index[k]]
    {
      RecentKnown(history, max);
      var ids, stored := index, records;
      assert forall k :: 0 <= k < |ids| ==> ids[k] in ids;
      seq(|ids|, k requires 0 <= k < |ids| && ids[k] in stored => stored[ids[k]])
    }

    method SaveRecord(record: Record)
      requires Valid()
      modifies `records, `index, `history
      ensures Valid()
      ensures records == old(records)[record.jobId := record] && history == old(history) + [record.jobId]
    {
      SaveRefines(history, record.jobId, max);
      records := records[record.jobId := record];
      index := LRem(index, record.jobId);
      index := [record.jobId] + index;
      index := LTrim(index, max);
      history := history + [record.jobId];
    }

    method GetRecord(id: JobId) returns (record: Option<Record>)
      ensures record == if id in records then Some(records[id]) else None
    {
      if id !in records {
        return None;
      }
      return Some(records[id]);
    }

    /** An update of an unknown job changes nothing; any other keeps what it does not name
        and makes the job the newest. */
    method UpdateStatus(id: JobId, status: D.Status, error: string) returns (updated: Option<Record>)
      requires Valid()
      modifies `records, `index, `history
      ensures Valid()
      ensures id !in old(records) ==> updated == None && unchanged(this)
      ensures id in old(records) ==>
        && updated == Some(old(records)[id].(status := status, error := error, updatedAt := now))
        && records == old(records)[id := updated.value] && history == old(history) + [id]
    {
      var existing := GetRecord(id);
      if existing == None {
        return None;
      }
      var record := existing.value.(status := status, error := error, updatedAt := now);
      SaveRecord(record);
      return Some(record);
    }

    method UpdateProgress(id: JobId, progress: nat, stage: string, error: string) returns (updated: Option<Record>)
      requires Valid()
      modifies `records, `index, `history
      ensures Valid()
      ensures id !in old(records) ==> updated == None && unchanged(this)
      ensures id in old(records) ==>
        && updated == Some(old(records)[id].(progress := progress, stage := stage, error := error, updatedAt := now))
        && records == old(records)[id := updated.value] && history == old(history) + [id]
    {
      var existing := GetRecord(id);
      if existing == None {
        return None;
      }
      var record := existing.value.(progress := progress, stage := stage, error := error, updatedAt := now);
      SaveRecord(record);
      return Some(record);
    }

    /** The job an idempotency key is bound to, while the binding has not expired. */
    method GetIdempotentJob(key: string) returns (record: Option<Record>)
      requires Valid()
      ensures record.Some? <==> key in keys && now < keys[key].expiresAt && keys[key].jobId in records
      ensures record.Some? ==> record.value == records[keys[key].jobId] && record.value.jobId == keys[key].jobId
    {
      if key !in keys || keys[key].expiresAt <= now {
        return None;
      }
      record := GetRecord(keys[key].jobId);
    }

    method SaveIdempotentJob(key: string, id: JobId)
      requires Valid()
      modifies `keys
      ensures Valid() && keys == old(keys)[key := Binding(id, now + resultTtl)]
    {
      keys := keys[key := Binding(id, now + resultTtl)];
    }

    method SaveResult(result: Result)
      requires Valid()
      modifies `results
      ensures Valid() && results == old(results)[result.jobId := StoredResult(result, now + resultTtl)]
    {
      results := results[result.jobId := StoredResult(result, now + resultTtl)];
    }

    /** The result of a job, while it has not expired. */
    method GetResult(id: JobId) returns (result: Option<Result>)
      requires Valid()
      ensures result.Some? <==> id in results && now < results[id].expiresAt
      ensures result.Some? ==> result.value == results[id].result
    {
      if id !in results || results[id].expiresAt <= now {
        return None;
      }
      return Some(results[id].result);
    }

    // -------------------------------------------------------------------------
    // Reading the index
    // -------------------------------------------------------------------------

    /** Ids without a record are dropped. */
    function Present(ids: seq<JobId>): seq<Record>
      reads this
    {
      if ids == [] then []
      else (if ids[0] in records then [records[ids[0]]] else []) + Present(ids[1..])
    }

    lemma {:induction false} NothingDropped(ids: seq<JobId>)
      requires forall id :: id in ids ==> id in records
      ensures |Present(ids)| == |ids|
      ensures forall k :: 0 <= k < |ids| ==> Present(ids)[k] == records[ids[k]]
    {
      if ids != [] {
        NothingDropped(ids[1..]);
      }
    }

    /** At most limit records from the offset on; a limit below one counts as one, an
        offset below zero as zero. */
    method ListRecords(limit: int, offset: int) returns (r: seq<Record>)
      requires Valid()
      ensures r == Window(Listing(), if offset < 0 then 0 else offset, if limit < 1 then 1 else limit)
    {
      hide Valid, Listing, LRange, Window;
      var safeLimit := if limit < 1 then 1 else limit;
      var safeOffset := if offset < 0 then 0 else offset;
      var ids := LRange(index, safeOffset, safeOffset + safeLimit - 1);
      ghost var all := Listing();
      RangeIsWindow(index, safeOffset, safeLimit);
      WindowElements(index, safeOffset, safeLimit);
      WindowElements(all, safeOffset, safeLimit);
      NothingDropped(ids);
      r := Present(ids);
      assert r == Window(all, safeOffset, safeLimit);
    }

    method CountRecords() returns (n: nat)
      requires Valid()
      ensures n == |Listing()|
    {
      n := |index|;
    }

    method GetPaginatedJobs(page: Option<int>, pageSize: Option<int>) returns (s: Snapshot)
      requires Valid()
      ensures s == PageOf(Listing(), page, pageSize)
    {
      hide Valid, Listing, Window;
      var p := if page.Some? && page.value > 0 then page.value else 1;
      var size := SafePageSize(pageSize);
      NonNegative(p - 1, size);
      var offset := (p - 1) * size;
      var total := CountRecords();
      var jobs := ListRecords(size, offset);
      var pages := if total > 0 then (total + size - 1) / size else 1;
      s := Snapshot(jobs, p, size, total, pages, p < pages, p > 1);
    }

    /** All listed records by status, and the newest of them. */
    method GetOverviewData(limit: Option<int>) returns (recent: seq<Record>, total: nat, counts: map<D.Status, nat>)
      requires Valid()
      ensures total == |Listing()|
      ensures Tallies(counts, Listing())
      ensures recent <= Listing()
      ensures limit == None ==> recent == Listing()
      ensures limit.Some? && limit.value >= 1 ==> |recent| == if |Listing()| <= limit.value then |Listing()| else limit.value
      ensures limit.Some? && limit.value < 1 ==> |recent| == if Listing() == [] then 0 else 1
    {
      hide Valid, Tallies, Newest, Recent, Listing;
      ghost var all := Listing();
      total := |index|;
      counts := NO_COUNTS;
      NoCountsTally();
      assert all[..0] == [];
      NewestNone(limit);
      recent := [];
      for n := 0 to total
        invariant recent == Newest(all[..n], limit) && Tallies(counts, all[..n])
      {
        var record := records[index[n]];
        assert record == all[n];
        TalliesNext(counts, all, n);
        NewestNext(all, n, limit);
        counts := counts[record.status := counts[record.status] + 1];
        if limit == None || |recent| < SafeRecentLimit(limit.value) {
          recent := recent + [record];
        }
      }
      assert all[..total] == all;
      NewestAre(all, limit);
    }
  }

  function SafeRecentLimit(limit: int): nat {
    if limit < 1 then 1 else limit
  }

  function Newest(records: seq<Record>, limit: Option<int>): seq<Record> {
    if limit == None then records else LTrim(records, SafeRecentLimit(limit.value))
  }

  lemma NewestAre(records: seq<Record>, limit: Option<int>)
    ensures Newest(records, limit) <= records
    ensures limit == None ==> Newest(records, limit) == records
    ensures limit.Some? && limit.value >= 1 ==>
      |Newest(records, limit)| == if |records| <= limit.value then |records| else limit.value
    ensures limit.Some? && limit.value < 1 ==> |Newest(records, limit)| == if records == [] then 0 else 1
  {
  }

  lemma NewestNone(limit: Option<int>)
    ensures Newest([], limit) == []
  {
  }

  lemma NewestNext(all: seq<Record>, n: nat, limit: Option<int>)
    requires n < |all|
    ensures var newest := Newest(all[..n], limit);
      Newest(all[..n + 1], limit)
        == if limit == None || |newest| < SafeRecentLimit(limit.value) then newest + [all[n]] else newest
  {
    assert all[..n + 1] == all[..n] + [all[n]];
  }

  ghost predicate Tallies(counts: map<D.Status, nat>, records: seq<Record>) {
    forall s :: s in counts && counts[s] == WithStatus(records, s)
  }

  const NO_COUNTS: map<D.Status, nat> :=
    map[D.Queued := 0, D.Processing := 0, D.Completed := 0, D.Failed := 0, D.Cancelled := 0, D.Timeout := 0]

  lemma NoCountsTally()
    ensures Tallies(NO_COUNTS, [])
  {
    forall s: D.Status ensures s in NO_COUNTS && NO_COUNTS[s] == 0 {
      match s case Queued => case Processing => case Completed => case Failed => case Cancelled => case Timeout =>
    }
  }

  lemma TalliesNext(counts: map<D.Status, nat>, all: seq<Record>, n: nat)
    requires n < |all| && Tallies(counts, all[..n])
    ensures all[n].status in counts && Tallies(counts[all[n].status := counts[all[n].status] + 1], all[..n + 1])
  {
    assert all[..n + 1][..n] == all[..n];
  }

  function WithStatus(records: seq<Record>, s: D.Status): nat {
    if records == [] then 0
    else WithStatus(records[..|records| - 1], s) + if records[|records| - 1].status == s then 1 else 0
  }

  /** The overview counts every listed job once. */
  lemma {:induction false} StatusCountsTotal(records: seq<Record>)
    ensures WithStatus(records, D.Queued) + WithStatus(records, D.Processing) + WithStatus(records, D.Completed)
            + WithStatus(records, D.Failed) + WithStatus(records, D.Cancelled) + WithStatus(records, D.Timeout)
            == |records|
  {
    if records != [] {
      StatusCountsTotal(records[..|records| - 1]);
    }
  }

  // ---------------------------------------------------------------------------
  // Pages
  // ---------------------------------------------------------------------------

  const MAX_PAGE_SIZE := 50
  const DEFAULT_PAGE_SIZE := 25

  datatype Snapshot = Snapshot(jobs: seq<Record>, page: nat, pageSize: nat, total: nat, totalPages: nat,
                               hasNextPage: bool, hasPreviousPage: bool)

  /** Up to n elements from position k on. */
  function Window<T>(s: seq<T>, k: nat, n: nat): seq<T> {
    if |s| <= k then [] else LTrim(s[k..], n)
  }

  lemma WindowElements<T>(s: seq<T>, k: nat, n: nat)
    ensures |Window(s, k, n)| == if |s| <= k then 0 else if |s| - k <= n then |s| - k else n
    ensures forall i :: 0 <= i < |Window(s, k, n)| ==> Window(s, k, n)[i] == s[k + i]
  {
  }

  lemma RangeIsWindow<T>(s: seq<T>, k: nat, n: nat)
    requires n >= 1
    ensures LRange(s, k, k + n - 1) == Window(s, k, n)
  {
  }

  /** A page size that is missing or not positive is the default; it is at most MAX_PAGE_SIZE. */
  function SafePageSize(pageSize: Option<int>): (r: nat)
    ensures 1 <= r <= MAX_PAGE_SIZE
    ensures pageSize == None || pageSize.value <= 0 ==> r == 25
    ensures pageSize.Some? && 1 <= pageSize.value ==> r == pageSize.value || (r == 50 < pageSize.value)
  {
    if pageSize.Some? && pageSize.value > 0
    then if pageSize.value < MAX_PAGE_SIZE then pageSize.value else MAX_PAGE_SIZE
    else DEFAULT_PAGE_SIZE
  }

  lemma NonNegative(a: int, b: nat)
    ensures a >= 0 ==> a * b >= 0
  {
  }

  function PageOf(all: seq<Record>, page: Option<int>, pageSize: Option<int>): Snapshot {
    var p := if page.Some? && page.value > 0 then page.value else 1;
    var size := SafePageSize(pageSize);
    NonNegative(p - 1, size);
    var pages := if |all| > 0 then (|all| + size - 1) / size else 1;
    Snapshot(Window(all, (p - 1) * size, size), p, size, |all|, pages, p < pages, p > 1)
  }

  lemma NextPage(all: seq<Record>, k: nat, size: nat)
    ensures LTrim(all, k) + Window(all, k, size) == LTrim(all, k + size)
  {
  }

  /** Pages 1 to n, one after the other. */
  function PagesUpTo(all: seq<Record>, n: nat, pageSize: Option<int>): seq<Record> {
    if n == 0 then [] else PagesUpTo(all, n - 1, pageSize) + PageOf(all, Some(n), pageSize).jobs
  }

  lemma OneMoreTime(n: int, size: int)
    ensures n * size == (n - 1) * size + size
  {
  }

  lemma {:induction false} PagesArePrefix(all: seq<Record>, n: nat, pageSize: Option<int>)
    ensures n * SafePageSize(pageSize) >= 0
    ensures PagesUpTo(all, n, pageSize) == LTrim(all, n * SafePageSize(pageSize))
  {
    var size := SafePageSize(pageSize);
    NonNegative(n, size);
    if n > 0 {
      PagesArePrefix(all, n - 1, pageSize);
      NonNegative(n - 1, size);
      OneMoreTime(n, size);
      NextPage(all, (n - 1) * size, size);
    }
  }

  lemma Ceiling(total: nat, size: nat)
    requires total > 0 && size > 0
    ensures var pages := (total + size - 1) / size; pages >= 1 && (pages - 1) * size < total <= pages * size
  {
    var pages := (total + size - 1) / size;
    assert total + size - 1 == pages * size + (total + size - 1) % size;
    assert (pages - 1) * size == pages * size - size;
  }

  lemma PageLength(all: seq<Record>, p: nat, pageSize: Option<int>)
    requires p >= 1
    ensures var s := PageOf(all, Some(p), pageSize);
      && (p < s.totalPages ==> |s.jobs| == s.pageSize)
      && (s.jobs != [] <==> all != [] && p <= s.totalPages)
  {
    var size, total := SafePageSize(pageSize), |all|;
    NonNegative(p - 1, size);
    if total > 0 {
      var pages := (total + size - 1) / size;
      Ceiling(total, size);
      OneMoreTime(p, size);
      if p < pages {
        Monotone(p, pages - 1, size);
      } else if p == pages {
        assert (p - 1) * size < total;
      } else {
        Monotone(pages, p - 1, size);
      }
    }
  }

  /** A previous page is announced on all pages but the first, which is also the one shown
      when no page or none that exists is asked for. */
  lemma PageFacts(all: seq<Record>, pageSize: Option<int>, p: int)
    ensures PageOf(all, None, pageSize) == PageOf(all, Some(1), pageSize)
    ensures p <= 0 ==> PageOf(all, Some(p), pageSize) == PageOf(all, Some(1), pageSize)
    ensures p >= 1 ==>
      var s := PageOf(all, Some(p), pageSize);
      s.page == p && s.total == |all| && s.pageSize == SafePageSize(pageSize) && (s.hasPreviousPage <==> p >= 2)
  {
    hide Window;
  }

  /** Main result on paging: the pages of an unchanged index, put together, are the whole
      list once and in order; every page before the last is full, the pages after it are
      empty, and a next page is announced exactly when there is something on it. */
  lemma PagesPartition(all: seq<Record>, pageSize: Option<int>, p: nat)
    requires p >= 1
    ensures var s := PageOf(all, Some(p), pageSize);
      && PagesUpTo(all, s.totalPages, pageSize) == all
      && (p < s.totalPages ==> |s.jobs| == s.pageSize)
      && (p > s.totalPages ==> s.jobs == [])
      && (s.hasNextPage <==> PageOf(all, Some(p + 1), pageSize).jobs != [])
  {
    var size := SafePageSize(pageSize);
    PageLength(all, p, pageSize);
    PageLength(all, p + 1, pageSize);
    PagesArePrefix(all, PageOf(all, Some(p), pageSize).totalPages, pageSize);
    if |all| > 0 {
      Ceiling(|all|, size);
    }
  }
}
