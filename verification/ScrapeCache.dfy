/** The shared scrape cache: one writer in the worker, one reader in the worker and one in
    the API. A reader is answered exactly with the last stored non-empty scrape of the same url,
    strategy and options, if it was stored within the reader's own time to live. */
module ScrapeCache {
  import opened Common
  import opened StableText
  import P = StableParser
  import opened Fingerprint
  import Q = QueueNames

  datatype Job = Job(url: string, strategy: Q.Strategy, options: Value)

  /** hash stands for the digest; it is assumed to be injective. */
  datatype Params = Params(less: KeyOrder, hash: string -> string, prefix: string, defaultTtl: nat)

  ghost predicate ValidParams(p: Params) {
    && StrictTotal(p.less) && p.defaultTtl >= 1
    && forall x, y :: p.hash(x) == p.hash(y) ==> x == y
  }

  /** Requests with a time to live below one second are turned away before they get here. */
  ghost predicate ValidJob(j: Job) {
    && j.options.Obj? && WellFormed(j.options)
    && match OptionOf(j.options, "cacheTtlSeconds")
       case Num(n) => n >= 1
       case _ => true
  }

  function CacheKey(p: Params, j: Job): string {
    p.prefix + ":cache:" + p.hash(Preimage(p.less, j.url, j.strategy, j.options))
  }

  /** A missing option is undefined. */
  function OptionOf(options: Value, name: string): Value {
    if options.Obj? && name in AsMap(options.entries) then AsMap(options.entries)[name] else Undefined
  }

  function Ttl(p: Params, options: Value): nat {
    match OptionOf(options, "cacheTtlSeconds")
    case Num(n) => if n >= 0 then n else 0
    case _ => p.defaultTtl
  }

  predicate UseCache(options: Value) {
    OptionOf(options, "useCache") != Bool(false)
  }

  /** The same scrape: equal url and strategy, and options that differ in order only. */
  ghost predicate Matches(a: Job, b: Job) {
    a.url == b.url && a.strategy == b.strategy && Same(a.options, b.options)
  }

  /** What the code takes for the same scrape: the same text of url, strategy and options. */
  predicate Alike(p: Params, a: Job, b: Job) {
    Preimage(p.less, a.url, a.strategy, a.options) == Preimage(p.less, b.url, b.strategy, b.options)
  }

  lemma KeysAlike(p: Params, a: Job, b: Job)
    requires ValidParams(p)
    ensures CacheKey(p, a) == CacheKey(p, b) <==> Alike(p, a, b)
  {
    var x, y := Preimage(p.less, a.url, a.strategy, a.options), Preimage(p.less, b.url, b.strategy, b.options);
    if CacheKey(p, a) == CacheKey(p, b) {
      Q.CancelPrefix(p.prefix + ":cache:", p.hash(x), p.hash(y));
    }
  }

  /** For options without quotes in their keys this is the same thing. */
  lemma KeysMatch(p: Params, a: Job, b: Job)
    requires ValidParams(p) && ValidJob(a) && ValidJob(b)
    requires P.QuoteFreeKeys(a.options) && P.QuoteFreeKeys(b.options)
    ensures CacheKey(p, a) == CacheKey(p, b) <==> Matches(a, b)
  {
    KeysAlike(p, a, b);
    UniqueDecoding(p.less, a.url, a.strategy, a.options, b.url, b.strategy, b.options);
  }

  lemma SameOption(a: Value, b: Value, name: string)
    requires a.Obj? && b.Obj? && WellFormed(a) && WellFormed(b) && Same(a, b)
    ensures Same(OptionOf(a, name), OptionOf(b, name))
  {
    DistinctEntries(a.entries);
    AsMapAt(a.entries);
    assert SameEntries(a.entries, b.entries);
    if name in AsMap(a.entries) {
      var i :| 0 <= i < |a.entries| && a.entries[i].key == name;
      assert Same(a.entries[i].value, AsMap(b.entries)[name]);
    }
  }

  /** Matching jobs agree on the time to live and on whether to use the cache. */
  lemma MatchingOptions(p: Params, a: Job, b: Job)
    requires a.options.Obj? && b.options.Obj? && WellFormed(a.options) && WellFormed(b.options) && Matches(a, b)
    ensures Ttl(p, a.options) == Ttl(p, b.options) && UseCache(a.options) == UseCache(b.options)
  {
    SameOption(a.options, b.options, "cacheTtlSeconds");
    SameOption(a.options, b.options, "useCache");
  }

  // ---------------------------------------------------------------------------
  // What the cache should answer
  // ---------------------------------------------------------------------------

  /** A completed scrape that was not answered from the cache, when it completed and when it
      was handed to the cache. */
  datatype Completion = Completion(job: Job, content: string, at: nat, storedAt: nat)

  /** The completion with content for a job like this one that was stored last. */
  function Latest(p: Params, log: seq<Completion>, job: Job): Option<Completion> {
    if log == [] then None
    else
      var last := log[|log| - 1];
      if Alike(p, last.job, job) && last.content != "" then Some(last) else Latest(p, log[..|log| - 1], job)
  }

  lemma LatestNext(p: Params, log: seq<Completion>, x: Completion, job: Job)
    ensures Latest(p, log + [x], job) == if Alike(p, x.job, job) && x.content != "" then Some(x) else Latest(p, log, job)
  {
    assert (log + [x])[..|log|] == log;
  }

  /** Completion k is the last one with content for a job like this one. */
  ghost predicate IsLatest(p: Params, log: seq<Completion>, job: Job, k: int) {
    && 0 <= k < |log| && Alike(p, log[k].job, job) && log[k].content != ""
    && forall n :: k < n < |log| && log[n].content != "" ==> !Alike(p, log[n].job, job)
  }

  lemma {:induction false} LatestIsLatest(p: Params, log: seq<Completion>, job: Job)
    ensures match Latest(p, log, job)
      case None => forall k :: 0 <= k < |log| && log[k].content != "" ==> !Alike(p, log[k].job, job)
      case Some(x) => exists k :: IsLatest(p, log, job, k) && log[k] == x
  {
    hide Alike;
    if log != [] {
      var n := |log| - 1;
      LatestIsLatest(p, log[..n], job);
      assert forall i :: 0 <= i < n ==> log[i] == log[..n][i];
      if Alike(p, log[n].job, job) && log[n].content != "" {
        assert IsLatest(p, log, job, n);
      } else if Latest(p, log[..n], job).Some? {
        var k :| IsLatest(p, log[..n], job, k) && log[..n][k] == Latest(p, log[..n], job).value;
        assert IsLatest(p, log, job, k);
      }
    }
  }

  // ---------------------------------------------------------------------------
  // The cache
  // ---------------------------------------------------------------------------

  datatype Entry = Entry(content: string, strategy: Q.Strategy, completedAt: nat, expiresAt: nat)

  class Cache {
    const p: Params
    var store: map<string, Entry>
    var now: nat
    ghost var log: seq<Completion>

    /** Every key holds the entry of its latest completion. */
    ghost predicate Valid()
      reads this
    {
      && ValidParams(p)
      && (forall k :: 0 <= k < |log| ==> ValidJob(log[k].job) && log[k].at <= log[k].storedAt <= now)
      && (forall job: Job :: Holds(job))
    }

    ghost predicate Holds(job: Job)
      reads this`store, this`log
    {
      match Latest(p, log, job)
      case None => CacheKey(p, job) !in store
      case Some(x) =>
        && CacheKey(p, job) in store
        && store[CacheKey(p, job)] == Entry(x.content, x.job.strategy, x.at, x.storedAt + Ttl(p, x.job.options))
    }

    constructor (p: Params)
      requires ValidParams(p)
      ensures Valid() && log == [] && this.p == p
    {
      this.p := p;
      store := map[];
      now := 0;
      log := [];
    }

    method Tick(seconds: nat)
      requires Valid()
      modifies `now
      ensures Valid() && now == old(now) + seconds
    {
      hide StrictTotal, Preimage, CacheKey, Alike, Ttl, Latest, Holds;
      now := now + seconds;
      forall job: Job ensures Holds(job) {
        assert old(Holds(job));
      }
    }

    /** Called by the worker after a scrape that completed, at the given time, and was not
        cached. An empty content is not stored. The time to live runs from now on. */
    method Set(job: Job, content: string, completedAt: nat)
      requires Valid() && ValidJob(job) && completedAt <= now
      modifies `store, `log
      ensures Valid() && log == old(log) + [Completion(job, content, completedAt, now)]
    {
      hide StrictTotal, Preimage, CacheKey, Alike, Ttl, Latest;
      ghost var before := log;
      log := log + [Completion(job, content, completedAt, now)];
      if content != "" {
        store := store[CacheKey(p, job) := Entry(content, job.strategy, completedAt, now + Ttl(p, job.options))];
      }
      forall other: Job ensures Holds(other) {
        LatestNext(p, before, Completion(job, content, completedAt, now), other);
        KeysAlike(p, job, other);
        assert old(Holds(other));
      }
    }

    /** An entry is readable until it expires. */
    function Lookup(job: Job): Option<Entry>
      reads this
    {
      var key := CacheKey(p, job);
      if key in store && now < store[key].expiresAt then Some(store[key]) else None
    }

    /** Either reader, with caching switched on or off by the job. */
    method Get(job: Job) returns (hit: Option<Entry>)
      requires Valid()
      ensures Plain(job.options) && SwitchedOff(job.options) ==> hit == None
      ensures Plain(job.options) && !SwitchedOff(job.options) ==> hit == Lookup(job) && (hit.Some? <==> Fresh(job))
      ensures hit.Some? ==> Fresh(job) && Answers(hit.value, Latest(p, log, job).value)
    {
      if Plain(job.options) {
        CachingOff(job.options);
      }
      assert Holds(job);
      hit := if UseCache(job.options) then Lookup(job) else None;
    }

    predicate Answers(entry: Entry, x: Completion) {
      entry.content == x.content && entry.completedAt == x.at && entry.strategy == x.job.strategy
    }

    /** There is a last completion for a job like this one, and its own time to live has
        not passed. */
    ghost predicate Fresh(job: Job)
      reads this
    {
      Latest(p, log, job).Some? && now < Latest(p, log, job).value.storedAt + Ttl(p, Latest(p, log, job).value.job.options)
    }
  }

  // ---------------------------------------------------------------------------
  // How long an entry lives
  // ---------------------------------------------------------------------------

  /** The options ask for a time to live of n seconds, or for none, and then it is the default. */
  ghost predicate Asks(p: Params, options: Value, n: nat)
    requires options.Obj?
  {
    if exists i :: NamesTtl(options.entries, i)
    then exists i :: NamesTtl(options.entries, i) && options.entries[i].value == Num(n)
    else n == p.defaultTtl
  }

  predicate NamesTtl(es: seq<Keyed<Value>>, i: int) {
    0 <= i < |es| && es[i].key == "cacheTtlSeconds" && es[i].value.Num?
  }

  /** The options switch caching off. */
  predicate NamesNoCache(es: seq<Keyed<Value>>, i: int) {
    0 <= i < |es| && es[i] == Keyed("useCache", Bool(false))
  }

  lemma AsksTtl(p: Params, options: Value, n: nat)
    requires Plain(options) && Asks(p, options, n)
    ensures Ttl(p, options) == n
  {
    var es := options.entries;
    AsMapAt(es);
    if i :| NamesTtl(es, i) {
      assert AsMap(es)["cacheTtlSeconds"] == es[i].value;
    } else if "cacheTtlSeconds" in AsMap(es) {
      var i :| 0 <= i < |es| && es[i].key == "cacheTtlSeconds";
      assert !NamesTtl(es, i);
    }
  }

  ghost predicate SwitchedOff(options: Value)
    requires options.Obj?
  {
    exists i :: NamesNoCache(options.entries, i)
  }

  /** Options as they are sent: an object. */
  ghost predicate Plain(options: Value) {
    options.Obj? && DistinctKeys(options.entries)
  }

  lemma CachingOff(options: Value)
    requires Plain(options)
    ensures UseCache(options) <==> !SwitchedOff(options)
  {
    var es := options.entries;
    AsMapAt(es);
    if !UseCache(options) {
      var i :| 0 <= i < |es| && es[i].key == "useCache";
      assert NamesNoCache(es, i);
    }
    if i :| NamesNoCache(es, i) {
      assert AsMap(es)["useCache"] == es[i].value;
    }
  }

  /** Main result on expiry: the last completion stored for jobs like this one is found exactly
      while fewer seconds have passed since it was stored than its own job asks for, or than
      the default if it asks for none. */
  lemma FoundWhileFresh(cache: Cache, job: Job, k: nat, n: nat)
    requires cache.Valid() && IsLatest(cache.p, cache.log, job, k) && Asks(cache.p, cache.log[k].job.options, n)
    ensures cache.Lookup(job).Some? <==> cache.now < cache.log[k].storedAt + n
    ensures cache.Lookup(job).Some? ==> cache.Lookup(job).value.content == cache.log[k].content
  {
    hide Alike, Same, WellFormed, OptionOf, UseCache, CacheKey, ValidParams, Ttl, Asks;
    assert ValidJob(cache.log[k].job);
    ValidEntries(cache.log[k].job);
    AsksTtl(cache.p, cache.log[k].job.options, n);
    OnlyLatest(cache.p, cache.log, job, k);
    assert cache.Holds(job);
  }

  lemma ValidEntries(job: Job)
    requires ValidJob(job)
    ensures Plain(job.options)
  {
    DistinctEntries(job.options.entries);
  }

  lemma OnlyLatest(p: Params, log: seq<Completion>, job: Job, k: nat)
    requires IsLatest(p, log, job, k)
    ensures Latest(p, log, job) == Some(log[k])
  {
    hide Alike;
    LatestIsLatest(p, log, job);
    var n :| IsLatest(p, log, job, n) && log[n] == Latest(p, log, job).value;
    assert n == k;
  }

  // ---------------------------------------------------------------------------
  // When a hit is right
  // ---------------------------------------------------------------------------

  /** The reader gets the content of this completion. */
  ghost predicate Served(cache: Cache, x: Completion, job: Job)
    reads cache
  {
    cache.Lookup(job).Some? && x.content == cache.Lookup(job).value.content != "" && x.at <= x.storedAt <= cache.now
  }

  /** And rightly: it is a scrape of the same url, strategy and options, stored within the
      reader's own time to live, by a job that had caching on as well. */
  ghost predicate Sound(cache: Cache, x: Completion, job: Job)
    reads cache
  {
    && Served(cache, x, job) && Matches(x.job, job)
    && cache.now < x.storedAt + Ttl(cache.p, job.options)
    && UseCache(x.job.options)
  }

  /** Every hit comes from one completion, and is right exactly when that completion's job
      matches the reader's. */
  lemma HitIsSoundIff(cache: Cache, job: Job) returns (k: nat)
    requires cache.Valid() && ValidJob(job) && UseCache(job.options) && cache.Lookup(job).Some?
    ensures k < |cache.log| && Served(cache, cache.log[k], job)
    ensures Sound(cache, cache.log[k], job) <==> Matches(cache.log[k].job, job)
    ensures Alike(cache.p, cache.log[k].job, job)
  {
    hide Alike, Matches, Same, WellFormed, OptionOf, UseCache, Ttl, CacheKey, ValidParams;
    assert cache.Holds(job);
    LatestIsLatest(cache.p, cache.log, job);
    k :| IsLatest(cache.p, cache.log, job, k) && cache.log[k] == Latest(cache.p, cache.log, job).value;
    if Matches(cache.log[k].job, job) {
      MatchingOptions(cache.p, cache.log[k].job, job);
    }
  }

  /** While no option key contains a quote, every hit is right. */
  lemma HitIsSound(cache: Cache, job: Job)
    requires cache.Valid() && ValidJob(job) && UseCache(job.options) && cache.Lookup(job).Some?
    requires P.QuoteFreeKeys(job.options)
    requires forall k :: 0 <= k < |cache.log| ==> P.QuoteFreeKeys(cache.log[k].job.options)
    ensures exists k :: 0 <= k < |cache.log| && Sound(cache, cache.log[k], job)
  {
    var k := HitIsSoundIff(cache, job);
    KeysAlike(cache.p, cache.log[k].job, job);
    KeysMatch(cache.p, cache.log[k].job, job);
  }

  /** A record of texts, as the headers and the form data of a request are. */
  ghost predicate TextRecord(v: Value) {
    v.Obj? && DistinctKeys(v.entries) && forall i :: 0 <= i < |v.entries| ==> v.entries[i].value.Str?
  }

  /** Another request with the same key: one of its records, with two or more texts, is
      replaced by a record with a single text under a key that contains quotes. */
  lemma TwinOfJob(p: Params, job: Job, i: nat) returns (twin: Job)
    requires ValidJob(job) && i < |job.options.entries|
    requires TextRecord(job.options.entries[i].value) && |job.options.entries[i].value.entries| >= 2
    ensures ValidJob(twin) && !Matches(job, twin) && Alike(p, job, twin)
    ensures exists v :: TextRecord(v) && twin == job.(options := Obj(job.options.entries[i := Keyed(job.options.entries[i].key, v)]))
    ensures Ttl(p, job.options) == Ttl(p, twin.options) && UseCache(job.options) == UseCache(twin.options)
  {
    var es, name, texts := job.options.entries, job.options.entries[i].key, job.options.entries[i].value.entries;
    var v := P.Twin(p.less, texts);
    P.EveryObjectHasTwin(p.less, texts);
    var k := P.TwinWellFormed(p.less, texts);
    P.ReplaceEntry(p.less, es, i, v);
    var fs := es[i := Keyed(name, v)];
    twin := job.(options := Obj(fs));
    assert TextRecord(v);
    forall n ensures OptionOf(twin.options, n) == if n == name then v else OptionOf(job.options, n) {
      ReplacedOption(es, i, v, n);
    }
    assert OptionOf(job.options, name) == es[i].value by { AsMapAt(es); }
  }

  lemma ReplacedOption(es: seq<Keyed<Value>>, i: nat, v: Value, n: string)
    requires i < |es| && DistinctKeys(es)
    ensures OptionOf(Obj(es[i := Keyed(es[i].key, v)]), n) == if n == es[i].key then v else OptionOf(Obj(es), n)
  {
    var fs := es[i := Keyed(es[i].key, v)];
    AsMapAt(es);
    AsMapAt(fs);
    if n in AsMap(fs) {
      var j :| 0 <= j < |fs| && fs[j].key == n;
      assert es[j].key == n;
    }
    if n in AsMap(es) {
      var j :| 0 <= j < |es| && es[j].key == n;
      assert fs[j].key == n;
    }
  }

  /** So with quotes in keys a hit can be wrong: right after any scrape of a request with
      such a record, another request that does not match it is answered with its content. */
  lemma WrongHit(cache: Cache, i: nat) returns (twin: Job)
    requires cache.Valid() && cache.log != []
    requires var x := cache.log[|cache.log| - 1];
      && x.content != "" && UseCache(x.job.options) && cache.now < x.storedAt + Ttl(cache.p, x.job.options)
      && i < |x.job.options.entries| && TextRecord(x.job.options.entries[i].value) && |x.job.options.entries[i].value.entries| >= 2
    ensures var x := cache.log[|cache.log| - 1];
      && ValidJob(twin) && UseCache(twin.options) && !Matches(x.job, twin)
      && cache.Lookup(twin).Some? && cache.Lookup(twin).value.content == x.content
  {
    var x := cache.log[|cache.log| - 1];
    twin := TwinOfJob(cache.p, x.job, i);
    assert cache.Holds(twin);
    assert Latest(cache.p, cache.log, twin) == Some(x);
  }
}
