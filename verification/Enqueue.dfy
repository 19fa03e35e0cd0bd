/** Enqueueing with idempotency keys. While a key is bound, every call that carries it is
    answered with the job of the first successful one, and only that one saves a record,
    stores a result or publishes anything. */
module Enqueue {
  import opened Common
  import opened QueueNames
  import opened JobStore
  import D = Delivery

  /** A missing text is the empty text. */
  datatype Input = Input(strategy: Option<Strategy>, useCache: bool, targetWorkerId: string,
                         targetServiceName: string, targetHostname: string, webhookUrl: string,
                         idempotencyKey: string)

  datatype Worker = Worker(id: string, allowed: seq<Routing>)

  datatype Cached = Cached(content: string, completedAt: nat)

  /** What the call gets from elsewhere: a new job id, the scrape cache's entry for the
      request, and the worker the registry finds for the call's target. */
  datatype Answers = Answers(newId: JobId, cached: Option<Cached>, worker: Option<Worker>)

  datatype Response =
    | Accepted(jobId: JobId, status: D.Status, progress: nat, queuedAt: nat, targetWorkerId: string)
    | Rejected

  datatype Event = Event(jobId: JobId, name: D.EventName, webhookUrl: string)

  /** saved is the history of record saves, published that of messages sent to workers, each
      with the fields of its job's first record, and events that of events sent to webhooks. */
  datatype State = State(records: map<JobId, Record>, saved: seq<JobId>, keys: map<string, Binding>,
                         results: map<JobId, StoredResult>, published: seq<Record>, events: seq<Event>, now: nat)

  datatype Config = Config(resultTtl: nat, defaultStrategy: Strategy, space: char -> bool)

  function TrimStart(c: Config, s: string): string {
    if s == "" || !c.space(s[0]) then s else TrimStart(c, s[1..])
  }

  function TrimEnd(c: Config, s: string): string {
    if s == "" || !c.space(s[|s| - 1]) then s else TrimEnd(c, s[..|s| - 1])
  }

  function Trim(c: Config, s: string): string {
    TrimEnd(c, TrimStart(c, s))
  }

  ghost predicate Blank(c: Config, s: string) {
    forall i :: 0 <= i < |s| ==> c.space(s[i])
  }

  /** The text t is s without the spaces at its ends. */
  ghost predicate IsTrimmed(c: Config, s: string, t: string) {
    && (t != "" ==> !c.space(t[0]) && !c.space(t[|t| - 1]))
    && exists a, b :: Blank(c, a) && Blank(c, b) && s == a + t + b
  }

  lemma {:induction false} TrimStartExact(c: Config, s: string) returns (a: string)
    ensures Blank(c, a) && s == a + TrimStart(c, s)
    ensures TrimStart(c, s) != "" ==> !c.space(TrimStart(c, s)[0])
  {
    if s == "" || !c.space(s[0]) {
      a := "";
    } else {
      var b := TrimStartExact(c, s[1..]);
      a := [s[0]] + b;
    }
  }

  lemma {:induction false} TrimEndExact(c: Config, s: string) returns (b: string)
    ensures Blank(c, b) && s == TrimEnd(c, s) + b
    ensures TrimEnd(c, s) != "" ==> !c.space(TrimEnd(c, s)[|TrimEnd(c, s)| - 1])
  {
    if s == "" || !c.space(s[|s| - 1]) {
      b := "";
    } else {
      var n := |s| - 1;
      var a := TrimEndExact(c, s[..n]);
      b := a + [s[n]];
    }
  }

  lemma TrimExact(c: Config, s: string)
    ensures IsTrimmed(c, s, Trim(c, s))
  {
    hide TrimStart, TrimEnd;
    var a := TrimStartExact(c, s);
    var b := TrimEndExact(c, TrimStart(c, s));
    assert s == a + Trim(c, s) + b;
    assert Trim(c, s) != "" ==> Trim(c, s)[0] == TrimStart(c, s)[0];
  }

  /** The text between blank ends starts no later than any other such text. */
  lemma StartsFirst(c: Config, s: string, a: string, t: string, b: string, x: string, u: string, y: string)
    requires s == a + t + b == x + u + y && Blank(c, a) && Blank(c, b)
    requires u != "" && !c.space(u[0]) && !c.space(u[|u| - 1])
    ensures |a| <= |x| && |b| <= |y| && t != ""
  {
    assert s[|x|] == u[0] && s[|x| + |u| - 1] == u[|u| - 1];
    assert forall i :: 0 <= i < |a| ==> s[i] == a[i];
    assert forall i :: 0 <= i < |b| ==> s[|a| + |t| + i] == b[i];
  }

  /** There is only one such text. */
  lemma TrimUnique(c: Config, s: string, t: string, u: string)
    requires IsTrimmed(c, s, t) && IsTrimmed(c, s, u)
    ensures t == u
  {
    var a, b :| Blank(c, a) && Blank(c, b) && s == a + t + b;
    var x, y :| Blank(c, x) && Blank(c, y) && s == x + u + y;
    if t != "" { StartsFirst(c, s, x, u, y, a, t, b); }
    if u != "" { StartsFirst(c, s, a, t, b, x, u, y); }
    assert t == s[|a|..|a| + |t|] && u == s[|x|..|x| + |u|];
  }

  /** The caller's key; empty when there is none. */
  function Key(c: Config, input: Input): string {
    Trim(c, input.idempotencyKey)
  }

  /** Only the caller's choice is replaced; the configured default is used as it is. */
  function StrategyOf(c: Config, input: Input): Strategy {
    if input.strategy == Some(Cloudscraper) then Fixed(Http)
    else if input.strategy.Some? then input.strategy.value
    else c.defaultStrategy
  }

  predicate Live(s: State, key: string) {
    key in s.keys && s.now < s.keys[key].expiresAt
  }

  /** Whether the target of a call is turned down. A target named by id must support the
      strategy; a service or a host is looked up with the strategy. */
  predicate Refused(c: Config, input: Input, worker: Option<Worker>) {
    if Trim(c, input.targetWorkerId) != ""
    then worker == None || !SupportsStrategy(worker.value.allowed, StrategyOf(c, input))
    else (Trim(c, input.targetServiceName) != "" || Trim(c, input.targetHostname) != "") && worker == None
  }

  function Target(c: Config, input: Input, worker: Option<Worker>): string
    requires !Refused(c, input, worker)
  {
    if Trim(c, input.targetWorkerId) != "" then Trim(c, input.targetWorkerId)
    else if Trim(c, input.targetServiceName) != "" || Trim(c, input.targetHostname) != "" then worker.value.id
    else ""
  }

  function NewRecord(c: Config, now: nat, input: Input, id: JobId, retriedFrom: JobId, status: D.Status,
                     progress: nat, stage: string, target: string): Record {
    Record(id, StrategyOf(c, input), status, progress, stage, "", now, now, target,
           Trim(c, input.targetServiceName), Trim(c, input.targetHostname), retriedFrom, Trim(c, input.webhookUrl),
           input.useCache, Key(c, input))
  }

  /** The result that answers a job from the cache. */
  function CachedResult(r: Record, e: Cached): Result {
    Result(r.jobId, D.Completed, r.strategy, r.requestedAt, e.completedAt, e.content, true, r.targetWorkerId,
           r.targetServiceName, r.targetHostname, r.retriedFrom, r.webhookUrl, r.idempotencyKey)
  }

  function EventsFor(result: Result): seq<Event> {
    var name := D.ResolveEventName(result.status);
    if result.webhookUrl != "" && name.Some? then [Event(result.jobId, name.value, result.webhookUrl)] else []
  }

  function Saved(c: Config, s: State, r: Record): State {
    s.(records := s.records[r.jobId := r], saved := s.saved + [r.jobId],
       keys := if r.idempotencyKey != "" then s.keys[r.idempotencyKey := Binding(r.jobId, s.now + c.resultTtl)] else s.keys)
  }

  function Completed(c: Config, s: State, r: Record, e: Cached): State {
    var t, result := Saved(c, s, r), CachedResult(r, e);
    t.(results := t.results[r.jobId := StoredResult(result, t.now + c.resultTtl)], events := t.events + EventsFor(result))
  }

  lemma SoundSaved(c: Config, s: State, r: Record)
    requires Sound(s)
    ensures Sound(Saved(c, s, r)) && Saved(c, s, r).now == s.now
  {
  }

  function Answered(r: Record): Response {
    Accepted(r.jobId, r.status, r.progress, r.requestedAt, r.targetWorkerId)
  }

  /** One call, from its arrival to its answer. */
  function EnqueueCall(c: Config, s: State, input: Input, a: Answers, retriedFrom: JobId): (State, Response) {
    var key := Key(c, input);
    if key != "" && Live(s, key) && s.keys[key].jobId in s.records then (s, Answered(s.records[s.keys[key].jobId]))
    else if input.useCache && a.cached.Some? then
      var r := NewRecord(c, s.now, input, a.newId, retriedFrom, D.Completed, 100, "completed", Trim(c, input.targetWorkerId));
      (Completed(c, s, r, a.cached.value), Answered(r))
    else if Refused(c, input, a.worker) then (s, Rejected)
    else
      var r := NewRecord(c, s.now, input, a.newId, retriedFrom, D.Queued, 0, "queued", Target(c, input, a.worker));
      (Saved(c, s, r).(published := s.published + [r]), Answered(r))
  }

  /** A retry repeats the request of an earlier job, without its idempotency key. */
  function RetryInput(r: Record): Input {
    Input(Some(r.strategy), r.useCache, r.targetWorkerId, r.targetServiceName, r.targetHostname, r.webhookUrl, "")
  }

  // ---------------------------------------------------------------------------
  // The service
  // ---------------------------------------------------------------------------

  class JobsService {
    const c: Config
    const store: JobStore
    var published: seq<Record>
    var events: seq<Event>

    ghost predicate Valid()
      reads this, store
    {
      store.Valid() && store.resultTtl == c.resultTtl && Sound(View())
    }

    ghost function View(): State
      reads this, store
    {
      State(store.records, store.history, store.keys, store.results, published, events, store.now)
    }

    constructor (c: Config, store: JobStore)
      requires store.Valid() && store.resultTtl == c.resultTtl && store.keys == map[]
      ensures Valid() && this.c == c && this.store == store && published == [] && events == []
    {
      this.c := c;
      this.store := store;
      published := [];
      events := [];
    }

    method Save(record: Record)
      requires Valid()
      modifies store
      ensures Valid() && View() == Saved(c, old(View()), record)
    {
      hide Sound;
      SoundSaved(c, View(), record);
      store.SaveRecord(record);
      if record.idempotencyKey != "" {
        store.SaveIdempotentJob(record.idempotencyKey, record.jobId);
      }
    }

    method PublishFromResult(result: Result)
      modifies `events
      ensures events == old(events) + EventsFor(result)
    {
      if result.webhookUrl == "" {
        return;
      }
      var name := D.ResolveEventName(result.status);
      if name == None {
        return;
      }
      events := events + [Event(result.jobId, name.value, result.webhookUrl)];
    }

    method Publish(message: Record)
      requires Valid()
      modifies `published
      ensures Valid() && View() == old(View()).(published := old(published) + [message])
    {
      published := published + [message];
    }

    /** Stores and announces a job that the cache answers. */
    method SaveCompleted(record: Record, entry: Cached)
      requires Valid()
      modifies this, store
      ensures Valid() && View() == Completed(c, old(View()), record, entry)
    {
      hide Saved, Recent;
      Save(record);
      var result := CachedResult(record, entry);
      store.SaveResult(result);
      if result.webhookUrl != "" {
        PublishFromResult(result);
      }
    }

    method EnqueueFromInput(input: Input, a: Answers, retriedFrom: JobId) returns (r: Response)
      requires Valid()
      modifies this, store
      ensures Valid() && (View(), r) == EnqueueCall(c, old(View()), input, a, retriedFrom)
    {
      hide Sound, Saved, Completed, NewRecord, Answered, Trim, Key, StrategyOf, JobStore.Valid;
      var key := Key(c, input);
      if key != "" {
        var existing := store.GetIdempotentJob(key);
        if existing.Some? {
          return Answered(existing.value);
        }
      }
      if input.useCache && a.cached.Some? {
        var completed := NewRecord(c, store.now, input, a.newId, retriedFrom, D.Completed, 100, "completed",
                                   Trim(c, input.targetWorkerId));
        SaveCompleted(completed, a.cached.value);
        return Answered(completed);
      }
      var target := "";
      if Trim(c, input.targetWorkerId) != "" {
        if a.worker == None || !SupportsStrategy(a.worker.value.allowed, StrategyOf(c, input)) {
          return Rejected;
        }
        target := Trim(c, input.targetWorkerId);
      } else if Trim(c, input.targetServiceName) != "" || Trim(c, input.targetHostname) != "" {
        if a.worker == None {
          return Rejected;
        }
        target := a.worker.value.id;
      }
      var record := NewRecord(c, store.now, input, a.newId, retriedFrom, D.Queued, 0, "queued", target);
      Save(record);
      Publish(record);
      return Answered(record);
    }

    method Retry(id: JobId, a: Answers) returns (r: Option<Response>)
      requires Valid()
      modifies this, store
      ensures Valid()
      ensures id !in old(View()).records ==> r == None && View() == old(View())
      ensures id in old(View()).records ==>
        && r.Some?
        && (View(), r.value) == EnqueueCall(c, old(View()), RetryInput(old(View()).records[id]), a, id)
    {
      var existing := store.GetRecord(id);
      if existing == None {
        return None;
      }
      var response := EnqueueFromInput(RetryInput(existing.value), a, existing.value.jobId);
      return Some(response);
    }
  }

  // ---------------------------------------------------------------------------
  // What a call saves
  // ---------------------------------------------------------------------------

  /** The call got past its key and was not turned down: it made a job. */
  ghost predicate MakesJob(c: Config, s: State, input: Input, a: Answers, from: JobId) {
    |EnqueueCall(c, s, input, a, from).0.saved| > |s.saved|
  }

  /** The strategy the job runs with. */
  function ChosenStrategy(c: Config, input: Input): Strategy {
    match input.strategy
    case Some(Fixed(r)) => Fixed(r)
    case Some(Auto) => Auto
    case Some(Cloudscraper) => Fixed(Http)
    case None => c.defaultStrategy
  }

  /** The record holds what the caller asked for. */
  ghost predicate Holds(c: Config, s: State, input: Input, a: Answers, from: JobId, x: Record) {
    && x.jobId == a.newId && x.retriedFrom == from && x.requestedAt == x.updatedAt == s.now && x.error == ""
    && x.strategy == ChosenStrategy(c, input) && x.useCache == input.useCache
    && IsTrimmed(c, input.targetServiceName, x.targetServiceName) && IsTrimmed(c, input.targetHostname, x.targetHostname)
    && IsTrimmed(c, input.webhookUrl, x.webhookUrl) && IsTrimmed(c, input.idempotencyKey, x.idempotencyKey)
  }

  /** Main result on the contents of a job: its record holds what the caller asked for, under
      a new id, and nothing else is saved; its key, if there is one, is bound to it for the
      time to live; the caller is answered with it. */
  lemma NewJob(c: Config, s: State, input: Input, a: Answers, from: JobId)
    requires MakesJob(c, s, input, a, from)
    ensures var (t, r) := EnqueueCall(c, s, input, a, from);
      && a.newId in t.records
      && var x := t.records[a.newId];
      && Holds(c, s, input, a, from, x)
      && t.records == s.records[a.newId := x] && t.saved == s.saved + [a.newId] && t.now == s.now
      && t.keys == (if x.idempotencyKey == "" then s.keys
                    else s.keys[x.idempotencyKey := Binding(a.newId, s.now + c.resultTtl)])
      && r == Accepted(a.newId, x.status, x.progress, s.now, x.targetWorkerId)
  {
    hide Trim, IsTrimmed, Refused, Target, EventsFor, CachedResult;
    TrimExact(c, input.targetServiceName);
    TrimExact(c, input.targetHostname);
    TrimExact(c, input.webhookUrl);
    TrimExact(c, input.idempotencyKey);
  }

  /** A job that the cache answers is completed; its result has the entry's content and time,
      and its webhook, if there is one, is told that it is completed. */
  lemma CachedJob(c: Config, s: State, input: Input, a: Answers, from: JobId)
    requires MakesJob(c, s, input, a, from) && input.useCache && a.cached.Some?
    ensures var t := EnqueueCall(c, s, input, a, from).0;
      && a.newId in t.records && a.newId in t.results
      && var x, stored := t.records[a.newId], t.results[a.newId];
      && x.status == D.Completed && x.progress == 100 && x.stage == "completed"
      && IsTrimmed(c, input.targetWorkerId, x.targetWorkerId)
      && t.results == s.results[a.newId := stored] && stored.expiresAt == s.now + c.resultTtl
      && stored.result.jobId == a.newId && stored.result.status == D.Completed && stored.result.cached
      && stored.result.content == a.cached.value.content && stored.result.completedAt == a.cached.value.completedAt
      && stored.result.strategy == x.strategy && stored.result.requestedAt == s.now
      && stored.result.webhookUrl == x.webhookUrl && stored.result.idempotencyKey == x.idempotencyKey
      && stored.result.targetWorkerId == x.targetWorkerId && stored.result.targetServiceName == x.targetServiceName
      && stored.result.targetHostname == x.targetHostname && stored.result.retriedFrom == from
      && t.published == s.published
      && t.events == s.events + if x.webhookUrl != "" then [Event(a.newId, D.JobCompleted, x.webhookUrl)] else []
  {
    hide Trim, IsTrimmed;
    TrimExact(c, input.targetWorkerId);
  }

  /** Any other job is queued, and its record is what the workers are sent. A target named by
      id is kept, and supports the job's strategy; a service or a host gives the id of the
      worker that was found. */
  lemma QueuedJob(c: Config, s: State, input: Input, a: Answers, from: JobId)
    requires MakesJob(c, s, input, a, from) && !(input.useCache && a.cached.Some?)
    ensures var t := EnqueueCall(c, s, input, a, from).0;
      && a.newId in t.records
      && var x := t.records[a.newId];
      && x.status == D.Queued && x.progress == 0 && x.stage == "queued"
      && t.published == s.published + [x] && t.results == s.results && t.events == s.events
      && (IsTrimmed(c, input.targetWorkerId, "") ==>
            x.targetWorkerId == if x.targetServiceName != "" || x.targetHostname != "" then WorkerId(a.worker) else "")
      && (!IsTrimmed(c, input.targetWorkerId, "") ==>
            && IsTrimmed(c, input.targetWorkerId, x.targetWorkerId)
            && a.worker.Some? && SupportsStrategy(a.worker.value.allowed, ChosenStrategy(c, input)))
  {
    hide TrimStart, TrimEnd, IsTrimmed, SupportsStrategy;
    TrimExact(c, input.targetWorkerId);
    if IsTrimmed(c, input.targetWorkerId, "") {
      TrimUnique(c, input.targetWorkerId, Trim(c, input.targetWorkerId), "");
    }
  }

  function WorkerId(worker: Option<Worker>): string {
    if worker.Some? then worker.value.id else ""
  }

  /** A call whose key is live makes no job and is answered with the bound job as it is now. */
  lemma KnownJob(c: Config, s: State, input: Input, a: Answers, from: JobId)
    requires Sound(s) && Key(c, input) in s.keys && s.now < s.keys[Key(c, input)].expiresAt && Key(c, input) != ""
    ensures var x := s.records[s.keys[Key(c, input)].jobId];
      EnqueueCall(c, s, input, a, from)
        == (s, Accepted(s.keys[Key(c, input)].jobId, x.status, x.progress, x.requestedAt, x.targetWorkerId))
  {
    hide Trim, NewRecord, Refused, Target, EventsFor, CachedResult;
  }

  /** A retry asks again for what the earlier job's record says: strategy, targets, webhook
      and use of the cache, and names that job; it has no key. */
  lemma RetriedJob(c: Config, s: State, e: Record, a: Answers)
    requires MakesJob(c, s, RetryInput(e), a, e.jobId)
    ensures var t := EnqueueCall(c, s, RetryInput(e), a, e.jobId).0;
      && a.newId in t.records
      && var x := t.records[a.newId];
      && x.strategy == (if e.strategy == Cloudscraper then Fixed(Http) else e.strategy)
      && x.useCache == e.useCache && x.retriedFrom == e.jobId && x.idempotencyKey == ""
      && IsTrimmed(c, e.webhookUrl, x.webhookUrl)
      && IsTrimmed(c, e.targetServiceName, x.targetServiceName) && IsTrimmed(c, e.targetHostname, x.targetHostname)
      && (!IsTrimmed(c, e.targetWorkerId, "") ==> IsTrimmed(c, e.targetWorkerId, x.targetWorkerId))
  {
    hide Trim, IsTrimmed;
    NewJob(c, s, RetryInput(e), a, e.jobId);
    TrimExact(c, e.targetWorkerId);
    NoKey(c);
    if !(e.useCache && a.cached.Some?) {
      QueuedJob(c, s, RetryInput(e), a, e.jobId);
    }
  }

  lemma NoKey(c: Config)
    ensures Trim(c, "") == ""
  {
  }

  // ---------------------------------------------------------------------------
  // Runs
  // ---------------------------------------------------------------------------

  /** Between calls time passes and jobs make progress. */
  datatype Step =
    | Call(input: Input, answers: Answers, retriedFrom: JobId)
    | Tick(seconds: nat)
    | Update(id: JobId, status: D.Status, progress: nat)

  function Next(c: Config, s: State, step: Step): State {
    match step
    case Call(input, a, from) => EnqueueCall(c, s, input, a, from).0
    case Tick(n) => s.(now := s.now + n)
    case Update(id, status, progress) =>
      if id in s.records
      then s.(records := s.records[id := s.records[id].(status := status, progress := progress, updatedAt := s.now)],
              saved := s.saved + [id])
      else s
  }

  function Run(c: Config, s: State, steps: seq<Step>): State
    decreases |steps|
  {
    if steps == [] then s else Run(c, Next(c, s, steps[0]), steps[1..])
  }

  /** Keys are bound to known jobs, and every job is stored under its own id. */
  ghost predicate Sound(s: State) {
    && (forall k :: k in s.keys ==> s.keys[k].jobId in s.records)
    && (forall id :: id in s.records ==> s.records[id].jobId == id)
  }

  lemma SoundCall(c: Config, s: State, input: Input, a: Answers, from: JobId)
    requires Sound(s)
    ensures var t := EnqueueCall(c, s, input, a, from).0; Sound(t) && t.now == s.now
  {
    hide Saved, NewRecord, Trim, Key, StrategyOf, Refused, Target, CachedResult, EventsFor;
    SoundSaved(c, s, NewRecord(c, s.now, input, a.newId, from, D.Completed, 100, "completed", Trim(c, input.targetWorkerId)));
    if !Refused(c, input, a.worker) {
      SoundSaved(c, s, NewRecord(c, s.now, input, a.newId, from, D.Queued, 0, "queued", Target(c, input, a.worker)));
    }
  }

  lemma SoundStep(c: Config, s: State, step: Step)
    requires Sound(s)
    ensures Sound(Next(c, s, step)) && Next(c, s, step).now >= s.now
  {
    hide EnqueueCall;
    if step.Call? {
      SoundCall(c, s, step.input, step.answers, step.retriedFrom);
    }
  }

  lemma {:induction false} Later(c: Config, s: State, steps: seq<Step>)
    requires Sound(s)
    ensures Run(c, s, steps).now >= s.now
    decreases |steps|
  {
    if steps != [] {
      SoundStep(c, s, steps[0]);
      Later(c, Next(c, s, steps[0]), steps[1..]);
    }
  }

  ghost predicate IsSent(s: State, id: JobId) {
    exists k :: 0 <= k < |s.published| && s.published[k].jobId == id
  }

  lemma StaysSent(s: State, t: State, id: JobId)
    requires s.published <= t.published && IsSent(s, id)
    ensures IsSent(t, id)
  {
    var k :| 0 <= k < |s.published| && s.published[k].jobId == id;
    assert t.published[k] == s.published[k];
  }

  /** Every job is either on its way to a worker or has a result, and only jobs with a result
      have been announced. */
  ghost predicate Served(s: State) {
    && (forall id :: id in s.records ==> IsSent(s, id) || id in s.results)
    && (forall e :: e in s.events ==> e.jobId in s.results && e.name == D.JobCompleted && e.webhookUrl != "")
  }

  lemma ServedStep(c: Config, s: State, step: Step)
    requires Served(s)
    ensures Served(Next(c, s, step))
  {
    hide EnqueueCall, IsSent, MakesJob;
    var t := Next(c, s, step);
    if step.Call? {
      if MakesJob(c, s, step.input, step.answers, step.retriedFrom) {
        NewJobServed(c, s, step.input, step.answers, step.retriedFrom);
      } else {
        NoJobNoChange(c, s, step.input, step.answers, step.retriedFrom);
      }
    } else {
      forall id | IsSent(s, id) ensures IsSent(t, id) { StaysSent(s, t, id); }
    }
  }

  lemma NoJobNoChange(c: Config, s: State, input: Input, a: Answers, from: JobId)
    requires !MakesJob(c, s, input, a, from)
    ensures EnqueueCall(c, s, input, a, from).0 == s
  {
    hide Trim, NewRecord, Refused, Target, EventsFor, CachedResult;
  }

  lemma NewJobServed(c: Config, s: State, input: Input, a: Answers, from: JobId)
    requires Served(s) && MakesJob(c, s, input, a, from)
    ensures Served(EnqueueCall(c, s, input, a, from).0)
  {
    hide EnqueueCall, IsSent, MakesJob, Holds, IsTrimmed;
    var t := EnqueueCall(c, s, input, a, from).0;
    NewJob(c, s, input, a, from);
    if input.useCache && a.cached.Some? {
      CachedJob(c, s, input, a, from);
    } else {
      QueuedJob(c, s, input, a, from);
      SaysWho(c, s, input, a, from);
      LastSent(t);
    }
    forall id | IsSent(s, id) ensures IsSent(t, id) { StaysSent(s, t, id); }
  }

  lemma SaysWho(c: Config, s: State, input: Input, a: Answers, from: JobId)
    requires MakesJob(c, s, input, a, from)
    ensures var t := EnqueueCall(c, s, input, a, from).0;
      a.newId in t.records && t.records[a.newId].jobId == a.newId
  {
    hide EnqueueCall, MakesJob;
    NewJob(c, s, input, a, from);
  }

  lemma LastSent(t: State)
    requires t.published != []
    ensures IsSent(t, t.published[|t.published| - 1].jobId)
  {
  }

  lemma {:induction false} EveryJobServed(c: Config, s: State, steps: seq<Step>)
    requires Served(s)
    ensures Served(Run(c, s, steps))
    decreases |steps|
  {
    if steps != [] {
      ServedStep(c, s, steps[0]);
      EveryJobServed(c, Next(c, s, steps[0]), steps[1..]);
    }
  }

  /** A call is turned down exactly when it has no live key, no cached answer and no worker;
      it then leaves everything as it was, so a later call with the same key starts afresh. */
  lemma RejectedBindsNothing(c: Config, s: State, input: Input, a: Answers, from: JobId)
    requires Sound(s)
    ensures var (t, r) := EnqueueCall(c, s, input, a, from);
      && (r == Rejected <==> !(Key(c, input) != "" && Live(s, Key(c, input))) && !(input.useCache && a.cached.Some?)
                             && Refused(c, input, a.worker))
      && (r == Rejected ==> t == s)
  {
  }

  /** Of the calls that carry the key: how many changed anything, how many records they
      saved, how many messages and events they published, and the jobs they were answered
      with. */
  function Changes(c: Config, s: State, steps: seq<Step>, key: string): nat
    decreases |steps|
  {
    if steps == [] then 0
    else
      var t := Next(c, s, steps[0]);
      (if steps[0].Call? && Key(c, steps[0].input) == key && t != s then 1 else 0) + Changes(c, t, steps[1..], key)
  }

  function Saves(c: Config, s: State, steps: seq<Step>, key: string): int
    decreases |steps|
  {
    if steps == [] then 0
    else
      var t := Next(c, s, steps[0]);
      (if steps[0].Call? && Key(c, steps[0].input) == key then |t.saved| - |s.saved| else 0)
        + Saves(c, t, steps[1..], key)
  }

  function Sent(s: State): nat {
    |s.published| + |s.events|
  }

  function Publications(c: Config, s: State, steps: seq<Step>, key: string): int
    decreases |steps|
  {
    if steps == [] then 0
    else
      var t := Next(c, s, steps[0]);
      (if steps[0].Call? && Key(c, steps[0].input) == key then Sent(t) - Sent(s) else 0)
        + Publications(c, t, steps[1..], key)
  }

  function Jobs(c: Config, s: State, steps: seq<Step>, key: string): seq<JobId>
    decreases |steps|
  {
    if steps == [] then []
    else
      (match steps[0]
       case Call(input, a, from) =>
         var r := EnqueueCall(c, s, input, a, from).1;
         if Key(c, input) == key && r.Accepted? then [r.jobId] else []
       case _ => [])
        + Jobs(c, Next(c, s, steps[0]), steps[1..], key)
  }

  /** A step from a state where the key is live. */
  lemma StepWhileLive(c: Config, s: State, step: Step, key: string)
    requires Sound(s) && key != "" && Live(s, key)
    ensures key in Next(c, s, step).keys && Next(c, s, step).keys[key] == s.keys[key]
    ensures step.Call? && Key(c, step.input) == key ==>
      && Next(c, s, step) == s
      && EnqueueCall(c, s, step.input, step.answers, step.retriedFrom).1 == Answered(s.records[s.keys[key].jobId])
      && s.records[s.keys[key].jobId].jobId == s.keys[key].jobId
  {
    hide Trim, Refused, Target, StrategyOf, EventsFor;
  }

  /** While a key is live, its calls change nothing and all get the job it is bound to. */
  lemma {:induction false} WhileLive(c: Config, s: State, steps: seq<Step>, key: string)
    requires Sound(s) && key != "" && Live(s, key)
    requires Run(c, s, steps).now < s.keys[key].expiresAt
    ensures Changes(c, s, steps, key) == 0
    ensures Saves(c, s, steps, key) == 0 && Publications(c, s, steps, key) == 0
    ensures forall i :: 0 <= i < |Jobs(c, s, steps, key)| ==> Jobs(c, s, steps, key)[i] == s.keys[key].jobId
    ensures key in Run(c, s, steps).keys && Run(c, s, steps).keys[key] == s.keys[key]
    decreases |steps|
  {
      hide Next, EnqueueCall, Key, Sound;
    if steps != [] {
      var t := Next(c, s, steps[0]);
      SoundStep(c, s, steps[0]);
      Later(c, t, steps[1..]);
      StepWhileLive(c, s, steps[0], key);
      WhileLive(c, t, steps[1..], key);
    }
  }

  /** A step from a state where the key is free. */
  lemma StepWhileFree(c: Config, s: State, step: Step, key: string)
    requires Sound(s) && key != "" && !Live(s, key) && c.resultTtl > 0
    ensures var t := Next(c, s, step);
      if step.Call? && Key(c, step.input) == key && EnqueueCall(c, s, step.input, step.answers, step.retriedFrom).1.Accepted?
      then
        && Live(t, key) && t.keys[key].expiresAt == s.now + c.resultTtl
        && t.keys[key].jobId == EnqueueCall(c, s, step.input, step.answers, step.retriedFrom).1.jobId
        && |t.saved| == |s.saved| + 1 && Sent(s) <= Sent(t) <= Sent(s) + 1
      else
        && !Live(t, key)
        && (step.Call? && Key(c, step.input) == key ==> t == s)
  {
    hide Trim;
  }

  /** Main result: in any run shorter than the time to live, starting with a free key, the
      calls that carry the key save at most one record, publish at most one message or event
      and change nothing more than once; they save one exactly when any of them succeeds, and
      all that succeed get the same job. */
  lemma {:induction false} OneJobPerKey(c: Config, s: State, steps: seq<Step>, key: string)
    requires Sound(s) && key != "" && !Live(s, key)
    requires Run(c, s, steps).now < s.now + c.resultTtl
    ensures Saves(c, s, steps, key) == if Jobs(c, s, steps, key) == [] then 0 else 1
    ensures Changes(c, s, steps, key) == Saves(c, s, steps, key)
    ensures 0 <= Publications(c, s, steps, key) <= Saves(c, s, steps, key)
    ensures forall i :: 0 <= i < |Jobs(c, s, steps, key)| ==> Jobs(c, s, steps, key)[i] == Jobs(c, s, steps, key)[0]
    decreases |steps|
  {
    hide Next, EnqueueCall, Key, Sound;
    Later(c, s, steps);
    if steps != [] {
      var t := Next(c, s, steps[0]);
      SoundStep(c, s, steps[0]);
      StepWhileFree(c, s, steps[0], key);
      Later(c, t, steps[1..]);
      if Live(t, key) {
        WhileLive(c, t, steps[1..], key);
      } else {
        OneJobPerKey(c, t, steps[1..], key);
      }
    }
  }

  /** The bound on the time is exact: once the time to live has passed, the next successful
      call with the key saves a new record. */
  lemma KeyExpires(c: Config, s: State, input: Input, a: Answers, wait: nat, again: Answers)
    requires Sound(s) && Key(c, input) != "" && !Live(s, Key(c, input))
    requires EnqueueCall(c, s, input, a, "").1.Accepted? && a.newId != again.newId
    ensures var t := Next(c, EnqueueCall(c, s, input, a, "").0, Tick(wait));
      EnqueueCall(c, t, input, again, "").1.Accepted? ==>
        (EnqueueCall(c, t, input, again, "").1.jobId == a.newId <==> wait < c.resultTtl)
  {
  }
}
