/** One delivery that nobody disturbs, from the first step of its handler to the ack: what it
    leaves behind is a table over the record, the worker, the cache and the strategies. */
module DeliveryCalls {
  import opened Common
  import opened QueueNames
  import opened Delivery
  import opened DeliverySafety
  import L = ScrapeLoop

  /** The handler of copy i takes n steps in a row. */
  function Repeatedly(c: Config, s: State, i: nat, env: Env, n: nat): State
    decreases n
  {
    if n == 0 then s else Repeatedly(c, Apply(c, s, Advance(i, env)), i, env, n - 1)
  }

  /** What a handler has written and sent so far. */
  datatype Delta = Delta(record: Option<Status>, result: Option<Status>, events: seq<Event>, scrapes: seq<Scrape>,
                         added: seq<Copy>)

  const NOTHING := Delta(None, None, [], [], [])

  /** A call that returned normally settles its job. */
  predicate Settles(place: Place) {
    match place
    case Held(_, _, pc) => pc.Returned?
    case Acked(how) => how.Settled?
    case InQueue(_) => false
  }

  /** The state s in which copy i stands elsewhere and its handler has done this much. A
      record that does not exist is not written. */
  function With(s: State, i: nat, place: Place, d: Delta): State
    requires i < |s.copies|
  {
    var j := s.copies[i].msg.job;
    s.(copies := s.copies[i := s.copies[i].(place := place)] + d.added,
       records := if d.record.Some? && j in s.records then s.records[j := d.record.value] else s.records,
       results := if d.result.Some? then s.results[j := d.result.value] else s.results,
       events := s.events + d.events, scrapes := s.scrapes + d.scrapes,
       settled := if Settles(place) then s.settled + {j} else s.settled)
  }

  // ---------------------------------------------------------------------------
  // The table
  // ---------------------------------------------------------------------------

  datatype Result = Result(how: Ending, delta: Delta)

  function Told(m: Message, name: EventName): seq<Event> {
    if m.webhook then [Event(m.job, name, FromWorker)] else []
  }

  /** A cancelled job is not scraped. */
  function Skipped(m: Message): Result {
    Result(Settled(Cancelled), Delta(None, Some(Cancelled), Told(m, JobCancelled), [], []))
  }

  /** Record, result and event say completed. */
  function Done(m: Message, scrapes: seq<Scrape>): Result {
    Result(Settled(Completed), Delta(Some(Completed), Some(Completed), Told(m, JobCompleted), scrapes, []))
  }

  /** The process call threw. While attempts are left the job is queued again for the next
      one; its result is failed if the scrape failed. After the last attempt record, result
      and event say failed, and the copy is buried with its attempt. */
  function Thrown(c: Config, m: Message, attempt: nat, result: Option<Status>, scrapes: seq<Scrape>): Result {
    if attempt < c.maxDeliveryAttempts
    then Result(HandedOver, Delta(Some(Queued), result, [], scrapes,
                                  [Copy(m, Some(attempt + 1), Some(attempt + 1), InQueue(JobQueue(c, m, Retry)), 0)]))
    else Result(HandedOver, Delta(Some(Failed), Some(Failed), Told(m, JobFailed), scrapes,
                                  [Copy(m, Some(attempt), Some(attempt), InQueue(JobQueue(c, m, DeadLetter)), 0)]))
  }

  predicate Permits(w: Worker, s: Strategy) {
    match s
    case Auto => true
    case Fixed(r) => r in w.allowed
    case Cloudscraper => Http in w.allowed
  }

  /** The result of a call: out is the outcome of the strategy loop. */
  function Outcome(c: Config, m: Message, attempt: nat, worker: string, record: Option<Status>, env: Env, out: L.Outcome): Result
    requires worker in c.workers
  {
    var log := seq(|out.executed|, k requires 0 <= k < |out.executed| => Scrape(m.job, worker, out.executed[k]));
    if record == Some(Cancelled) then Skipped(m)
    else if !Permits(c.workers[worker], m.strategy) then Thrown(c, m, attempt, None, [])
    else if m.useCache && env.cacheHit then Done(m, [])
    else if !out.verdict.Completed? then Thrown(c, m, attempt, Some(Failed), log)
    else if m.strategy == Fixed(Playwright) && env.httpFallback then Thrown(c, m, attempt, None, log)
    else Done(m, log)
  }

  // ---------------------------------------------------------------------------
  // Step by step
  // ---------------------------------------------------------------------------

  function Plus(d: Delta, m: Message, worker: string, e: Effect): Delta {
    Delta(if e.SetStatus? then Some(e.status) else d.record, if e.SaveResult? then Some(e.status) else d.result,
          d.events + NewEvents(m, e), d.scrapes + NewScrapes(m, worker, e), d.added + Added(m, e))
  }

  lemma StepWith(c: Config, s: State, i: nat, env: Env, q: string, w: string, pc: Pc, d: Delta)
    requires i < |s.copies| && w in c.workers && !pc.Returned? && !pc.Sent?
    ensures var m, attempt := s.copies[i].msg, Attempt(s.copies[i]);
      var u := With(s, i, Held(q, w, pc), d);
      var next := HandlerStep(c, m, attempt, c.workers[w], pc, RecordOf(u, m.job), env);
      Apply(c, u, Advance(i, env)) == With(s, i, Held(q, w, next.pc), Plus(d, m, w, next.effect))
  {
    hide HandlerStep, Apply;
    var m := s.copies[i].msg;
    var u := With(s, i, Held(q, w, pc), d);
    assert u.copies[i] == s.copies[i].(place := Held(q, w, pc));
    AdvanceFrame(c, u, i, env);
    var e := StepOf(c, u, i, env).effect;
    assert s.events + d.events + NewEvents(m, e) == s.events + (d.events + NewEvents(m, e));
    assert s.scrapes + d.scrapes + NewScrapes(m, w, e) == s.scrapes + (d.scrapes + NewScrapes(m, w, e));
  }

  /** One step of the n that are left. */
  lemma OneStep(c: Config, s: State, i: nat, env: Env, q: string, w: string, pc: Pc, d: Delta, n: nat)
    requires i < |s.copies| && w in c.workers && !pc.Returned? && !pc.Sent? && pc != ReadRecord && n >= 1
    ensures var m, attempt := s.copies[i].msg, Attempt(s.copies[i]);
      var next := HandlerStep(c, m, attempt, c.workers[w], pc, None, env);
      Repeatedly(c, With(s, i, Held(q, w, pc), d), i, env, n)
        == Repeatedly(c, With(s, i, Held(q, w, next.pc), Plus(d, m, w, next.effect)), i, env, n - 1)
  {
    hide HandlerStep, Apply, With;
    var m, attempt := s.copies[i].msg, Attempt(s.copies[i]);
    var u := With(s, i, Held(q, w, pc), d);
    StepWith(c, s, i, env, q, w, pc, d);
    RecordIrrelevant(c, m, attempt, c.workers[w], pc, RecordOf(u, m.job), env);
  }

  /** Only the first step looks at the record. */
  lemma RecordIrrelevant(c: Config, m: Message, attempt: nat, w: Worker, pc: Pc, record: Option<Status>, env: Env)
    requires pc != ReadRecord
    ensures HandlerStep(c, m, attempt, w, pc, record, env) == HandlerStep(c, m, attempt, w, pc, None, env)
  {
  }

  /** Acked copies stay where they are. */
  lemma {:induction false} StaysAcked(c: Config, s: State, i: nat, env: Env, n: nat)
    requires i < |s.copies| && s.copies[i].place.Acked?
    ensures Repeatedly(c, s, i, env, n) == s
    decreases n
  {
    hide Apply;
    if n > 0 {
      CancelCallFrame(c, s, Advance(i, env));
      StaysAcked(c, s, i, env, n - 1);
    }
  }

  lemma AckStep(c: Config, s: State, i: nat, env: Env, q: string, w: string, pc: Pc, d: Delta, n: nat)
    requires i < |s.copies| && w in c.workers && (pc.Returned? || pc.Sent?) && n >= 1
    ensures Repeatedly(c, With(s, i, Held(q, w, pc), d), i, env, n)
      == With(s, i, Acked(if pc.Returned? then Settled(pc.status) else HandedOver), d)
  {
    hide HandlerStep, Apply;
    var u := With(s, i, Held(q, w, pc), d);
    AckFrame(c, u, i, env);
    var t := With(s, i, Acked(if pc.Returned? then Settled(pc.status) else HandedOver), d);
    assert Apply(c, u, Advance(i, env)) == t;
    StaysAcked(c, t, i, env, n - 1);
  }

  // ---------------------------------------------------------------------------
  // The parts of a call
  // ---------------------------------------------------------------------------

  lemma SkipPart(c: Config, s: State, i: nat, env: Env, q: string, w: string, n: nat)
    requires i < |s.copies| && w in c.workers && n >= 3
    ensures var r := Skipped(s.copies[i].msg);
      Repeatedly(c, With(s, i, Held(q, w, SkipResult), NOTHING), i, env, n) == With(s, i, Acked(r.how), r.delta)
  {
    hide Apply, With, Repeatedly, ExecuteStep, JobQueue, StrategyAllowed;
    var m := s.copies[i].msg;
    OneStep(c, s, i, env, q, w, SkipResult, NOTHING, n);
    var d := Plus(NOTHING, m, w, SaveResult(Cancelled));
    OneStep(c, s, i, env, q, w, SkipEvent, d, n - 1);
    AckStep(c, s, i, env, q, w, Returned(Cancelled), Plus(d, m, w, Emit(Cancelled)), n - 2);
    assert Plus(d, m, w, Emit(Cancelled)) == Skipped(m).delta;
  }

  /** From the first of the writes that complete a job on: after a cache hit, */
  lemma HitPart(c: Config, s: State, i: nat, env: Env, q: string, w: string, d: Delta, n: nat)
    requires i < |s.copies| && w in c.workers && n >= 5 && d.events == [] && d.added == []
    ensures var r := Done(s.copies[i].msg, d.scrapes);
      Repeatedly(c, With(s, i, Held(q, w, HitStatus), d), i, env, n) == With(s, i, Acked(r.how), r.delta)
  {
    hide Apply, With, Repeatedly, ExecuteStep, JobQueue, StrategyAllowed;
    var m := s.copies[i].msg;
    OneStep(c, s, i, env, q, w, HitStatus, d, n);
    var d1 := Plus(d, m, w, SetStatus(Completed));
    OneStep(c, s, i, env, q, w, HitResult, d1, n - 1);
    var d2 := Plus(d1, m, w, SaveResult(Completed));
    OneStep(c, s, i, env, q, w, HitEvent, d2, n - 2);
    IdlePart(c, s, i, env, q, w, Plus(d2, m, w, Emit(Completed)), n - 3);
    Completes(m, w, d);
  }

  /** and after a scrape. */
  lemma DonePart(c: Config, s: State, i: nat, env: Env, q: string, w: string, d: Delta, n: nat)
    requires i < |s.copies| && w in c.workers && n >= 6 && d.events == [] && d.added == []
    ensures var r := Done(s.copies[i].msg, d.scrapes);
      Repeatedly(c, With(s, i, Held(q, w, DoneStatus), d), i, env, n) == With(s, i, Acked(r.how), r.delta)
  {
    hide Apply, With, Repeatedly, ExecuteStep, JobQueue, StrategyAllowed;
    var m := s.copies[i].msg;
    OneStep(c, s, i, env, q, w, DoneStatus, d, n);
    var d1 := Plus(d, m, w, SetStatus(Completed));
    OneStep(c, s, i, env, q, w, DoneResult, d1, n - 1);
    var d2 := Plus(d1, m, w, SaveResult(Completed));
    OneStep(c, s, i, env, q, w, DoneEvent, d2, n - 2);
    StorePart(c, s, i, env, q, w, Plus(d2, m, w, Emit(Completed)), n - 3);
    Completes(m, w, d);
  }

  lemma Completes(m: Message, w: string, d: Delta)
    requires d.events == [] && d.added == []
    ensures Plus(Plus(Plus(d, m, w, SetStatus(Completed)), m, w, SaveResult(Completed)), m, w, Emit(Completed))
         == Done(m, d.scrapes).delta
  {
  }

  lemma StorePart(c: Config, s: State, i: nat, env: Env, q: string, w: string, d: Delta, n: nat)
    requires i < |s.copies| && w in c.workers && n >= 3
    ensures Repeatedly(c, With(s, i, Held(q, w, StoreCache), d), i, env, n) == With(s, i, Acked(Settled(Completed)), d)
  {
    hide Apply, With, Repeatedly, ExecuteStep, JobQueue, StrategyAllowed;
    assert Plus(d, s.copies[i].msg, w, Nothing) == d;
    OneStep(c, s, i, env, q, w, StoreCache, d, n);
    IdlePart(c, s, i, env, q, w, d, n - 1);
  }

  lemma IdlePart(c: Config, s: State, i: nat, env: Env, q: string, w: string, d: Delta, n: nat)
    requires i < |s.copies| && w in c.workers && n >= 2
    ensures Repeatedly(c, With(s, i, Held(q, w, MarkIdle), d), i, env, n) == With(s, i, Acked(Settled(Completed)), d)
  {
    hide Apply, With, Repeatedly, ExecuteStep, JobQueue, StrategyAllowed;
    assert Plus(d, s.copies[i].msg, w, Nothing) == d;
    OneStep(c, s, i, env, q, w, MarkIdle, d, n);
    AckStep(c, s, i, env, q, w, Returned(Completed), d, n - 1);
  }

  /** From the catch block on. */
  lemma CatchPart(c: Config, s: State, i: nat, env: Env, q: string, w: string, d: Delta, n: nat)
    requires i < |s.copies| && w in c.workers && n >= 5 && d.events == [] && d.added == []
    ensures var m, attempt := s.copies[i].msg, Attempt(s.copies[i]);
      var r := Thrown(c, m, attempt, d.result, d.scrapes);
      Repeatedly(c, With(s, i, Held(q, w, Catch(c, attempt)), d), i, env, n) == With(s, i, Acked(r.how), r.delta)
  {
    hide Apply, With, Repeatedly, Thrown, Attempt;
    if Attempt(s.copies[i]) < c.maxDeliveryAttempts {
      RetryPart(c, s, i, env, q, w, d, n);
    } else {
      BuryPart(c, s, i, env, q, w, d, n);
    }
  }

  lemma RetryPart(c: Config, s: State, i: nat, env: Env, q: string, w: string, d: Delta, n: nat)
    requires i < |s.copies| && w in c.workers && n >= 3 && d.events == [] && d.added == []
    requires Attempt(s.copies[i]) < c.maxDeliveryAttempts
    ensures var m, attempt := s.copies[i].msg, Attempt(s.copies[i]);
      var r := Thrown(c, m, attempt, d.result, d.scrapes);
      Repeatedly(c, With(s, i, Held(q, w, QueuedStatus), d), i, env, n) == With(s, i, Acked(r.how), r.delta)
  {
    hide Apply, With, Repeatedly, ExecuteStep, JobQueue, StrategyAllowed, Attempt, Plus;
    var m, attempt := s.copies[i].msg, Attempt(s.copies[i]);
    OneStep(c, s, i, env, q, w, QueuedStatus, d, n);
    var d1 := Plus(d, m, w, SetStatus(Queued));
    OneStep(c, s, i, env, q, w, SendRetry, d1, n - 1);
    AckStep(c, s, i, env, q, w, Sent, Plus(d1, m, w, Send(JobQueue(c, m, Retry), attempt + 1)), n - 2);
    RetryDelta(c, m, attempt, w, d);
  }

  lemma RetryDelta(c: Config, m: Message, attempt: nat, w: string, d: Delta)
    requires d.events == [] && d.added == [] && attempt < c.maxDeliveryAttempts
    ensures Plus(Plus(d, m, w, SetStatus(Queued)), m, w, Send(JobQueue(c, m, Retry), attempt + 1))
         == Thrown(c, m, attempt, d.result, d.scrapes).delta
    ensures Thrown(c, m, attempt, d.result, d.scrapes).how == HandedOver
  {
    hide JobQueue;
  }

  lemma BuryPart(c: Config, s: State, i: nat, env: Env, q: string, w: string, d: Delta, n: nat)
    requires i < |s.copies| && w in c.workers && n >= 5 && d.events == [] && d.added == []
    requires Attempt(s.copies[i]) >= c.maxDeliveryAttempts
    ensures var m, attempt := s.copies[i].msg, Attempt(s.copies[i]);
      var r := Thrown(c, m, attempt, d.result, d.scrapes);
      Repeatedly(c, With(s, i, Held(q, w, DeadStatus), d), i, env, n) == With(s, i, Acked(r.how), r.delta)
  {
    hide Apply, With, Repeatedly, ExecuteStep, JobQueue, StrategyAllowed, Attempt, Plus;
    var m, attempt := s.copies[i].msg, Attempt(s.copies[i]);
    OneStep(c, s, i, env, q, w, DeadStatus, d, n);
    var d1 := Plus(d, m, w, SetStatus(Failed));
    OneStep(c, s, i, env, q, w, DeadResult, d1, n - 1);
    var d2 := Plus(d1, m, w, SaveResult(Failed));
    OneStep(c, s, i, env, q, w, DeadEvent, d2, n - 2);
    var d3 := Plus(d2, m, w, Emit(Failed));
    OneStep(c, s, i, env, q, w, SendDead, d3, n - 3);
    AckStep(c, s, i, env, q, w, Sent, Plus(d3, m, w, Send(JobQueue(c, m, DeadLetter), attempt)), n - 4);
    BuryDelta(c, m, attempt, w, d);
  }

  lemma BuryDelta(c: Config, m: Message, attempt: nat, w: string, d: Delta)
    requires d.events == [] && d.added == [] && attempt >= c.maxDeliveryAttempts
    ensures var d3 := Plus(Plus(Plus(d, m, w, SetStatus(Failed)), m, w, SaveResult(Failed)), m, w, Emit(Failed));
      Plus(d3, m, w, Send(JobQueue(c, m, DeadLetter), attempt)) == Thrown(c, m, attempt, d.result, d.scrapes).delta
    ensures Thrown(c, m, attempt, d.result, d.scrapes).how == HandedOver
  {
    hide JobQueue;
  }

  /** From a failed scrape on. */
  lemma FailPart(c: Config, s: State, i: nat, env: Env, q: string, w: string, d: Delta, n: nat)
    requires i < |s.copies| && w in c.workers && n >= 7 && d.events == [] && d.added == []
    ensures var m, attempt := s.copies[i].msg, Attempt(s.copies[i]);
      var r := Thrown(c, m, attempt, Some(Failed), d.scrapes);
      Repeatedly(c, With(s, i, Held(q, w, FailStatus), d), i, env, n) == With(s, i, Acked(r.how), r.delta)
  {
    hide Apply, With, Repeatedly, ExecuteStep, JobQueue, StrategyAllowed, Attempt, Thrown;
    var m := s.copies[i].msg;
    OneStep(c, s, i, env, q, w, FailStatus, d, n);
    var d1 := Plus(d, m, w, SetStatus(Failed));
    OneStep(c, s, i, env, q, w, FailResult, d1, n - 1);
    var d2 := Plus(d1, m, w, SaveResult(Failed));
    assert d2 == d.(record := Some(Failed), result := Some(Failed));
    CatchPart(c, s, i, env, q, w, d2, n - 2);
  }

  /** From the strategy loop on. */
  lemma ScrapePart(c: Config, s: State, i: nat, env: Env, q: string, w: string, out: L.Outcome, d: Delta, n: nat)
    requires i < |s.copies| && w in c.workers && n >= 8
    requires var m, v := s.copies[i].msg, c.workers[w];
      L.Meets(L.ResolvePlan(m.strategy, v.defaultStrategy, v.allowed), m.maxRetries, m.retryDelayMs, env.rounds, out)
    requires d.result == None && d.events == [] && d.scrapes == [] && d.added == []
    ensures var m, attempt := s.copies[i].msg, Attempt(s.copies[i]);
      var log := ScrapeLog(m, w, out.executed);
      var r :=
        if !out.verdict.Completed? then Thrown(c, m, attempt, Some(Failed), log)
        else if m.strategy == Fixed(Playwright) && env.httpFallback then Thrown(c, m, attempt, None, log)
        else Done(m, log);
      Repeatedly(c, With(s, i, Held(q, w, Execute), d), i, env, n) == With(s, i, Acked(r.how), r.delta)
  {
    hide Apply, With, Repeatedly, JobQueue, StrategyAllowed, Attempt, L.Meets, L.ResolvePlan, ScrapeLog, Thrown, Catch;
    var m, v, attempt := s.copies[i].msg, c.workers[w], Attempt(s.copies[i]);
    var plan := L.ResolvePlan(m.strategy, v.defaultStrategy, v.allowed);
    L.MeetsUnique(plan, m.maxRetries, m.retryDelayMs, env.rounds, out, L.Scrape(plan, m.maxRetries, m.retryDelayMs, env.rounds));
    OneStep(c, s, i, env, q, w, Execute, d, n);
    var d1 := Plus(d, m, w, Scraped(out.executed));
    assert d1 == d.(scrapes := ScrapeLog(m, w, out.executed));
    if !out.verdict.Completed? {
      FailPart(c, s, i, env, q, w, d1, n - 1);
    } else if m.strategy == Fixed(Playwright) && env.httpFallback {
      CatchPart(c, s, i, env, q, w, d1, n - 1);
    } else {
      DonePart(c, s, i, env, q, w, d1, n - 1);
    }
  }

  /** From the first write on. */
  lemma ProcessPart(c: Config, s: State, i: nat, env: Env, q: string, w: string, out: L.Outcome, n: nat)
    requires i < |s.copies| && w in c.workers && n >= 10
    requires var m, v := s.copies[i].msg, c.workers[w];
      L.Meets(L.ResolvePlan(m.strategy, v.defaultStrategy, v.allowed), m.maxRetries, m.retryDelayMs, env.rounds, out)
    ensures var m, attempt := s.copies[i].msg, Attempt(s.copies[i]);
      var r := Outcome(c, m, attempt, w, None, env, out);
      Repeatedly(c, With(s, i, Held(q, w, MarkProcessing), NOTHING), i, env, n) == With(s, i, Acked(r.how), r.delta)
  {
    hide Apply, With, Repeatedly, ExecuteStep, JobQueue, Attempt, L.Meets, L.ResolvePlan;
    var m := s.copies[i].msg;
    OneStep(c, s, i, env, q, w, MarkProcessing, NOTHING, n);
    var d := Plus(NOTHING, m, w, SetStatus(Processing));
    if !Permits(c.workers[w], m.strategy) {
      CatchPart(c, s, i, env, q, w, d, n - 1);
    } else {
      OneStep(c, s, i, env, q, w, LookupCache, d, n - 1);
      assert Plus(d, m, w, Nothing) == d;
      if m.useCache && env.cacheHit {
        HitPart(c, s, i, env, q, w, d, n - 2);
      } else {
        ScrapePart(c, s, i, env, q, w, out, d, n - 2);
        assert ScrapeLog(m, w, out.executed)
            == seq(|out.executed|, k requires 0 <= k < |out.executed| => Scrape(m.job, w, out.executed[k]));
      }
    }
  }

  // ---------------------------------------------------------------------------
  // Main result
  // ---------------------------------------------------------------------------

  /** A delivered copy whose handler nobody disturbs: after twelve steps or more it is
      acknowledged, and what is left behind is what the table says and nothing else. */
  lemma CallDoes(c: Config, s: State, i: nat, env: Env, out: L.Outcome, n: nat)
    requires HeldAt(s, i) && s.copies[i].place.pc == ReadRecord && s.copies[i].place.worker in c.workers && n >= 12
    requires var m, v := s.copies[i].msg, c.workers[s.copies[i].place.worker];
      L.Meets(L.ResolvePlan(m.strategy, v.defaultStrategy, v.allowed), m.maxRetries, m.retryDelayMs, env.rounds, out)
    ensures var copy := s.copies[i];
      var r := Outcome(c, copy.msg, Attempt(copy), copy.place.worker, RecordOf(s, copy.msg.job), env, out);
      Repeatedly(c, s, i, env, n) == With(s, i, Acked(r.how), r.delta)
  {
    hide Apply, L.Meets, L.ResolvePlan, JobQueue, Attempt, ExecuteStep, StrategyAllowed, Permits, Thrown;
    var copy := s.copies[i];
    var m, q, w := copy.msg, copy.place.queue, copy.place.worker;
    assert s == With(s, i, Held(q, w, ReadRecord), NOTHING);
    StepWith(c, s, i, env, q, w, ReadRecord, NOTHING);
    assert Plus(NOTHING, m, w, Nothing) == NOTHING;
    if RecordOf(s, m.job) == Some(Cancelled) {
      SkipPart(c, s, i, env, q, w, n - 1);
    } else {
      ProcessPart(c, s, i, env, q, w, out, n - 1);
    }
  }

  /** The same with the strategy loop as a function. */
  function ResultOf(c: Config, s: State, i: nat, env: Env): Result
    requires HeldAt(s, i) && s.copies[i].place.worker in c.workers
  {
    var copy := s.copies[i];
    var m, w := copy.msg, c.workers[copy.place.worker];
    var plan := L.ResolvePlan(m.strategy, w.defaultStrategy, w.allowed);
    Outcome(c, m, Attempt(copy), copy.place.worker, RecordOf(s, m.job), env,
            L.Scrape(plan, m.maxRetries, m.retryDelayMs, env.rounds))
  }

  lemma {:induction false} RunOfSteps(c: Config, s: State, i: nat, env: Env, acts: seq<Action>)
    requires forall k :: 0 <= k < |acts| ==> acts[k] == Advance(i, env)
    ensures Run(c, s, acts) == Repeatedly(c, s, i, env, |acts|)
    decreases |acts|
  {
    hide Apply;
    if acts != [] {
      RunOfSteps(c, Apply(c, s, acts[0]), i, env, acts[1..]);
    }
  }

  lemma {:induction false} RepeatedlyMore(c: Config, s: State, i: nat, env: Env, a: nat, b: nat)
    ensures Repeatedly(c, s, i, env, a + b) == Repeatedly(c, Repeatedly(c, s, i, env, a), i, env, b)
    decreases a
  {
    hide Apply;
    if a > 0 {
      RepeatedlyMore(c, Apply(c, s, Advance(i, env)), i, env, a - 1, b);
    }
  }

  /** However many steps it took, once the copy is acknowledged the table says what is left. */
  lemma Undisturbed(c: Config, s: State, i: nat, env: Env, acts: seq<Action>)
    requires HeldAt(s, i) && s.copies[i].place.pc == ReadRecord && s.copies[i].place.worker in c.workers
    requires forall k :: 0 <= k < |acts| ==> acts[k] == Advance(i, env)
    requires i < |Run(c, s, acts).copies| && Run(c, s, acts).copies[i].place.Acked?
    ensures var r := ResultOf(c, s, i, env);
      Run(c, s, acts) == With(s, i, Acked(r.how), r.delta)
  {
    hide Apply, Run, Repeatedly, With, L.Meets, L.ResolvePlan, Outcome;
    var m, w := s.copies[i].msg, c.workers[s.copies[i].place.worker];
    var out := L.Scrape(L.ResolvePlan(m.strategy, w.defaultStrategy, w.allowed), m.maxRetries, m.retryDelayMs, env.rounds);
    RunOfSteps(c, s, i, env, acts);
    if |acts| >= 12 {
      CallDoes(c, s, i, env, out, |acts|);
    } else {
      CallDoes(c, s, i, env, out, 12);
      RepeatedlyMore(c, s, i, env, |acts|, 12 - |acts|);
      StaysAcked(c, Run(c, s, acts), i, env, 12 - |acts|);
    }
  }

  /** No waiting job is stuck: whenever a copy of it is in its main queue and some worker may
      process it, delivering it and letting its handler go on leaves what the table says. */
  lemma CanBeHandled(c: Config, s: State, i: nat, w: string, env: Env) returns (acts: seq<Action>)
    requires ValidConfig(c) && Inv(c, s) && i < |s.copies|
    requires s.copies[i].place == InQueue(JobQueue(c, s.copies[i].msg, Main)) && MayProcess(c, s.copies[i].msg, w)
    ensures var held := Apply(c, s, Deliver(i, w));
      && HeldAt(held, i) && held.copies[i].place.worker == w
      && var r := ResultOf(c, held, i, env);
         Run(c, s, acts) == With(held, i, Acked(r.how), r.delta)
  {
    hide Apply, Run, Inv, With, Subscribed, JobQueue, L.Meets, L.ResolvePlan, Outcome;
    KnownMessage(c, s, i);
    ListenersMayProcess(c, s.copies[i].msg, Main, w);
    MoveFrame(c, s, Deliver(i, w));
    var held := Apply(c, s, Deliver(i, w));
    var m, v := held.copies[i].msg, c.workers[w];
    var out := L.Scrape(L.ResolvePlan(m.strategy, v.defaultStrategy, v.allowed), m.maxRetries, m.retryDelayMs, env.rounds);
    CallDoes(c, held, i, env, out, 12);
    var steps := seq(12, _ => Advance(i, env));
    RunOfSteps(c, held, i, env, steps);
    acts := [Deliver(i, w)] + steps;
    RunAppend(c, s, [Deliver(i, w)], steps);
    RunOne(c, s, Deliver(i, w));
  }

  lemma RunOne(c: Config, s: State, a: Action)
    ensures Run(c, s, [a]) == Apply(c, s, a)
  {
    hide Apply;
    assert [a][1..] == [];
  }

  /** A handler can be interrupted, by a throw or by the watchdog, until its process call has
      returned or thrown, and not later. */
  lemma InterruptibleIff(c: Config, s: State, i: nat)
    ensures Enabled(c, s, Fault(i)) <==> Enabled(c, s, Watchdog(i))
    ensures Enabled(c, s, Fault(i)) <==>
      && HeldAt(s, i)
      && var pc := s.copies[i].place.pc;
         !pc.Returned? && !pc.Sent? && pc !in {QueuedStatus, SendRetry, DeadStatus, DeadResult, DeadEvent, SendDead}
  {
  }

  // ---------------------------------------------------------------------------
  // The API's calls
  // ---------------------------------------------------------------------------

  /** A job can be recorded if it is new and its target, if it has one, is a known worker that
      supports its strategy. */
  lemma RecordableIff(c: Config, s: State, m: Message)
    ensures Enabled(c, s, Record(m)) <==>
      && m.job !in s.jobs
      && (m.target == None
          || (m.target.value in c.workers
              && (m.strategy == Auto || Permits(c.workers[m.target.value], m.strategy) || c.workers[m.target.value].allowed == [])))
  {
    if m.target.Some? && m.target.value in c.workers {
      SupportsIff(c.workers[m.target.value].allowed, m.strategy);
    }
  }

  /** A fresh job: its record says queued, and its message waits in its main queue, to which
      its retry queue leads back. */
  lemma FreshJob(c: Config, s: State, m: Message)
    requires m.job !in s.jobs && AcceptableTarget(c, m)
    ensures Run(c, s, [Record(m), Publish(m.job)]) ==
      s.(jobs := s.jobs[m.job := m], pending := s.pending - {m.job}, published := s.published + {m.job},
         records := s.records[m.job := Queued],
         deadLetter := s.deadLetter[JobQueue(c, m, Retry) := JobQueue(c, m, Main)],
         copies := s.copies + [Copy(m, None, None, InQueue(JobQueue(c, m, Main)), 0)])
  {
    hide HandlerStep, Apply, JobQueue, AcceptableTarget;
    var s1 := Apply(c, s, Record(m));
    ApiActs(c, s, Record(m));
    ApiActs(c, s1, Publish(m.job));
    RunTwo(c, s, Record(m), Publish(m.job));
    assert s.pending + {m.job} - {m.job} == s.pending - {m.job};
  }

  lemma RunTwo(c: Config, s: State, a: Action, b: Action)
    ensures Run(c, s, [a, b]) == Apply(c, Apply(c, s, a), b)
  {
    hide Apply;
    assert [a, b][1..] == [b];
    assert Run(c, Apply(c, s, a), [b]) == Apply(c, Apply(c, s, a), b);
  }

  /** A fresh job that the API answers from the cache is completed and announced as such. */
  lemma AnsweredJob(c: Config, s: State, m: Message)
    requires m.job !in s.jobs && m.useCache
    ensures Apply(c, s, AnswerCached(m)) ==
      s.(jobs := s.jobs[m.job := m], records := s.records[m.job := Completed], results := s.results[m.job := Completed],
         events := s.events + if m.webhook then [Event(m.job, JobCompleted, FromApi)] else [])
  {
    hide HandlerStep, Apply;
    ApiActs(c, s, AnswerCached(m));
  }

  /** A cancel call that nobody disturbs after its check. */
  lemma CancelDoes(c: Config, s: State, k: nat, j: JobId)
    requires k < |s.cancels| && s.cancels[k] == CancelCall(j, WriteStatus) && j in s.jobs && s.jobs[j].job == j
    ensures Run(c, s, [CancelStep(k), CancelStep(k), CancelStep(k)]) ==
      s.(records := if j in s.records then s.records[j := Cancelled] else s.records, results := s.results[j := Cancelled],
         events := s.events + (if s.jobs[j].webhook then [Event(j, JobCancelled, FromApi)] else []),
         cancels := s.cancels[k := CancelCall(j, CancelPc.Done)])
  {
    hide HandlerStep, Apply;
    var a := CancelStep(k);
    var s1 := Apply(c, s, a);
    ApiActs(c, s, a);
    var s2 := Apply(c, s1, a);
    ApiActs(c, s1, a);
    ApiActs(c, s2, a);
    RunThree(c, s, a, a, a);
  }
}
