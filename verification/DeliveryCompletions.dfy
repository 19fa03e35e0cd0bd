/** A job that may not be answered from the cache is completed only by a scrape: in every
    run, whatever is lost, thrown or abandoned. */
module DeliveryCompletions {
  import opened Common
  import opened QueueNames
  import opened Delivery
  import opened DeliverySafety
  import L = ScrapeLoop

  /** Some strategy was executed for the job. */
  ghost predicate WasScraped(s: State, j: JobId) {
    exists k :: 0 <= k < |s.scrapes| && s.scrapes[k].job == j
  }

  predicate AtHit(pc: Pc) {
    pc.HitStatus? || pc.HitResult? || pc.HitEvent?
  }

  /** Places of a handler that are only reached by completing the job. */
  predicate AtDone(pc: Pc) {
    pc.DoneStatus? || pc.DoneResult? || pc.DoneEvent? || pc.StoreCache? || pc.MarkIdle? || pc == Returned(Completed)
  }

  predicate HasCompleted(place: Place) {
    match place
    case Held(_, _, pc) => AtDone(pc)
    case Acked(how) => how == Settled(Completed)
    case InQueue(_) => false
  }

  predicate Hits(place: Place) {
    place.Held? && AtHit(place.pc)
  }

  ghost predicate CopyHonest(s: State, copy: Copy) {
    !copy.msg.useCache ==> !Hits(copy.place) && (HasCompleted(copy.place) ==> WasScraped(s, copy.msg.job))
  }

  ghost predicate StrayHonest(s: State, stray: Stray) {
    !stray.msg.useCache ==> !AtHit(stray.pc) && (AtDone(stray.pc) ==> WasScraped(s, stray.msg.job))
  }

  /** Record, result and events say completed only after a scrape. */
  ghost predicate JobHonest(s: State, j: JobId) {
    j in s.jobs && !s.jobs[j].useCache && SaysCompleted(s, j) ==> WasScraped(s, j)
  }

  ghost predicate SaysCompleted(s: State, j: JobId) {
    || RecordOf(s, j) == Some(Completed)
    || (j in s.results && s.results[j] == Completed)
    || (exists k :: 0 <= k < |s.events| && s.events[k].job == j && s.events[k].name == JobCompleted)
  }

  ghost predicate Honest(s: State) {
    && (forall i :: 0 <= i < |s.copies| ==> CopyHonest(s, s.copies[i]))
    && (forall z :: 0 <= z < |s.strays| ==> StrayHonest(s, s.strays[z]))
    && (forall j :: JobHonest(s, j))
    && (forall j :: SaysCompleted(s, j) ==> j in s.jobs)
  }

  // ---------------------------------------------------------------------------
  // One step
  // ---------------------------------------------------------------------------

  /** Without the cache a handler comes to completing the job only by the strategy loop. */
  lemma StepIsHonest(c: Config, m: Message, attempt: nat, w: Worker, pc: Pc, record: Option<Status>, env: Env)
    requires !m.useCache && !AtHit(pc)
    ensures var next := HandlerStep(c, m, attempt, w, pc, record, env);
      && !AtHit(next.pc)
      && (AtDone(next.pc) ==> AtDone(pc) || (next.effect.Scraped? && next.effect.strategies != []))
      && (next.effect == SetStatus(Completed) || next.effect == SaveResult(Completed) || next.effect == Emit(Completed) ==> AtDone(pc))
  {
    if pc == Execute {
      var plan := L.ResolvePlan(m.strategy, w.defaultStrategy, w.allowed);
      var out := L.Scrape(plan, m.maxRetries, m.retryDelayMs, env.rounds);
      if plan.Plan? { L.ExecutionsBounded(plan, env.rounds, out.retries + 1); }
    }
  }

  /** Scrapes are only added. */
  lemma StaysScraped(s: State, t: State, j: JobId)
    requires s.scrapes <= t.scrapes && WasScraped(s, j)
    ensures WasScraped(t, j)
  {
    var k :| 0 <= k < |s.scrapes| && s.scrapes[k].job == j;
    assert t.scrapes[k] == s.scrapes[k];
  }

  lemma NewlyScraped(s: State, t: State, m: Message, worker: string, e: Effect)
    requires t.scrapes == s.scrapes + NewScrapes(m, worker, e) && e.Scraped? && e.strategies != []
    ensures WasScraped(t, m.job)
  {
    assert t.scrapes[|s.scrapes|].job == m.job;
  }

  /** A step of a process call, of a copy or of a stray, at pc: from s to t it does e. */
  ghost predicate StepDoes(s: State, t: State, m: Message, worker: string, e: Effect) {
    && t.jobs == s.jobs && t.records == NewRecords(s.records, m, e)
    && t.results == NewResults(s.results, m, e) && t.events == s.events + NewEvents(m, e)
    && t.scrapes == s.scrapes + NewScrapes(m, worker, e)
  }

  predicate Completes(e: Effect) {
    e == SetStatus(Completed) || e == SaveResult(Completed) || e == Emit(Completed)
  }

  /** Such a step makes nothing say completed unless it completes its own job. */
  lemma SaysLess(s: State, t: State, m: Message, worker: string, e: Effect, j: JobId)
    requires StepDoes(s, t, m, worker, e) && SaysCompleted(t, j)
    ensures SaysCompleted(s, j) || (j == m.job && Completes(e))
  {
    if k :| 0 <= k < |t.events| && t.events[k].job == j && t.events[k].name == JobCompleted {
      if k < |s.events| {
        assert s.events[k] == t.events[k];
      } else {
        assert t.events[k] == NewEvents(m, e)[k - |s.events|];
      }
    }
  }

  lemma JobsStayHonest(s: State, t: State, m: Message, worker: string, e: Effect)
    requires Honest(s) && StepDoes(s, t, m, worker, e) && m.job in s.jobs && s.jobs[m.job] == m
    requires Completes(e) && !m.useCache ==> WasScraped(s, m.job)
    ensures forall j :: JobHonest(t, j) && (SaysCompleted(t, j) ==> j in t.jobs)
  {
    hide WasScraped, SaysCompleted, StepDoes;
    forall j ensures JobHonest(t, j) && (SaysCompleted(t, j) ==> j in t.jobs) {
      StepFacts(s, t, m, worker, e);
      if SaysCompleted(t, j) {
        SaysLess(s, t, m, worker, e, j);
        assert JobHonest(s, j);
        if WasScraped(s, j) { StaysScraped(s, t, j); }
      }
    }
  }

  lemma StepFacts(s: State, t: State, m: Message, worker: string, e: Effect)
    requires StepDoes(s, t, m, worker, e)
    ensures t.jobs == s.jobs && s.scrapes <= t.scrapes
  {
  }

  /** The copies of t are those of s except for copy i and added ones, which are honest. */
  lemma CopiesStayHonest(s: State, t: State, i: nat)
    requires Honest(s) && s.scrapes <= t.scrapes && |s.copies| <= |t.copies|
    requires forall k :: 0 <= k < |s.copies| && k != i ==> t.copies[k] == s.copies[k]
    requires forall k :: 0 <= k < |t.copies| && (k == i || k >= |s.copies|) ==> CopyHonest(t, t.copies[k])
    ensures forall k :: 0 <= k < |t.copies| ==> CopyHonest(t, t.copies[k])
  {
    hide WasScraped;
    forall k | 0 <= k < |t.copies| ensures CopyHonest(t, t.copies[k]) {
      if k < |s.copies| && k != i {
        assert CopyHonest(s, s.copies[k]);
        if WasScraped(s, s.copies[k].msg.job) { StaysScraped(s, t, s.copies[k].msg.job); }
      }
    }
  }

  lemma StraysStayHonest(s: State, t: State, z: nat)
    requires Honest(s) && s.scrapes <= t.scrapes && |s.strays| <= |t.strays|
    requires forall k :: 0 <= k < |s.strays| && k != z ==> t.strays[k] == s.strays[k]
    requires forall k :: 0 <= k < |t.strays| && (k == z || k >= |s.strays|) ==> StrayHonest(t, t.strays[k])
    ensures forall k :: 0 <= k < |t.strays| ==> StrayHonest(t, t.strays[k])
  {
    hide WasScraped;
    forall k | 0 <= k < |t.strays| ensures StrayHonest(t, t.strays[k]) {
      if k < |s.strays| && k != z {
        assert StrayHonest(s, s.strays[k]);
        if WasScraped(s, s.strays[k].msg.job) { StaysScraped(s, t, s.strays[k].msg.job); }
      }
    }
  }

  lemma HonestAdvance(c: Config, s: State, i: nat, env: Env)
    requires Enabled(c, s, Advance(i, env)) && !s.copies[i].place.pc.Returned? && !s.copies[i].place.pc.Sent?
    requires Inv(c, s) && Honest(s)
    ensures Honest(Apply(c, s, Advance(i, env)))
  {
    hide HandlerStep, Apply, Inv, WasScraped, SaysCompleted, JobHonest, JobQueue, AtHit, AtDone;
    var t := Apply(c, s, Advance(i, env));
    var copy, next := s.copies[i], StepOf(c, s, i, env);
    KnownMessage(c, s, i);
    AdvanceFrame(c, s, i, env);
    assert CopyHonest(s, copy);
    if !copy.msg.useCache {
      StepIsHonest(c, copy.msg, Attempt(copy), c.workers[copy.place.worker], copy.place.pc, RecordOf(s, copy.msg.job), env);
      if WasScraped(s, copy.msg.job) { StaysScraped(s, t, copy.msg.job); }
      if next.effect.Scraped? && next.effect.strategies != [] {
        NewlyScraped(s, t, copy.msg, copy.place.worker, next.effect);
      }
    }
    JobsStayHonest(s, t, copy.msg, copy.place.worker, next.effect);
    CopiesStayHonest(s, t, i);
    StraysStayHonest(s, t, |s.strays|);
  }

  lemma HonestStray(c: Config, s: State, z: nat, env: Env)
    requires Inv(c, s) && Honest(s) && Enabled(c, s, StrayStep(z, env))
    ensures Honest(Apply(c, s, StrayStep(z, env)))
  {
    hide HandlerStep, Apply, Inv, WasScraped, SaysCompleted, JobHonest, JobQueue, AtHit, AtDone;
    var t := Apply(c, s, StrayStep(z, env));
    var stray, next := s.strays[z], StrayNext(c, s, z, env);
    KnownStray(c, s, z);
    StrayFrame(c, s, z, env);
    assert StrayHonest(s, stray);
    if !stray.msg.useCache {
      StepIsHonest(c, stray.msg, stray.attempt, c.workers[stray.worker], stray.pc, RecordOf(s, stray.msg.job), env);
      if WasScraped(s, stray.msg.job) { StaysScraped(s, t, stray.msg.job); }
      if next.effect.Scraped? && next.effect.strategies != [] {
        NewlyScraped(s, t, stray.msg, stray.worker, next.effect);
      }
    }
    JobsStayHonest(s, t, stray.msg, stray.worker, next.effect);
    CopiesStayHonest(s, t, |s.copies|);
    StraysStayHonest(s, t, z);
  }

  /** Records, results, events and scrapes as before. */
  lemma SameTelling(s: State, t: State)
    requires Honest(s) && t.records == s.records && t.results == s.results && t.events == s.events && t.scrapes == s.scrapes
    requires forall j :: j in s.jobs ==> j in t.jobs && t.jobs[j] == s.jobs[j]
    ensures forall j :: JobHonest(t, j) && (SaysCompleted(t, j) ==> j in t.jobs)
  {
    hide WasScraped;
    forall j ensures JobHonest(t, j) && (SaysCompleted(t, j) ==> j in t.jobs) {
      assert JobHonest(s, j);
      assert SaysCompleted(t, j) ==> SaysCompleted(s, j);
      if WasScraped(s, j) { StaysScraped(s, t, j); }
    }
  }

  lemma HonestMove(c: Config, s: State, a: Action)
    requires Honest(s) && Enabled(c, s, a) && MovesCopy(a)
    ensures Honest(Apply(c, s, a))
  {
    hide HandlerStep, Apply, WasScraped, SaysCompleted, JobHonest, Attempt;
    var t := Apply(c, s, a);
    MoveFrame(c, s, a);
    SameTelling(s, t);
    assert CopyHonest(s, s.copies[a.i]);
    assert t.scrapes == s.scrapes && (WasScraped(s, s.copies[a.i].msg.job) ==> WasScraped(t, s.copies[a.i].msg.job)) by {
      if WasScraped(s, s.copies[a.i].msg.job) { StaysScraped(s, t, s.copies[a.i].msg.job); }
    }
    CopiesStayHonest(s, t, a.i);
    StraysStayHonest(s, t, |s.strays|);
  }

  lemma HonestAck(c: Config, s: State, i: nat, env: Env)
    requires Enabled(c, s, Advance(i, env)) && (s.copies[i].place.pc.Returned? || s.copies[i].place.pc.Sent?)
    requires Honest(s)
    ensures Honest(Apply(c, s, Advance(i, env)))
  {
    hide HandlerStep, Apply, WasScraped, SaysCompleted, JobHonest;
    var t := Apply(c, s, Advance(i, env));
    AckFrame(c, s, i, env);
    SameTelling(s, t);
    assert CopyHonest(s, s.copies[i]);
    if WasScraped(s, s.copies[i].msg.job) { StaysScraped(s, t, s.copies[i].msg.job); }
    CopiesStayHonest(s, t, i);
    StraysStayHonest(s, t, |s.strays|);
  }

  /** What the API writes about job j: never that it is completed, unless it may use the cache. */
  lemma ApiTellsTruth(s: State, t: State, j: JobId)
    requires Honest(s) && t.scrapes == s.scrapes && j in t.jobs
    requires forall i :: i in s.jobs ==> i in t.jobs && t.jobs[i] == s.jobs[i]
    requires forall i :: i != j ==> (i in t.records <==> i in s.records) && (i in s.records ==> t.records[i] == s.records[i])
    requires forall i :: i != j ==> (i in t.results <==> i in s.results) && (i in s.results ==> t.results[i] == s.results[i])
    requires s.events <= t.events && forall k :: |s.events| <= k < |t.events| ==> t.events[k].job == j
    requires SaysCompleted(t, j) ==> SaysCompleted(s, j) || t.jobs[j].useCache
    ensures forall i :: JobHonest(t, i) && (SaysCompleted(t, i) ==> i in t.jobs)
  {
    hide WasScraped;
    forall i ensures JobHonest(t, i) && (SaysCompleted(t, i) ==> i in t.jobs) {
      if SaysCompleted(t, i) && i != j {
        if k :| 0 <= k < |t.events| && t.events[k].job == i && t.events[k].name == JobCompleted {
          assert s.events[k] == t.events[k];
        }
        assert SaysCompleted(s, i);
      }
      assert JobHonest(s, i);
      if WasScraped(s, i) { StaysScraped(s, t, i); }
    }
  }

  lemma NothingNewSaid(s: State, t: State, j: JobId)
    requires s.events <= t.events && forall k :: |s.events| <= k < |t.events| ==> t.events[k].name != JobCompleted
    requires RecordOf(t, j) == Some(Completed) ==> RecordOf(s, j) == Some(Completed)
    requires j in t.results && t.results[j] == Completed ==> j in s.results && s.results[j] == Completed
    ensures SaysCompleted(t, j) ==> SaysCompleted(s, j)
  {
    if k :| 0 <= k < |t.events| && t.events[k].job == j && t.events[k].name == JobCompleted {
      assert s.events[k] == t.events[k];
    }
  }

  lemma HonestRecord(c: Config, s: State, a: Action)
    requires Honest(s) && Enabled(c, s, a) && (a.Record? || a.AnswerCached?)
    ensures Honest(Apply(c, s, a))
  {
    hide HandlerStep, Apply, WasScraped, SaysCompleted, JobHonest, AcceptableTarget, CopyHonest, StrayHonest, EventsFor;
    var t := Apply(c, s, a);
    ApiActs(c, s, a);
    if a.Record? {
      NothingNewSaid(s, t, a.m.job);
    } else {
      EventsOfJob(a.m, Completed);
    }
    ApiTellsTruth(s, t, a.m.job);
    OtherPartsHonest(s, t);
  }

  lemma EventsOfJob(m: Message, status: Status)
    ensures forall x :: x in EventsFor(m, status, FromApi) ==> x.job == m.job && (status == Cancelled ==> x.name == JobCancelled)
  {
  }

  /** Copies and strays are as before. */
  lemma OtherPartsHonest(s: State, t: State)
    requires Honest(s) && t.copies == s.copies && t.strays == s.strays && t.scrapes == s.scrapes
    ensures forall k :: 0 <= k < |t.copies| ==> CopyHonest(t, t.copies[k])
    ensures forall k :: 0 <= k < |t.strays| ==> StrayHonest(t, t.strays[k])
  {
    CopiesStayHonest(s, t, |s.copies|);
    StraysStayHonest(s, t, |s.strays|);
  }

  lemma HonestPublish(c: Config, s: State, a: Action)
    requires Honest(s) && Enabled(c, s, a) && (a.Publish? || a.CancelRead?)
    ensures Honest(Apply(c, s, a))
  {
    hide HandlerStep, Apply, WasScraped, SaysCompleted, JobHonest, JobQueue;
    var t := Apply(c, s, a);
    ApiActs(c, s, a);
    SameTelling(s, t);
    CopiesStayHonest(s, t, |s.copies|);
    StraysStayHonest(s, t, |s.strays|);
  }

  /** A cancel call concerns its own job and says nothing but cancelled. */
  lemma CancelTells(s: State, k: nat)
    requires k < |s.cancels| && s.cancels[k].job in s.jobs && s.jobs[s.cancels[k].job].job == s.cancels[k].job
    ensures var t, j := DoCancelStep(s, k), s.cancels[k].job;
      && t == s.(records := t.records, results := t.results, events := t.events, cancels := t.cancels)
      && (forall i :: i != j ==> (i in t.records <==> i in s.records) && (i in s.records ==> t.records[i] == s.records[i]))
      && (forall i :: i != j ==> (i in t.results <==> i in s.results) && (i in s.results ==> t.results[i] == s.results[i]))
      && s.events <= t.events
      && (forall n :: |s.events| <= n < |t.events| ==> t.events[n].job == j && t.events[n].name == JobCancelled)
      && (RecordOf(t, j) == Some(Completed) ==> RecordOf(s, j) == Some(Completed))
      && (j in t.results && t.results[j] == Completed ==> j in s.results && s.results[j] == Completed)
  {
    hide EventsFor;
    EventsOfJob(s.jobs[s.cancels[k].job], Cancelled);
  }

  lemma HonestCancel(c: Config, s: State, k: nat)
    requires Inv(c, s) && Honest(s) && Enabled(c, s, CancelStep(k))
    ensures Honest(Apply(c, s, CancelStep(k)))
  {
    hide HandlerStep, Apply, Inv, WasScraped, SaysCompleted, JobHonest, CopyHonest, StrayHonest, DoCancelStep;
    var t := Apply(c, s, CancelStep(k));
    var j := s.cancels[k].job;
    ApiActs(c, s, CancelStep(k));
    KnownJob(c, s, j);
    CancelTells(s, k);
    NothingNewSaid(s, t, j);
    ApiTellsTruth(s, t, j);
    OtherPartsHonest(s, t);
  }

  lemma KnownJob(c: Config, s: State, j: JobId)
    requires Inv(c, s) && j in s.jobs
    ensures s.jobs[j].job == j
  {
  }

  lemma HonestStep(c: Config, s: State, a: Action)
    requires Inv(c, s) && Honest(s)
    ensures Honest(Apply(c, s, a))
  {
    hide HandlerStep, Apply, Inv, Honest;
    if !Enabled(c, s, a) {
      CancelCallFrame(c, s, a);
    } else if a.Advance? {
      var pc := s.copies[a.i].place.pc;
      if pc.Returned? || pc.Sent? { HonestAck(c, s, a.i, a.env); } else { HonestAdvance(c, s, a.i, a.env); }
    } else if a.StrayStep? {
      HonestStray(c, s, a.z, a.env);
    } else if MovesCopy(a) {
      HonestMove(c, s, a);
    } else if a.CancelStep? {
      HonestCancel(c, s, a.k);
    } else if a.Record? || a.AnswerCached? {
      HonestRecord(c, s, a);
    } else {
      HonestPublish(c, s, a);
    }
  }

  lemma {:induction false} HonestRun(c: Config, s: State, acts: seq<Action>)
    requires ValidConfig(c) && Inv(c, s) && Honest(s)
    ensures Inv(c, Run(c, s, acts)) && Honest(Run(c, s, acts))
    decreases |acts|
  {
    hide Apply, Inv, Honest;
    if acts != [] {
      HonestStep(c, s, acts[0]);
      InvStep(c, s, acts[0]);
      HonestRun(c, Apply(c, s, acts[0]), acts[1..]);
    }
  }

  // ---------------------------------------------------------------------------
  // Main results
  // ---------------------------------------------------------------------------

  /** In every run, a job that may not use the cache is said to be completed, by its record,
      its result or an event, only after a strategy was executed for it. */
  lemma CompletedOnlyByScrape(c: Config, acts: seq<Action>, j: JobId)
    requires ValidConfig(c) && j in Run(c, INIT, acts).jobs && !Run(c, INIT, acts).jobs[j].useCache
    ensures SaysCompleted(Run(c, INIT, acts), j) ==> WasScraped(Run(c, INIT, acts), j)
  {
    InvInit(c);
    HonestRun(c, INIT, acts);
    assert JobHonest(Run(c, INIT, acts), j);
  }

  /** No handler of such a job, not even an abandoned one, ever stands at the steps that
      answer from the cache, and where it returns as completed the job was scraped. */
  lemma NeverFromCache(c: Config, acts: seq<Action>)
    requires ValidConfig(c)
    ensures var s := Run(c, INIT, acts);
      && (forall i :: 0 <= i < |s.copies| && !s.copies[i].msg.useCache ==>
            !Hits(s.copies[i].place) && (HasCompleted(s.copies[i].place) ==> WasScraped(s, s.copies[i].msg.job)))
      && (forall z :: 0 <= z < |s.strays| && !s.strays[z].msg.useCache ==>
            !AtHit(s.strays[z].pc) && (AtDone(s.strays[z].pc) ==> WasScraped(s, s.strays[z].msg.job)))
  {
    hide Run, Inv, WasScraped;
    InvInit(c);
    HonestRun(c, INIT, acts);
    var s := Run(c, INIT, acts);
    forall i | 0 <= i < |s.copies| ensures CopyHonest(s, s.copies[i]) {}
    forall z | 0 <= z < |s.strays| ensures StrayHonest(s, s.strays[z]) {}
  }
}
