/** The worker's message handler and the API's cancel call as the sequential code they are,
    each await an opportunity for everybody else to act. Every statement is shown to be the
    protocol step that is due, so whatever holds for all runs holds for this code. */
module QueueConsumer {
  import opened Common
  import opened QueueNames
  import opened Delivery
  import DeliverySafety
  import C = DeliveryCalls
  import L = ScrapeLoop

  /** Actions that leave the handler of copy i alone. */
  predicate NotMine(i: nat, a: Action) {
    match a
    case Advance(k, _) => k != i
    case Requeue(k) => k != i
    case Fault(k) => k != i
    case Watchdog(k) => k != i
    case _ => true
  }

  /** The handler's own steps: a step of its code and, unless its awaits are all calm, a throw
      inside the process call and the watchdog. */
  predicate OfThisCall(i: nat, env: Env, calm: bool, a: Action) {
    a == Advance(i, env) || (!calm && (a == Fault(i) || a == Watchdog(i)))
  }

  predicate Others(i: nat, acts: seq<Action>) {
    forall k :: 0 <= k < |acts| ==> NotMine(i, acts[k])
  }

  lemma {:induction false} OthersKeepCopy(c: Config, s: State, acts: seq<Action>, i: nat)
    requires HeldAt(s, i) && Others(i, acts)
    ensures var t := Run(c, s, acts);
      i < |t.copies| && t.copies[i] == s.copies[i]
    decreases |acts|
  {
    if acts != [] {
      OtherKeepsCopy(c, s, acts[0], i);
      OthersKeepCopy(c, Apply(c, s, acts[0]), acts[1..], i);
    }
  }

  lemma OtherKeepsCopy(c: Config, s: State, a: Action, i: nat)
    requires HeldAt(s, i) && NotMine(i, a)
    ensures var t := Apply(c, s, a);
      i < |t.copies| && t.copies[i] == s.copies[i]
  {
    hide HandlerStep, Apply;
    if !Enabled(c, s, a) {
      DeliverySafety.CancelCallFrame(c, s, a);
    } else if a.Advance? {
      AdvanceKeepsCopy(c, s, a.i, a.env, i);
    } else if DeliverySafety.MovesCopy(a) {
      DeliverySafety.MoveFrame(c, s, a);
    } else if a.Publish? {
      DeliverySafety.ApiActs(c, s, a);
    } else {
      DeliverySafety.OtherActionsKeepCopies(c, s, a);
    }
  }

  lemma AdvanceKeepsCopy(c: Config, s: State, k: nat, env: Env, i: nat)
    requires Enabled(c, s, Advance(k, env)) && i < |s.copies| && k != i
    ensures var t := Apply(c, s, Advance(k, env));
      i < |t.copies| && t.copies[i] == s.copies[i]
  {
    hide HandlerStep, Apply;
    var pc := s.copies[k].place.pc;
    if pc.Returned? || pc.Sent? { DeliverySafety.AckFrame(c, s, k, env); } else { DeliverySafety.AdvanceFrame(c, s, k, env); }
  }

  predicate NotMyCancel(k: nat, a: Action) {
    a.CancelStep? ==> a.k != k
  }

  lemma {:induction false} OthersKeepCancel(c: Config, s: State, acts: seq<Action>, k: nat)
    requires k < |s.cancels| && forall n :: 0 <= n < |acts| ==> NotMyCancel(k, acts[n])
    ensures var t := Run(c, s, acts);
      k < |t.cancels| && t.cancels[k] == s.cancels[k]
      && (s.cancels[k].job in s.jobs ==> s.cancels[k].job in t.jobs)
    decreases |acts|
  {
    if acts != [] {
      OtherKeepsCancel(c, s, acts[0], k);
      OthersKeepCancel(c, Apply(c, s, acts[0]), acts[1..], k);
    }
  }

  lemma OtherKeepsCancel(c: Config, s: State, a: Action, k: nat)
    requires k < |s.cancels| && NotMyCancel(k, a)
    ensures var t := Apply(c, s, a);
      k < |t.cancels| && t.cancels[k] == s.cancels[k] && s.jobs.Keys <= t.jobs.Keys
  {
    hide HandlerStep, Apply;
    DeliverySafety.Grows(c, s, a);
    if !Enabled(c, s, a) {
      DeliverySafety.CancelCallFrame(c, s, a);
    } else if a.Advance? {
      var pc := s.copies[a.i].place.pc;
      if pc.Returned? || pc.Sent? {
        DeliverySafety.AckFrame(c, s, a.i, a.env);
      } else {
        DeliverySafety.AdvanceFrame(c, s, a.i, a.env);
      }
    } else if a.StrayStep? {
      DeliverySafety.StrayFrame(c, s, a.z, a.env);
    } else if DeliverySafety.MovesCopy(a) {
      DeliverySafety.MoveFrame(c, s, a);
    } else {
      DeliverySafety.ApiActs(c, s, a);
    }
  }

  /** Only the API call that recorded a job publishes it. */
  lemma {:induction false} PendingStays(c: Config, s: State, acts: seq<Action>, j: JobId)
    requires j in s.pending && j in s.jobs
    requires forall k :: 0 <= k < |acts| ==> acts[k] != Publish(j)
    ensures var t := Run(c, s, acts);
      j in t.pending && j in t.jobs
    decreases |acts|
  {
    if acts != [] {
      if acts[0].Record? || acts[0].AnswerCached? || acts[0].Publish? {
        DeliverySafety.ApiFrame(c, s, acts[0]);
      } else {
        DeliverySafety.WorkerFrame(c, s, acts[0]);
      }
      PendingStays(c, Apply(c, s, acts[0]), acts[1..], j);
    }
  }

  lemma RunOne(c: Config, acts: seq<Action>, a: Action)
    ensures Run(c, INIT, acts + [a]) == Apply(c, Run(c, INIT, acts), a)
  {
    RunAppend(c, INIT, acts, [a]);
    RunSingle(c, Run(c, INIT, acts), a);
  }

  lemma RunSingle(c: Config, s: State, a: Action)
    ensures Run(c, s, [a]) == Apply(c, s, a)
  {
    assert [a][1..] == [];
  }

  /** A handler step is its effect together with the move to the next step. */
  lemma StepDone(c: Config, s: State, i: nat, env: Env, next: Pc, effect: Effect)
    requires HeldAt(s, i) && s.copies[i].place.worker in c.workers
    requires !s.copies[i].place.pc.Returned? && !s.copies[i].place.pc.Sent?
    requires StepOf(c, s, i, env) == Next(next, effect)
    ensures var copy := s.copies[i];
      var done := Perform(MoveTo(s, i, copy.place.(pc := next)), copy.msg, copy.place.worker, effect);
      Apply(c, s, Advance(i, env)) == if next.Returned? then done.(settled := done.settled + {copy.msg.job}) else done
  {
  }

  /** How an await ends: as it should, with an exception, or with the watchdog's. */
  datatype Trouble = Calm | Throws | Expires

  /** An await: what others do meanwhile, and how it ends. */
  datatype Wait = Wait(acts: seq<Action>, trouble: Trouble)

  /** What a call found when it started, and what its awaits are like: whether none of them
      ends in trouble, and whether nobody else acts during them. */
  datatype Origin = Origin(history: seq<Action>, calm: bool, alone: bool)

  ghost predicate AllCalm(waits: nat -> Wait) {
    forall n :: waits(n).trouble == Calm
  }

  ghost predicate AllAlone(waits: nat -> Wait) {
    forall n :: waits(n).acts == []
  }

  predicate Fits(start: Origin, i: nat, wait: Wait) {
    && Others(i, wait.acts)
    && (start.calm ==> wait.trouble == Calm)
    && (start.alone ==> wait.acts == [])
  }

  /** What one call of the handler knows: its copy, the message, the attempt and the worker. */
  datatype Call = Call(i: nat, m: Message, attempt: nat, worker: string, env: Env)

  ghost predicate AtStep(s: State, call: Call, pc: Pc) {
    && call.i < |s.copies| && s.copies[call.i].msg == call.m && Attempt(s.copies[call.i]) == call.attempt
    && s.copies[call.i].place.Held? && s.copies[call.i].place.worker == call.worker && s.copies[call.i].place.pc == pc
  }

  /** The strategy loop's outcome is the one the protocol step uses. */
  lemma StrategiesDue(c: Config, call: Call, out: L.Outcome, next: Pc)
    requires call.worker in c.workers
    requires var w := c.workers[call.worker];
      L.Meets(L.ResolvePlan(call.m.strategy, w.defaultStrategy, w.allowed), call.m.maxRetries, call.m.retryDelayMs, call.env.rounds, out)
    requires next == if out.verdict != L.Completed then FailStatus
      else if call.m.strategy == Fixed(Playwright) && call.env.httpFallback then Catch(c, call.attempt)
      else DoneStatus
    ensures HandlerStep(c, call.m, call.attempt, c.workers[call.worker], Execute, None, call.env) == Next(next, Scraped(out.executed))
  {
    var w := c.workers[call.worker];
    var plan := L.ResolvePlan(call.m.strategy, w.defaultStrategy, w.allowed);
    L.MeetsUnique(plan, call.m.maxRetries, call.m.retryDelayMs, call.env.rounds, out,
                  L.Scrape(plan, call.m.maxRetries, call.m.retryDelayMs, call.env.rounds));
  }

  /** Broker, record store and webhook queue, as shared by the API and all workers. */
  class Platform {
    const c: Config
    var copies: seq<Copy>
    var deadLetter: map<string, string>
    var jobs: map<JobId, Message>
    var pending: set<JobId>
    var published: set<JobId>
    var records: map<JobId, Status>
    var results: map<JobId, Status>
    var events: seq<Event>
    var cancels: seq<CancelCall>
    var strays: seq<Stray>
    var scrapes: seq<Scrape>
    var settled: set<JobId>
    ghost var history: seq<Action>

    function View(): State
      reads this
    {
      State(copies, deadLetter, jobs, pending, published, records, results, events, cancels, strays, scrapes, settled)
    }

    /** The platform got here by protocol actions alone. */
    ghost predicate Valid()
      reads this
    {
      View() == Run(c, INIT, history)
    }

    constructor (c: Config)
      ensures Valid() && this.c == c && history == [] && View() == INIT
    {
      this.c := c;
      copies, deadLetter, jobs, pending, published := [], map[], map[], {}, {};
      records, results, events, cancels, strays, scrapes, settled := map[], map[], [], [], [], [], {};
      history := [];
    }

    /** Extends the history by one action that has just been carried out. */
    ghost method Log(was: State, a: Action)
      requires was == Run(c, INIT, history) && View() == Apply(c, was, a)
      modifies `history
      ensures Valid() && history == old(history) + [a]
    {
      RunOne(c, history, a);
      history := history + [a];
    }

    method Load(s: State)
      modifies this
      ensures View() == s && history == old(history)
    {
      LoadBroker(s);
      LoadStore(s);
    }

    method LoadBroker(s: State)
      modifies `copies, `deadLetter, `pending, `published, `settled, `scrapes
      ensures copies == s.copies && deadLetter == s.deadLetter && pending == s.pending && published == s.published
      ensures settled == s.settled && scrapes == s.scrapes
    {
      copies := s.copies;
      deadLetter := s.deadLetter;
      pending := s.pending;
      published := s.published;
      settled := s.settled;
      scrapes := s.scrapes;
    }

    method LoadStore(s: State)
      modifies `jobs, `records, `results, `events, `cancels, `strays
      ensures jobs == s.jobs && records == s.records && results == s.results
      ensures events == s.events && cancels == s.cancels && strays == s.strays
    {
      jobs := s.jobs;
      records := s.records;
      results := s.results;
      events := s.events;
      cancels := s.cancels;
      strays := s.strays;
    }

    /** An await: others act. */
    method Await(acts: seq<Action>)
      requires Valid()
      modifies this
      ensures Valid() && history == old(history) + acts && View() == Run(c, old(View()), acts)
    {
      var s := Run(c, View(), acts);
      Load(s);
      RunAppend(c, INIT, history, acts);
      history := history + acts;
    }

    // -------------------------------------------------------------------------
    // Primitives of the handler: one effect each, then an await
    // -------------------------------------------------------------------------

    /** Since the call started, the history grew by its own steps and by actions of others. */
    ghost predicate Since(start: Origin, i: nat, env: Env)
      reads this
    {
      && |start.history| <= |history| && history[..|start.history|] == start.history
      && forall k :: |start.history| <= k < |history| ==>
        OfThisCall(i, env, start.calm, history[k]) || (!start.alone && NotMine(i, history[k]))
    }

    /** The call still holds its copy and stands at step pc. */
    ghost predicate Handling(call: Call, pc: Pc, start: Origin)
      reads this
    {
      && Valid() && Since(start, call.i, call.env) && call.worker in c.workers
      && call.i < |copies| && copies[call.i].msg == call.m && Attempt(copies[call.i]) == call.attempt
      && copies[call.i].place.Held? && copies[call.i].place.worker == call.worker && copies[call.i].place.pc == pc
    }

    /** The step that is due at pc does exactly this and leads to next. */
    predicate Due(call: Call, pc: Pc, next: Pc, effect: Effect)
      requires call.worker in c.workers
    {
      && pc != ReadRecord && !pc.Returned? && !pc.Sent?
      && HandlerStep(c, call.m, call.attempt, c.workers[call.worker], pc, None, call.env) == Next(next, effect)
    }

    /** The steps that leave no choice: of a skipped or a failed job, */
    lemma SkipAndFailSteps(call: Call, pc: Pc, start: Origin)
      requires Handling(call, pc, start)
      ensures call.worker in c.workers
      ensures Due(call, SkipResult, SkipEvent, SaveResult(Cancelled))
      ensures Due(call, SkipEvent, Returned(Cancelled), Emit(Cancelled))
      ensures Due(call, FailStatus, FailResult, SetStatus(Failed))
      ensures Due(call, FailResult, Catch(c, call.attempt), SaveResult(Failed))
    {
    }

    /** of a completed job, */
    lemma CompletedSteps(call: Call, pc: Pc, start: Origin)
      requires Handling(call, pc, start)
      ensures call.worker in c.workers
      ensures Due(call, HitStatus, HitResult, SetStatus(Completed)) && Due(call, HitResult, HitEvent, SaveResult(Completed))
      ensures Due(call, HitEvent, MarkIdle, Emit(Completed)) && Due(call, MarkIdle, Returned(Completed), Nothing)
      ensures Due(call, DoneStatus, DoneResult, SetStatus(Completed)) && Due(call, DoneResult, DoneEvent, SaveResult(Completed))
      ensures Due(call, DoneEvent, StoreCache, Emit(Completed)) && Due(call, StoreCache, MarkIdle, Nothing)
    {
      hide JobQueue, ExecuteStep, StrategyAllowed, Valid, Since, View;
    }

    /** and of the catch block. */
    lemma CatchSteps(call: Call, pc: Pc, start: Origin)
      requires Handling(call, pc, start)
      ensures call.worker in c.workers
      ensures Due(call, QueuedStatus, SendRetry, SetStatus(Queued))
      ensures Due(call, SendRetry, Sent, Send(JobQueue(c, call.m, Retry), call.attempt + 1))
      ensures Due(call, DeadStatus, DeadResult, SetStatus(Failed)) && Due(call, DeadResult, DeadEvent, SaveResult(Failed))
      ensures Due(call, DeadEvent, SendDead, Emit(Failed))
      ensures Due(call, SendDead, Sent, Send(JobQueue(c, call.m, DeadLetter), call.attempt))
    {
      hide JobQueue, ExecuteStep, StrategyAllowed, Valid, Since, View;
    }

    method Goto(call: Call, next: Pc)
      requires HeldAt(View(), call.i)
      modifies `copies, `settled
      ensures copies == old(copies)[call.i := old(copies)[call.i].(place := old(copies)[call.i].place.(pc := next))]
      ensures settled == if next.Returned? then old(settled) + {old(copies)[call.i].msg.job} else old(settled)
    {
      if next.Returned? { settled := settled + {copies[call.i].msg.job}; }
      copies := copies[call.i := copies[call.i].(place := copies[call.i].place.(pc := next))];
    }

    /** Logs a finished step of the call. */
    ghost method Stepped(call: Call, was: State, pc: Pc, next: Pc, effect: Effect, start: Origin)
      requires was == Run(c, INIT, history) && Since(start, call.i, call.env) && call.worker in c.workers
      requires AtStep(was, call, pc) && AtStep(View(), call, next) && Due(call, pc, next, effect)
      requires var moved := MoveTo(was, call.i, was.copies[call.i].place.(pc := next));
        var done := Perform(moved, call.m, call.worker, effect);
        View() == if next.Returned? then done.(settled := done.settled + {call.m.job}) else done
      modifies `history
      ensures Handling(call, next, start)
    {
      C.RecordIrrelevant(c, call.m, call.attempt, c.workers[call.worker], pc, RecordOf(was, call.m.job), call.env);
      StepDone(c, was, call.i, call.env, next, effect);
      Log(was, Advance(call.i, call.env));
    }

    /** Inside the process call an await can end in the catch block: because it throws, or
        because the watchdog expires; then the process call goes on as a stray. */
    method Pause(call: Call, wait: Wait, ghost pc: Pc, ghost start: Origin) returns (failed: bool)
      requires Handling(call, pc, start) && Fits(start, call.i, wait)
      modifies this
      ensures failed == (InProcess(pc) && wait.trouble != Calm)
      ensures Handling(call, if failed then Catch(c, call.attempt) else pc, start)
    {
      OthersKeepCopy(c, View(), wait.acts, call.i);
      Await(wait.acts);
      failed := InProcess(copies[call.i].place.pc) && wait.trouble != Calm;
      if failed {
        Interrupt(call, wait.trouble == Expires, pc, start);
      }
    }

    method Interrupt(call: Call, expired: bool, ghost pc: Pc, ghost start: Origin)
      requires Handling(call, pc, start) && InProcess(pc) && !start.calm
      modifies this
      ensures Handling(call, Catch(c, call.attempt), start)
    {
      hide HandlerStep, Run, Apply, Catch;
      ghost var was := View();
      var copy := copies[call.i];
      if expired {
        strays := strays + [Stray(copy.msg, copy.place.worker, Attempt(copy), copy.place.pc)];
      }
      copies := copies[call.i := copy.(place := copy.place.(pc := Catch(c, Attempt(copy))))];
      Interrupted(call, was, expired);
      Log(was, if expired then Watchdog(call.i) else Fault(call.i));
    }

    lemma Interrupted(call: Call, was: State, expired: bool)
      requires Running(was, call.i)
      requires View() == if expired then DoWatchdog(c, was, call.i) else DoThrow(c, was, call.i)
      ensures View() == Apply(c, was, if expired then Watchdog(call.i) else Fault(call.i))
    {
      hide HandlerStep, Apply, Catch;
      DeliverySafety.MoveFrame(c, was, if expired then Watchdog(call.i) else Fault(call.i));
    }

    method ReadJobRecord(call: Call, wait: Wait, ghost start: Origin) returns (cancelled: bool, failed: bool)
      requires Handling(call, ReadRecord, start) && Fits(start, call.i, wait)
      modifies this
      ensures Handling(call, if failed then Catch(c, call.attempt) else if cancelled then SkipResult else MarkProcessing, start)
    {
      hide Run, Apply;
      ghost var was := View();
      cancelled := call.m.job in records && records[call.m.job] == Cancelled;
      var next := if cancelled then SkipResult else MarkProcessing;
      Goto(call, next);
      StepDone(c, was, call.i, call.env, next, Nothing);
      Log(was, Advance(call.i, call.env));
      failed := Pause(call, wait, next, start);
    }

    /** A step without effect on the stores: the cache and the heartbeat are not modelled here. */
    method Continue(call: Call, next: Pc, wait: Wait, ghost pc: Pc, ghost start: Origin) returns (failed: bool)
      requires Handling(call, pc, start) && Due(call, pc, next, Nothing) && Fits(start, call.i, wait)
      modifies this
      ensures failed == (InProcess(next) && wait.trouble != Calm)
      ensures Handling(call, if failed then Catch(c, call.attempt) else next, start)
    {
      hide HandlerStep, Run;
      ghost var was := View();
      Goto(call, next);
      Stepped(call, was, pc, next, Nothing, start);
      failed := Pause(call, wait, next, start);
    }

    /** A status update of a record that does not exist is skipped. */
    method SetRecord(j: JobId, status: Status)
      modifies `records
      ensures records == if j in old(records) then old(records)[j := status] else old(records)
    {
      if j in records { records := records[j := status]; }
    }

    method UpdateStatus(call: Call, status: Status, next: Pc, wait: Wait, ghost pc: Pc, ghost start: Origin)
      returns (failed: bool)
      requires Handling(call, pc, start) && Due(call, pc, next, SetStatus(status)) && Fits(start, call.i, wait)
      modifies this
      ensures failed == (InProcess(next) && wait.trouble != Calm)
      ensures Handling(call, if failed then Catch(c, call.attempt) else next, start)
    {
      hide HandlerStep, Run;
      ghost var was := View();
      SetRecord(call.m.job, status);
      Goto(call, next);
      Stepped(call, was, pc, next, SetStatus(status), start);
      failed := Pause(call, wait, next, start);
    }

    method SaveJobResult(call: Call, status: Status, next: Pc, wait: Wait, ghost pc: Pc, ghost start: Origin)
      returns (failed: bool)
      requires Handling(call, pc, start) && Due(call, pc, next, SaveResult(status)) && Fits(start, call.i, wait)
      modifies this
      ensures failed == (InProcess(next) && wait.trouble != Calm)
      ensures Handling(call, if failed then Catch(c, call.attempt) else next, start)
    {
      hide HandlerStep, Run;
      ghost var was := View();
      results := results[call.m.job := status];
      Goto(call, next);
      Stepped(call, was, pc, next, SaveResult(status), start);
      failed := Pause(call, wait, next, start);
    }

    /** Sends a webhook event if the job has a webhook. */
    method EnqueueFromResult(call: Call, status: Status, next: Pc, wait: Wait, ghost pc: Pc, ghost start: Origin)
      returns (failed: bool)
      requires Handling(call, pc, start) && Due(call, pc, next, Emit(status)) && Fits(start, call.i, wait)
      modifies this
      ensures failed == (InProcess(next) && wait.trouble != Calm)
      ensures Handling(call, if failed then Catch(c, call.attempt) else next, start)
    {
      hide HandlerStep, Run;
      ghost var was := View();
      events := events + EventsFor(call.m, status, FromWorker);
      Goto(call, next);
      Stepped(call, was, pc, next, Emit(status), start);
      failed := Pause(call, wait, next, start);
    }

    method LogScrapes(call: Call, executed: seq<Routing>, next: Pc, wait: Wait, ghost start: Origin)
      returns (failed: bool)
      requires Handling(call, Execute, start) && Due(call, Execute, next, Scraped(executed)) && Fits(start, call.i, wait)
      modifies this
      ensures failed == (InProcess(next) && wait.trouble != Calm)
      ensures Handling(call, if failed then Catch(c, call.attempt) else next, start)
    {
      hide HandlerStep, Run, Apply, Due;
      AddScrapes(call, executed, next, start);
      failed := Pause(call, wait, next, start);
    }

    method AddScrapes(call: Call, executed: seq<Routing>, next: Pc, ghost start: Origin)
      requires Handling(call, Execute, start) && Due(call, Execute, next, Scraped(executed))
      modifies this
      ensures Handling(call, next, start)
    {
      hide HandlerStep, Run, Apply, Due;
      ghost var was := View();
      scrapes := scrapes + ScrapeLog(call.m, call.worker, executed);
      Goto(call, next);
      Stepped(call, was, Execute, next, Scraped(executed), start);
    }

    method SendToQueue(call: Call, queue: string, attempt: nat, wait: Wait, ghost pc: Pc, ghost start: Origin)
      requires Handling(call, pc, start) && Due(call, pc, Sent, Send(queue, attempt)) && Fits(start, call.i, wait)
      modifies this
      ensures Handling(call, Sent, start)
    {
      hide HandlerStep, Run, Apply, Due;
      AddCopy(call, queue, attempt, pc, start);
      var failed := Pause(call, wait, Sent, start);
    }

    method AddCopy(call: Call, queue: string, attempt: nat, ghost pc: Pc, ghost start: Origin)
      requires Handling(call, pc, start) && Due(call, pc, Sent, Send(queue, attempt))
      modifies this
      ensures Handling(call, Sent, start)
    {
      hide HandlerStep, Run, Apply, Due;
      ghost var was := View();
      Goto(call, Sent);
      copies := copies + [NewCopy(call.m, Some(attempt), queue)];
      Stepped(call, was, pc, Sent, Send(queue, attempt), start);
    }

    method Ack(call: Call, ghost pc: Pc, ghost start: Origin)
      requires Handling(call, pc, start) && (pc.Returned? || pc.Sent?)
      modifies this
      ensures Valid() && Since(start, call.i, call.env)
      ensures call.i < |copies| && copies[call.i].msg == call.m
      ensures copies[call.i].place == Acked(if pc.Returned? then Settled(pc.status) else HandedOver)
    {
      hide HandlerStep, Apply, Run;
      ghost var was := View();
      var here := copies[call.i].place.pc;
      var how := if here.Returned? then Settled(here.status) else HandedOver;
      copies := copies[call.i := copies[call.i].(place := Acked(how))];
      DeliverySafety.AckFrame(c, was, call.i, call.env);
      Log(was, Advance(call.i, call.env));
    }

    // -------------------------------------------------------------------------
    // The handler
    // -------------------------------------------------------------------------

    /** The process call, raced against the watchdog. The result says how the race ended:
        Returned(status), or the first step of the catch block. waits(n) is the n-th await. */
    method Process(call: Call, waits: nat -> Wait, ghost start: Origin) returns (end: Pc)
      requires Handling(call, ReadRecord, start)
      requires forall n :: Fits(start, call.i, waits(n))
      modifies this
      ensures Handling(call, end, start)
      ensures end.Returned? || end == Catch(c, call.attempt)
    {
      hide Run;
      var failed := Pause(call, waits(0), ReadRecord, start);
      if failed { return Catch(c, call.attempt); }
      var cancelled;
      cancelled, failed := ReadJobRecord(call, waits(1), start);
      if failed { return Catch(c, call.attempt); }
      if cancelled {
        end := Skip(call, waits, start);
        return;
      }
      if !StrategyAllowed(call.m.strategy, c.workers[call.worker].allowed) {
        failed := UpdateStatus(call, Processing, Catch(c, call.attempt), waits(4), MarkProcessing, start);
        return Catch(c, call.attempt);
      }
      failed := UpdateStatus(call, Processing, LookupCache, waits(5), MarkProcessing, start);
      if failed { return Catch(c, call.attempt); }
      end := AnswerOrScrape(call, waits, start);
    }

    method Skip(call: Call, waits: nat -> Wait, ghost start: Origin) returns (end: Pc)
      requires Handling(call, SkipResult, start)
      requires forall n :: Fits(start, call.i, waits(n))
      modifies this
      ensures Handling(call, end, start)
      ensures end == Returned(Cancelled) || end == Catch(c, call.attempt)
    {
      hide HandlerStep, Due, Run, Handling, Fits, Valid, View;
      SkipAndFailSteps(call, SkipResult, start);
      var failed := SaveJobResult(call, Cancelled, SkipEvent, waits(2), SkipResult, start);
      if failed { return Catch(c, call.attempt); }
      failed := EnqueueFromResult(call, Cancelled, Returned(Cancelled), waits(3), SkipEvent, start);
      return Returned(Cancelled);
    }

    method AnswerOrScrape(call: Call, waits: nat -> Wait, ghost start: Origin) returns (end: Pc)
      requires Handling(call, LookupCache, start)
      requires forall n :: Fits(start, call.i, waits(n))
      modifies this
      ensures Handling(call, end, start)
      ensures end == Returned(Completed) || end == Catch(c, call.attempt)
    {
      hide Run;
      if call.m.useCache && call.env.cacheHit {
        var failed := Continue(call, HitStatus, waits(6), LookupCache, start);
        if failed { return Catch(c, call.attempt); }
        end := AnswerFromCache(call, waits, start);
      } else {
        var failed := Continue(call, Execute, waits(7), LookupCache, start);
        if failed { return Catch(c, call.attempt); }
        end := ScrapeAndStore(call, waits, start);
      }
    }

    method AnswerFromCache(call: Call, waits: nat -> Wait, ghost start: Origin) returns (end: Pc)
      requires Handling(call, HitStatus, start)
      requires forall n :: Fits(start, call.i, waits(n))
      modifies this
      ensures Handling(call, end, start)
      ensures end == Returned(Completed) || end == Catch(c, call.attempt)
    {
      hide HandlerStep, Due, Run, Handling, Fits, Valid, View;
      CompletedSteps(call, HitStatus, start);
      var failed := UpdateStatus(call, Completed, HitResult, waits(8), HitStatus, start);
      if failed { return Catch(c, call.attempt); }
      failed := SaveJobResult(call, Completed, HitEvent, waits(9), HitResult, start);
      if failed { return Catch(c, call.attempt); }
      failed := EnqueueFromResult(call, Completed, MarkIdle, waits(10), HitEvent, start);
      if failed { return Catch(c, call.attempt); }
      end := Finish(call, waits, start);
    }

    /** The last step of a completed job: the worker's heartbeat. */
    method Finish(call: Call, waits: nat -> Wait, ghost start: Origin) returns (end: Pc)
      requires Handling(call, MarkIdle, start)
      requires forall n :: Fits(start, call.i, waits(n))
      modifies this
      ensures Handling(call, end, start) && end == Returned(Completed)
    {
      hide HandlerStep, Due, Run, Handling, Fits, Valid, View;
      CompletedSteps(call, MarkIdle, start);
      var failed := Continue(call, Returned(Completed), waits(18), MarkIdle, start);
      return Returned(Completed);
    }

    method ScrapeAndStore(call: Call, waits: nat -> Wait, ghost start: Origin) returns (end: Pc)
      requires Handling(call, Execute, start)
      requires forall n :: Fits(start, call.i, waits(n))
      modifies this
      ensures Handling(call, end, start)
      ensures end == Returned(Completed) || end == Catch(c, call.attempt)
    {
      hide Run;
      var w := c.workers[call.worker];
      var out := L.Execute(call.m.strategy, w.defaultStrategy, w.allowed, call.m.maxRetries, call.m.retryDelayMs, call.env.rounds);
      var next;
      if out.verdict != L.Completed {
        next := FailStatus;
      } else if call.m.strategy == Fixed(Playwright) && call.env.httpFallback {
        next := Catch(c, call.attempt);
      } else {
        next := DoneStatus;
      }
      StrategiesDue(c, call, out, next);
      var failed := LogScrapes(call, out.executed, next, waits(11), start);
      if failed { return Catch(c, call.attempt); }
      if out.verdict != L.Completed {
        end := StoreFailure(call, waits, start);
      } else if next == DoneStatus {
        end := StoreSuccess(call, waits, start);
      } else {
        end := next;
      }
    }

    method StoreFailure(call: Call, waits: nat -> Wait, ghost start: Origin) returns (end: Pc)
      requires Handling(call, FailStatus, start)
      requires forall n :: Fits(start, call.i, waits(n))
      modifies this
      ensures Handling(call, end, start) && end == Catch(c, call.attempt)
    {
      hide HandlerStep, Due, Run, Handling, Fits, Valid, View;
      SkipAndFailSteps(call, FailStatus, start);
      var failed := UpdateStatus(call, Failed, FailResult, waits(12), FailStatus, start);
      if failed { return Catch(c, call.attempt); }
      failed := SaveJobResult(call, Failed, Catch(c, call.attempt), waits(13), FailResult, start);
      return Catch(c, call.attempt);
    }

    method StoreSuccess(call: Call, waits: nat -> Wait, ghost start: Origin) returns (end: Pc)
      requires Handling(call, DoneStatus, start)
      requires forall n :: Fits(start, call.i, waits(n))
      modifies this
      ensures Handling(call, end, start)
      ensures end == Returned(Completed) || end == Catch(c, call.attempt)
    {
      hide HandlerStep, Due, Run, Handling, Fits, Valid, View;
      CompletedSteps(call, DoneStatus, start);
      var failed := UpdateStatus(call, Completed, DoneResult, waits(14), DoneStatus, start);
      if failed { return Catch(c, call.attempt); }
      failed := SaveJobResult(call, Completed, DoneEvent, waits(15), DoneResult, start);
      if failed { return Catch(c, call.attempt); }
      end := AnnounceSuccess(call, waits, start);
    }

    method AnnounceSuccess(call: Call, waits: nat -> Wait, ghost start: Origin) returns (end: Pc)
      requires Handling(call, DoneEvent, start)
      requires forall n :: Fits(start, call.i, waits(n))
      modifies this
      ensures Handling(call, end, start)
      ensures end == Returned(Completed) || end == Catch(c, call.attempt)
    {
      hide HandlerStep, Due, Run, Handling, Fits, Valid, View;
      CompletedSteps(call, DoneEvent, start);
      var failed := EnqueueFromResult(call, Completed, StoreCache, waits(16), DoneEvent, start);
      if failed { return Catch(c, call.attempt); }
      failed := Continue(call, MarkIdle, waits(17), StoreCache, start);
      if failed { return Catch(c, call.attempt); }
      end := Finish(call, waits, start);
    }

    /** The call has left the process call and stands somewhere in the catch block. */
    ghost predicate InCatch(call: Call, start: Origin)
      reads this
    {
      call.i < |copies| && copies[call.i].place.Held? && !InProcess(copies[call.i].place.pc)
      && Handling(call, copies[call.i].place.pc, start)
    }

    lemma StandsInCatch(call: Call, pc: Pc, start: Origin)
      requires Handling(call, pc, start) && !InProcess(pc)
      ensures InCatch(call, start)
    {
    }

    /** The catch block: another delivery while attempts are left, else the dead-letter queue.
        A step of it that throws ends the handler, and the copy stays unacknowledged. */
    method RetryOrBury(call: Call, waits: nat -> Wait, ghost start: Origin) returns (done: bool)
      requires Handling(call, Catch(c, call.attempt), start)
      requires forall n :: Fits(start, call.i, waits(n))
      modifies this
      ensures if done then Handling(call, Sent, start) else InCatch(call, start)
      ensures AllCalm(waits) ==> done
    {
      hide HandlerStep, Due, Run;
      if call.attempt < c.maxDeliveryAttempts {
        done := TryAgain(call, waits, start);
      } else {
        done := Bury(call, waits, start);
      }
    }

    method TryAgain(call: Call, waits: nat -> Wait, ghost start: Origin) returns (done: bool)
      requires Handling(call, QueuedStatus, start)
      requires forall n :: Fits(start, call.i, waits(n))
      modifies this
      ensures if done then Handling(call, Sent, start) else InCatch(call, start)
      ensures AllCalm(waits) ==> done
    {
      hide HandlerStep, Due, Run, Apply, Attempt, JobQueue, Valid, View, Handling, InCatch, Fits;
      CatchSteps(call, QueuedStatus, start);
      StandsInCatch(call, QueuedStatus, start);
      if waits(19).trouble == Throws { return false; }
      var failed := UpdateStatus(call, Queued, SendRetry, waits(19), QueuedStatus, start);
      StandsInCatch(call, SendRetry, start);
      if waits(20).trouble == Throws { return false; }
      SendToQueue(call, JobQueue(c, call.m, Retry), call.attempt + 1, waits(20), SendRetry, start);
      return true;
    }

    method Bury(call: Call, waits: nat -> Wait, ghost start: Origin) returns (done: bool)
      requires Handling(call, DeadStatus, start)
      requires forall n :: Fits(start, call.i, waits(n))
      modifies this
      ensures if done then Handling(call, Sent, start) else InCatch(call, start)
      ensures AllCalm(waits) ==> done
    {
      hide HandlerStep, Due, Run, Apply, Attempt, JobQueue, Valid, View, Handling, InCatch, Fits;
      CatchSteps(call, DeadStatus, start);
      StandsInCatch(call, DeadStatus, start);
      if waits(21).trouble == Throws { return false; }
      var failed := UpdateStatus(call, Failed, DeadResult, waits(21), DeadStatus, start);
      StandsInCatch(call, DeadResult, start);
      if waits(22).trouble == Throws { return false; }
      failed := SaveJobResult(call, Failed, DeadEvent, waits(22), DeadResult, start);
      done := AnnounceFailure(call, waits, start);
    }

    method AnnounceFailure(call: Call, waits: nat -> Wait, ghost start: Origin) returns (done: bool)
      requires Handling(call, DeadEvent, start)
      requires forall n :: Fits(start, call.i, waits(n))
      modifies this
      ensures if done then Handling(call, Sent, start) else InCatch(call, start)
      ensures AllCalm(waits) ==> done
    {
      hide HandlerStep, Due, Run, Apply, Attempt, JobQueue, Valid, View, Handling, InCatch, Fits;
      CatchSteps(call, DeadEvent, start);
      StandsInCatch(call, DeadEvent, start);
      if waits(23).trouble == Throws { return false; }
      var failed := EnqueueFromResult(call, Failed, SendDead, waits(23), DeadEvent, start);
      StandsInCatch(call, SendDead, start);
      if waits(24).trouble == Throws { return false; }
      SendToQueue(call, JobQueue(c, call.m, DeadLetter), call.attempt, waits(24), SendDead, start);
      return true;
    }

    /** The message handler. Whatever others do during its awaits, and wherever an await
        throws or the watchdog expires, the platform goes on by the protocol steps of this
        call and actions of others. The copy ends acknowledged, unless a step of the catch
        block throws; then it stays held until the connection is lost. */
    method HandleMessage(i: nat, env: Env, waits: nat -> Wait) returns (acked: bool)
      requires Valid() && HeldAt(View(), i) && copies[i].place.pc == ReadRecord && copies[i].place.worker in c.workers
      requires forall n :: Others(i, waits(n).acts)
      modifies this
      ensures Valid() && Since(Origin(old(history), AllCalm(waits), AllAlone(waits)), i, env)
      ensures i < |copies| && copies[i].msg == old(copies)[i].msg
      ensures if acked then copies[i].place.Acked? else copies[i].place.Held? && !InProcess(copies[i].place.pc)
      ensures AllCalm(waits) ==> acked
      ensures AllCalm(waits) && AllAlone(waits) ==>
        var r := C.ResultOf(c, old(View()), i, env);
        View() == C.With(old(View()), i, Acked(r.how), r.delta)
    {
      ghost var start, was := Origin(history, AllCalm(waits), AllAlone(waits)), View();
      acked := Handle(i, env, waits, start);
      if AllCalm(waits) && AllAlone(waits) {
        Undisturbed(was, i, env, start);
      }
    }

    /** If nothing but steps of the call happened and the copy is acknowledged, the result is
        that of an undisturbed call. */
    lemma Undisturbed(was: State, i: nat, env: Env, start: Origin)
      requires was == Run(c, INIT, start.history) && Valid() && Since(start, i, env) && start.calm && start.alone
      requires HeldAt(was, i) && was.copies[i].place.pc == ReadRecord && was.copies[i].place.worker in c.workers
      requires i < |copies| && copies[i].place.Acked?
      ensures var r := C.ResultOf(c, was, i, env);
        View() == C.With(was, i, Acked(r.how), r.delta)
    {
      hide Apply, Run, C.With, C.ResultOf;
      var acts := history[|start.history|..];
      assert history == start.history + acts;
      RunAppend(c, INIT, start.history, acts);
      C.Undisturbed(c, was, i, env, acts);
    }

    method Handle(i: nat, env: Env, waits: nat -> Wait, ghost start: Origin) returns (acked: bool)
      requires Valid() && HeldAt(View(), i) && copies[i].place.pc == ReadRecord && copies[i].place.worker in c.workers
      requires start.history == history && forall n :: Fits(start, i, waits(n))
      modifies this
      ensures Valid() && Since(start, i, env)
      ensures i < |copies| && copies[i].msg == old(copies)[i].msg
      ensures if acked then copies[i].place.Acked? else copies[i].place.Held? && !InProcess(copies[i].place.pc)
      ensures AllCalm(waits) ==> acked
    {
      var call := Call(i, copies[i].msg, Attempt(copies[i]), copies[i].place.worker, env);
      var end := Process(call, waits, start);
      if end.Returned? {
        Ack(call, end, start);
        return true;
      }
      acked := RetryOrBury(call, waits, start);
      if acked {
        Ack(call, Sent, start);
      }
    }

    // -------------------------------------------------------------------------
    // The API's side
    // -------------------------------------------------------------------------

    method SaveFreshRecord(m: Message)
      requires Valid() && m.job !in jobs && AcceptableTarget(c, m)
      modifies this
      ensures Valid() && history == old(history) + [Record(m)]
      ensures View() == DoRecord(old(View()), m)
    {
      ghost var was := View();
      jobs := jobs[m.job := m];
      pending := pending + {m.job};
      records := records[m.job := Queued];
      Log(was, Record(m));
    }

    method Publish(j: JobId)
      requires Valid() && j in pending && j in jobs
      modifies this
      ensures Valid() && history == old(history) + [Action.Publish(j)]
      ensures View() == DoPublish(c, old(View()), j)
    {
      ghost var was := View();
      var m := jobs[j];
      pending := pending - {j};
      published := published + {j};
      deadLetter := deadLetter[JobQueue(c, m, Retry) := JobQueue(c, m, Main)];
      copies := copies + [NewCopy(m, None, JobQueue(c, m, Main))];
      Log(was, Action.Publish(j));
    }

    /** Saves the record of a fresh job, then publishes its message. */
    method RecordAndPublish(m: Message, acts: seq<Action>)
      requires Valid() && m.job !in jobs && AcceptableTarget(c, m)
      requires forall k :: 0 <= k < |acts| ==> acts[k] != Action.Publish(m.job)
      modifies this
      ensures Valid() && history == old(history) + [Record(m)] + acts + [Action.Publish(m.job)]
      ensures m.job in published
    {
      SaveFreshRecord(m);
      PendingStays(c, View(), acts, m.job);
      Await(acts);
      Publish(m.job);
    }

    /** A cancel call stands at step pc. */
    ghost predicate CancelAt(k: nat, j: JobId, pc: CancelPc)
      reads this
    {
      Valid() && k < |cancels| && cancels[k] == CancelCall(j, pc) && j in jobs
    }

    method CancelPause(k: nat, acts: seq<Action>, ghost j: JobId, ghost pc: CancelPc)
      requires CancelAt(k, j, pc) && forall n :: 0 <= n < |acts| ==> NotMyCancel(k, acts[n])
      modifies this
      ensures CancelAt(k, j, pc) && history == old(history) + acts
    {
      OthersKeepCancel(c, View(), acts, k);
      Await(acts);
    }

    method CancelStatus(k: nat, j: JobId)
      requires CancelAt(k, j, WriteStatus)
      modifies this
      ensures CancelAt(k, j, WriteResult) && history == old(history) + [CancelStep(k)]
    {
      ghost var was := View();
      SetRecord(j, Cancelled);
      cancels := cancels[k := CancelCall(j, WriteResult)];
      Log(was, CancelStep(k));
    }

    method CancelResult(k: nat, j: JobId)
      requires CancelAt(k, j, WriteResult)
      modifies this
      ensures CancelAt(k, j, PublishEvent) && history == old(history) + [CancelStep(k)]
    {
      ghost var was := View();
      results := results[j := Cancelled];
      cancels := cancels[k := CancelCall(j, PublishEvent)];
      Log(was, CancelStep(k));
    }

    method CancelEvent(k: nat, j: JobId)
      requires CancelAt(k, j, PublishEvent)
      modifies this
      ensures CancelAt(k, j, Done) && history == old(history) + [CancelStep(k)]
    {
      ghost var was := View();
      events := events + EventsFor(jobs[j], Cancelled, FromApi);
      cancels := cancels[k := CancelCall(j, Done)];
      Log(was, CancelStep(k));
    }

    /** Cancels a job whose record is queued when it is read; returns whether it did. */
    method Cancel(j: JobId, acts: nat -> seq<Action>) returns (cancelled: bool)
      requires Valid() && j in jobs
      requires forall n, k :: 0 <= k < |acts(n)| ==> NotMyCancel(|cancels|, acts(n)[k])
      modifies this
      ensures cancelled <==> RecordOf(old(View()), j) == Some(Queued)
      ensures if cancelled then CancelAt(|old(cancels)|, j, Done) else Valid() && View() == old(View())
      ensures cancelled ==>
        var step := [CancelStep(|old(cancels)|)];
        history == old(history) + [CancelRead(j)] + acts(0) + step + acts(1) + step + acts(2) + step
    {
      if j !in records || records[j] != Queued {
        return false;
      }
      var k := |cancels|;
      ghost var was := View();
      cancels := cancels + [CancelCall(j, WriteStatus)];
      Log(was, CancelRead(j));
      CancelPause(k, acts(0), j, WriteStatus);
      CancelStatus(k, j);
      CancelPause(k, acts(1), j, WriteResult);
      CancelResult(k, j);
      CancelPause(k, acts(2), j, PublishEvent);
      CancelEvent(k, j);
      return true;
    }
  }
}
