/** Conservation and bounded work: how many copies, process calls and strategy executions
    one job can cause. */
module DeliveryBounds {
  import opened Common
  import opened QueueNames
  import opened Sums
  import opened Delivery
  import opened DeliverySafety
  import L = ScrapeLoop
  import R = RetryMachine

  /** A run in which no connection is lost. Faults and watchdog expiries may happen. */
  ghost predicate NoLostConnection(acts: seq<Action>) {
    forall k :: 0 <= k < |acts| ==> !acts[k].Requeue?
  }

  // ---------------------------------------------------------------------------
  // Conservation
  // ---------------------------------------------------------------------------

  /** A copy that still owes its job a result. */
  predicate Owes(copy: Copy) {
    match copy.place
    case InQueue(_) => true
    case Held(_, _, pc) => !pc.Returned? && !pc.Sent?
    case Acked(_) => false
  }

  function Owing(j: JobId): Copy -> nat {
    (copy: Copy) => if copy.msg.job == j && Owes(copy) then 1 else 0
  }

  function Calls(j: JobId): Copy -> nat {
    (copy: Copy) => if copy.msg.job == j then copy.deliveries else 0
  }

  lemma RequeueIsRequeue(c: Config, s: State, a: Action)
    requires !a.Requeue?
    ensures !MoveOf(c, s, a).Requeue?
  {
  }

  lemma {:induction false} ConservedRun(c: Config, s: State, acts: seq<Action>)
    requires ValidConfig(c) && Inv(c, s) && R.Conserved(Params(c), Abs(c, s)) && NoLostConnection(acts)
    ensures Inv(c, Run(c, s, acts)) && R.Conserved(Params(c), Abs(c, Run(c, s, acts)))
    decreases |acts|
  {
    if acts != [] {
      RefinesAction(c, s, acts[0]);
      RequeueIsRequeue(c, s, acts[0]);
      InvStep(c, s, acts[0]);
      R.ConservedStep(Params(c), Abs(c, s), MoveOf(c, s, acts[0]));
      ConservedRun(c, Apply(c, s, acts[0]), acts[1..]);
    }
  }

  lemma ConservedFromInit(c: Config, acts: seq<Action>)
    requires ValidConfig(c) && NoLostConnection(acts)
    ensures Inv(c, Run(c, INIT, acts)) && R.Conserved(Params(c), Abs(c, Run(c, INIT, acts)))
  {
    InvInit(c);
    ConservedRun(c, INIT, acts);
  }

  lemma OwingSum(c: Config, s: State, j: JobId)
    ensures Sum(s.copies, Owing(j)) == Sum(Abs(c, s).copies, R.AliveWeight(j))
    ensures Sum(s.copies, Calls(j)) == Sum(Abs(c, s).copies, R.DeliveryWeight(j))
  {
    SumPointwise(s.copies, Abs(c, s).copies, Owing(j), R.AliveWeight(j));
    SumPointwise(s.copies, Abs(c, s).copies, Calls(j), R.DeliveryWeight(j));
  }

  /** While no connection is lost, the copies of a published job that owe a result and its
      normal return together count exactly one, and at most maxDeliveryAttempts process
      calls were ever started for it. */
  lemma ExactlyOneOwed(c: Config, acts: seq<Action>, j: JobId)
    requires ValidConfig(c) && NoLostConnection(acts)
    requires j in Run(c, INIT, acts).published
    ensures var s := Run(c, INIT, acts);
      && Sum(s.copies, Owing(j)) + (if j in s.settled then 1 else 0) == 1
      && Sum(s.copies, Calls(j)) <= c.maxDeliveryAttempts
  {
    var s := Run(c, INIT, acts);
    ConservedFromInit(c, acts);
    OwingSum(c, s, j);
    assert R.Known(Abs(c, s), j);
    assert R.Balance(Abs(c, s), j) == 1;
    R.CallsBounded(Params(c), Abs(c, s), j);
  }

  /** Two different copies of a job never both owe a result, nor one beside a settled job. */
  lemma OneOwing(c: Config, s: State, i: nat, k: nat)
    requires R.Conserved(Params(c), Abs(c, s))
    requires i < |s.copies| && k < |s.copies| && i != k && s.copies[i].msg.job == s.copies[k].msg.job
    requires Owes(s.copies[i])
    ensures !Owes(s.copies[k])
  {
    assert R.Alive(Abs(c, s).copies[i]);
    R.OneAlive(Params(c), Abs(c, s), i, k);
  }

  // ---------------------------------------------------------------------------
  // Termination
  // ---------------------------------------------------------------------------

  /** Broker and handler steps taken for copies of jobs. */
  ghost function CopySteps(c: Config, s: State, acts: seq<Action>): nat
    decreases |acts|
  {
    if acts == [] then 0
    else
      var m := MoveOf(c, s, acts[0]);
      (if m.Publish? || m.Idle? then 0 else 1) + CopySteps(c, Apply(c, s, acts[0]), acts[1..])
  }

  ghost function Publications(c: Config, s: State, acts: seq<Action>): nat
    decreases |acts|
  {
    if acts == [] then 0
    else (if MoveOf(c, s, acts[0]).Publish? then 1 else 0) + Publications(c, Apply(c, s, acts[0]), acts[1..])
  }

  lemma {:induction false} StepsWithinMeasure(c: Config, s: State, acts: seq<Action>)
    requires ValidConfig(c) && Inv(c, s) && NoLostConnection(acts)
    ensures CopySteps(c, s, acts) + R.Measure(Params(c), Abs(c, Run(c, s, acts)))
      <= R.Measure(Params(c), Abs(c, s)) + Publications(c, s, acts) * (c.maxDeliveryAttempts * (TOP + 4))
    decreases |acts|
  {
    hide Apply, Abs, MoveOf, R.Measure, R.After, R.Legal, R.Safe;
    if acts != [] {
      var t := Apply(c, s, acts[0]);
      RefinesAction(c, s, acts[0]);
      RequeueIsRequeue(c, s, acts[0]);
      InvStep(c, s, acts[0]);
      R.MeasureAfter(Params(c), Abs(c, s), MoveOf(c, s, acts[0]));
      StepsWithinMeasure(c, t, acts[1..]);
      R.OneMoreUnit(Publications(c, t, acts[1..]), c.maxDeliveryAttempts * (TOP + 4));
    }
  }

  /** Work is bounded however the actions interleave: without lost connections a published
      job is good for at most maxDeliveryAttempts * 19 broker and handler steps. */
  lemma WorkIsBounded(c: Config, acts: seq<Action>)
    requires ValidConfig(c) && NoLostConnection(acts)
    ensures CopySteps(c, INIT, acts) <= Publications(c, INIT, acts) * (c.maxDeliveryAttempts * 19)
  {
    InvInit(c);
    StepsWithinMeasure(c, INIT, acts);
    assert R.Measure(Params(c), Abs(c, INIT)) == 0;
  }

  // ---------------------------------------------------------------------------
  // Strategy executions
  // ---------------------------------------------------------------------------

  /** Handler steps up to and including the strategy loop. */
  predicate MayStillScrape(pc: Pc) {
    pc == ReadRecord || pc == MarkProcessing || pc == LookupCache || pc == Execute
  }

  function CopyBudget(j: JobId, budget: nat): Copy -> nat {
    (copy: Copy) => if copy.msg.job == j && copy.place.Held? && MayStillScrape(copy.place.pc) then budget else 0
  }

  function StrayBudget(j: JobId, budget: nat): Stray -> nat {
    (stray: Stray) => if stray.msg.job == j && MayStillScrape(stray.pc) then budget else 0
  }

  function CallBudget(j: JobId, budget: nat): Copy -> nat {
    (copy: Copy) => if copy.msg.job == j then budget * copy.deliveries else 0
  }

  function ScrapesOf(j: JobId): Scrape -> nat {
    (x: Scrape) => if x.job == j then 1 else 0
  }

  function Budget(m: Message): nat { 2 * (m.maxRetries + 1) }

  /** Executions done, plus those still budgeted for running calls, stay within the budget
      of the calls started. */
  ghost predicate WithinBudget(s: State, j: JobId, budget: nat) {
    Sum(s.scrapes, ScrapesOf(j)) + Sum(s.copies, CopyBudget(j, budget)) + Sum(s.strays, StrayBudget(j, budget))
      <= Sum(s.copies, CallBudget(j, budget))
  }

  /** A handler step executes at most one budget, and only when it leaves the phase in
      which it may still scrape. */
  lemma StepWithinBudget(c: Config, m: Message, attempt: nat, w: Worker, pc: Pc, record: Option<Status>, env: Env)
    ensures var next := HandlerStep(c, m, attempt, w, pc, record, env);
      && (next.effect.Scraped? <==> pc == Execute)
      && (next.effect.Scraped? ==> |next.effect.strategies| <= Budget(m))
      && (next.effect.Scraped? ==> forall x :: x in next.effect.strategies ==> x in w.allowed)
      && (MayStillScrape(next.pc) ==> MayStillScrape(pc) && pc != Execute)
  {
    if pc == Execute {
      L.OnlyAllowed(m.strategy, w.defaultStrategy, w.allowed, m.maxRetries, m.retryDelayMs, env.rounds);
    }
  }

  lemma ScrapeLogSum(m: Message, worker: string, strategies: seq<Routing>, j: JobId)
    ensures Sum(ScrapeLog(m, worker, strategies), ScrapesOf(j)) <= |strategies|
    ensures j != m.job ==> Sum(ScrapeLog(m, worker, strategies), ScrapesOf(j)) == 0
  {
    var log := ScrapeLog(m, worker, strategies);
    SumBounded(log, ScrapesOf(j), 1);
    if j != m.job { SumZero(log, ScrapesOf(j)); }
  }

  lemma BudgetAck(c: Config, s: State, i: nat, env: Env, j: JobId, b: nat)
    requires Enabled(c, s, Advance(i, env)) && (s.copies[i].place.pc.Returned? || s.copies[i].place.pc.Sent?)
    requires WithinBudget(s, j, b)
    ensures WithinBudget(Apply(c, s, Advance(i, env)), j, b)
  {
    hide HandlerStep, Apply, Sum;
    AckFrame(c, s, i, env);
    var acked := Apply(c, s, Advance(i, env)).copies[i];
    SumUpdate(s.copies, i, acked, CopyBudget(j, b));
    SumUpdate(s.copies, i, acked, CallBudget(j, b));
  }

  /** How a copy that changes its place and the copy it publishes enter the two sums. */
  lemma BudgetSums(copies: seq<Copy>, i: nat, place: Place, added: seq<Copy>, j: JobId, b: nat)
    requires i < |copies| && forall k :: 0 <= k < |added| ==> added[k].place.InQueue? && added[k].deliveries == 0
    ensures var moved := copies[i].(place := place);
      && Sum(copies[i := moved] + added, CopyBudget(j, b)) + CopyBudget(j, b)(copies[i])
        == Sum(copies, CopyBudget(j, b)) + CopyBudget(j, b)(moved)
      && Sum(copies[i := moved] + added, CallBudget(j, b)) == Sum(copies, CallBudget(j, b))
  {
    var moved := copies[i].(place := place);
    SumUpdate(copies, i, moved, CopyBudget(j, b));
    SumUpdate(copies, i, moved, CallBudget(j, b));
    SumConcat(copies[i := moved], added, CopyBudget(j, b));
    SumConcat(copies[i := moved], added, CallBudget(j, b));
    SumZero(added, CopyBudget(j, b));
    SumZero(added, CallBudget(j, b));
  }

  lemma BudgetAdvance(c: Config, s: State, i: nat, env: Env, j: JobId)
    requires Enabled(c, s, Advance(i, env)) && !s.copies[i].place.pc.Returned? && !s.copies[i].place.pc.Sent?
    requires j in s.jobs && s.copies[i].msg.job in s.jobs && s.jobs[s.copies[i].msg.job] == s.copies[i].msg
    requires WithinBudget(s, j, Budget(s.jobs[j]))
    ensures WithinBudget(Apply(c, s, Advance(i, env)), j, Budget(s.jobs[j]))
  {
    hide HandlerStep, Apply, Sum;
    var copy := s.copies[i];
    var next := StepOf(c, s, i, env);
    AdvanceFrame(c, s, i, env);
    StepWithinBudget(c, copy.msg, Attempt(copy), c.workers[copy.place.worker], copy.place.pc, RecordOf(s, copy.msg.job), env);
    BudgetSums(s.copies, i, copy.place.(pc := next.pc), Added(copy.msg, next.effect), j, Budget(s.jobs[j]));
    LogStep(s, copy.msg, copy.place.worker, next.effect, j);
  }

  lemma LogStep(s: State, m: Message, worker: string, e: Effect, j: JobId)
    requires e.Scraped? ==> |e.strategies| <= Budget(m)
    ensures Sum(s.scrapes + NewScrapes(m, worker, e), ScrapesOf(j))
      <= Sum(s.scrapes, ScrapesOf(j)) + if e.Scraped? && j == m.job then Budget(m) else 0
  {
    SumConcat(s.scrapes, NewScrapes(m, worker, e), ScrapesOf(j));
    if e.Scraped? { ScrapeLogSum(m, worker, e.strategies, j); }
  }

  lemma BudgetStray(c: Config, s: State, z: nat, env: Env, j: JobId)
    requires Enabled(c, s, StrayStep(z, env))
    requires j in s.jobs && s.strays[z].msg.job in s.jobs && s.jobs[s.strays[z].msg.job] == s.strays[z].msg
    requires WithinBudget(s, j, Budget(s.jobs[j]))
    ensures WithinBudget(Apply(c, s, StrayStep(z, env)), j, Budget(s.jobs[j]))
  {
    hide HandlerStep, Apply, Sum;
    var stray := s.strays[z];
    var next := StrayNext(c, s, z, env);
    StrayFrame(c, s, z, env);
    StepWithinBudget(c, stray.msg, stray.attempt, c.workers[stray.worker], stray.pc, RecordOf(s, stray.msg.job), env);
    SumUpdate(s.strays, z, stray.(pc := next.pc), StrayBudget(j, Budget(s.jobs[j])));
    LogStep(s, stray.msg, stray.worker, next.effect, j);
  }

  lemma BudgetQueueMove(c: Config, s: State, a: Action, j: JobId, b: nat)
    requires Enabled(c, s, a) && WithinBudget(s, j, b)
    requires a.Expire? || a.Requeue? || a.Fault?
    ensures WithinBudget(Apply(c, s, a), j, b)
  {
    hide HandlerStep, Apply, Sum;
    MoveFrame(c, s, a);
    var t := Apply(c, s, a);
    BudgetSums(s.copies, a.i, t.copies[a.i].place, [], j, b);
    assert s.copies[a.i := t.copies[a.i]] + [] == t.copies;
  }

  lemma BudgetWatchdog(c: Config, s: State, i: nat, j: JobId, b: nat)
    requires Enabled(c, s, Watchdog(i)) && WithinBudget(s, j, b)
    ensures WithinBudget(Apply(c, s, Watchdog(i)), j, b)
  {
    hide HandlerStep, Apply, Sum;
    var t := Apply(c, s, Watchdog(i));
    MoveFrame(c, s, Watchdog(i));
    BudgetSums(s.copies, i, t.copies[i].place, [], j, b);
    assert t.copies + [] == t.copies;
    SumAppend(s.strays, t.strays[|s.strays|], StrayBudget(j, b));
  }

  lemma BudgetDeliver(c: Config, s: State, i: nat, w: string, j: JobId, b: nat)
    requires Enabled(c, s, Deliver(i, w)) && WithinBudget(s, j, b)
    ensures WithinBudget(Apply(c, s, Deliver(i, w)), j, b)
  {
    hide HandlerStep, Apply, Sum;
    MoveFrame(c, s, Deliver(i, w));
    var held := Apply(c, s, Deliver(i, w)).copies[i];
    SumUpdate(s.copies, i, held, CopyBudget(j, b));
    SumUpdate(s.copies, i, held, CallBudget(j, b));
    DeliveryBudget(s.copies[i], held, j, b);
  }

  lemma DeliveryBudget(copy: Copy, held: Copy, j: JobId, b: nat)
    requires held.msg == copy.msg && held.deliveries == copy.deliveries + 1 && !copy.place.Held?
    ensures CallBudget(j, b)(held) == CallBudget(j, b)(copy) + if copy.msg.job == j then b else 0
    ensures CopyBudget(j, b)(held) <= CopyBudget(j, b)(copy) + if copy.msg.job == j then b else 0
  {
    var n := copy.deliveries;
    assert b * (n + 1) == b * n + b;
  }

  lemma BudgetPublish(c: Config, s: State, k: JobId, j: JobId, b: nat)
    requires Enabled(c, s, Publish(k)) && WithinBudget(s, j, b)
    ensures WithinBudget(Apply(c, s, Publish(k)), j, b)
  {
    hide HandlerStep, Apply, Sum;
    ApiActs(c, s, Publish(k));
    var copy := NewCopy(s.jobs[k], None, JobQueue(c, s.jobs[k], Main));
    SumAppend(s.copies, copy, CopyBudget(j, b));
    SumAppend(s.copies, copy, CallBudget(j, b));
  }

  lemma BudgetApi(c: Config, s: State, a: Action, j: JobId, b: nat)
    requires a.Record? || a.AnswerCached? || a.CancelRead? || a.CancelStep?
    requires WithinBudget(s, j, b)
    ensures WithinBudget(Apply(c, s, a), j, b)
  {
    hide HandlerStep, Apply, Sum;
    if Enabled(c, s, a) { ApiActs(c, s, a); } else { CancelCallFrame(c, s, a); }
  }

  lemma BudgetHandler(c: Config, s: State, i: nat, env: Env, j: JobId)
    requires ValidConfig(c) && Inv(c, s) && Enabled(c, s, Advance(i, env))
    requires j in s.jobs && WithinBudget(s, j, Budget(s.jobs[j]))
    ensures WithinBudget(Apply(c, s, Advance(i, env)), j, Budget(s.jobs[j]))
  {
    hide HandlerStep, Apply, WithinBudget;
    assert CopyValid(c, s, s.copies[i]);
    if s.copies[i].place.pc.Returned? || s.copies[i].place.pc.Sent? {
      BudgetAck(c, s, i, env, j, Budget(s.jobs[j]));
    } else {
      BudgetAdvance(c, s, i, env, j);
    }
  }

  lemma BudgetStep(c: Config, s: State, a: Action, j: JobId)
    requires ValidConfig(c) && Inv(c, s) && j in s.jobs && WithinBudget(s, j, Budget(s.jobs[j]))
    ensures WithinBudget(Apply(c, s, a), j, Budget(s.jobs[j]))
  {
    hide HandlerStep, Apply, WithinBudget;
    if !Enabled(c, s, a) {
      CancelCallFrame(c, s, a);
    } else {
      match a
      case Publish(k) => BudgetPublish(c, s, k, j, Budget(s.jobs[j]));
      case Advance(i, env) => BudgetHandler(c, s, i, env, j);
      case StrayStep(z, env) =>
        assert StrayValid(c, s, s.strays[z]);
        BudgetStray(c, s, z, env, j);
      case Deliver(i, w) => BudgetDeliver(c, s, i, w, j, Budget(s.jobs[j]));
      case Watchdog(i) => BudgetWatchdog(c, s, i, j, Budget(s.jobs[j]));
      case Expire(_) => BudgetQueueMove(c, s, a, j, Budget(s.jobs[j]));
      case Requeue(_) => BudgetQueueMove(c, s, a, j, Budget(s.jobs[j]));
      case Fault(_) => BudgetQueueMove(c, s, a, j, Budget(s.jobs[j]));
      case _ => BudgetApi(c, s, a, j, Budget(s.jobs[j]));
    }
  }

  lemma FreshJobWithinBudget(c: Config, s: State, j: JobId, b: nat)
    requires Inv(c, s) && j !in s.jobs && NoForeignScrapes(s)
    ensures WithinBudget(s, j, b)
  {
    forall i | 0 <= i < |s.copies| ensures s.copies[i].msg.job != j { assert CopyValid(c, s, s.copies[i]); }
    forall z | 0 <= z < |s.strays| ensures s.strays[z].msg.job != j { assert StrayValid(c, s, s.strays[z]); }
    SumZero(s.scrapes, ScrapesOf(j));
    SumZero(s.copies, CopyBudget(j, b));
    SumZero(s.strays, StrayBudget(j, b));
  }

  /** Every execution is logged for a known job, by a worker that may process it, with a
      strategy that worker allows. */
  ghost predicate ScrapesValid(c: Config, s: State) {
    forall k :: 0 <= k < |s.scrapes| ==> ScrapeValid(c, s, s.scrapes[k])
  }

  ghost predicate ScrapeValid(c: Config, s: State, x: Scrape) {
    && x.job in s.jobs && MayProcess(c, s.jobs[x.job], x.worker)
    && x.strategy in c.workers[x.worker].allowed
  }

  ghost predicate NoForeignScrapes(s: State) {
    forall k :: 0 <= k < |s.scrapes| ==> s.scrapes[k].job in s.jobs
  }

  lemma NewScrapesValid(c: Config, s: State, m: Message, worker: string, e: Effect)
    requires ScrapesValid(c, s) && m.job in s.jobs && s.jobs[m.job] == m && MayProcess(c, m, worker)
    requires e.Scraped? ==> forall x :: x in e.strategies ==> x in c.workers[worker].allowed
    ensures forall x :: x in s.scrapes + NewScrapes(m, worker, e) ==> ScrapeValid(c, s, x)
  {
  }

  /** Only handler steps, of copies and of strays, add to the scrapes. */
  lemma OthersScrapeNothing(c: Config, s: State, a: Action)
    requires !a.StrayStep? || !Enabled(c, s, a)
    requires a.Advance? && Enabled(c, s, a) ==> s.copies[a.i].place.pc.Returned? || s.copies[a.i].place.pc.Sent?
    ensures Apply(c, s, a).scrapes == s.scrapes
  {
    hide HandlerStep, Apply;
    if !Enabled(c, s, a) {
      CancelCallFrame(c, s, a);
    } else if a.Advance? {
      AckFrame(c, s, a.i, a.env);
    } else if MovesCopy(a) {
      MoveFrame(c, s, a);
    } else {
      ApiActs(c, s, a);
    }
  }

  lemma StepScrapes(c: Config, s: State, a: Action)
    requires ValidConfig(c) && Inv(c, s) && ScrapesValid(c, s)
    ensures forall x :: x in Apply(c, s, a).scrapes ==> ScrapeValid(c, s, x)
  {
    hide HandlerStep, Apply;
    if Enabled(c, s, a) && a.Advance? && !s.copies[a.i].place.pc.Returned? && !s.copies[a.i].place.pc.Sent? {
      var copy := s.copies[a.i];
      assert CopyValid(c, s, copy);
      AdvanceFrame(c, s, a.i, a.env);
      StepWithinBudget(c, copy.msg, Attempt(copy), c.workers[copy.place.worker], copy.place.pc, RecordOf(s, copy.msg.job), a.env);
      NewScrapesValid(c, s, copy.msg, copy.place.worker, StepOf(c, s, a.i, a.env).effect);
    } else if Enabled(c, s, a) && a.StrayStep? {
      var y := s.strays[a.z];
      assert StrayValid(c, s, y);
      StrayFrame(c, s, a.z, a.env);
      StepWithinBudget(c, y.msg, y.attempt, c.workers[y.worker], y.pc, RecordOf(s, y.msg.job), a.env);
      NewScrapesValid(c, s, y.msg, y.worker, StrayNext(c, s, a.z, a.env).effect);
    } else {
      OthersScrapeNothing(c, s, a);
    }
  }

  lemma ScrapesStayValid(c: Config, s: State, a: Action)
    requires ValidConfig(c) && Inv(c, s) && ScrapesValid(c, s)
    ensures ScrapesValid(c, Apply(c, s, a))
  {
    hide HandlerStep, Apply;
    var t := Apply(c, s, a);
    Grows(c, s, a);
    StepScrapes(c, s, a);
    forall k | 0 <= k < |t.scrapes| ensures ScrapeValid(c, t, t.scrapes[k]) {
      assert t.scrapes[k] in t.scrapes;
      assert ScrapeValid(c, s, t.scrapes[k]);
    }
  }

  ghost predicate AllWithinBudget(s: State) {
    forall j :: j in s.jobs ==> WithinBudget(s, j, Budget(s.jobs[j]))
  }

  lemma AllBudgetsStep(c: Config, s: State, a: Action)
    requires ValidConfig(c) && Inv(c, s) && ScrapesValid(c, s) && AllWithinBudget(s)
    ensures AllWithinBudget(Apply(c, s, a))
  {
    var t := Apply(c, s, a);
    forall j | j in t.jobs ensures WithinBudget(t, j, Budget(t.jobs[j])) {
      if j in s.jobs {
        BudgetStep(c, s, a, j);
        Grows(c, s, a);
      } else {
        NewJob(c, s, a, j);
        FreshJobWithinBudget(c, s, j, Budget(t.jobs[j]));
      }
    }
  }

  lemma NewJob(c: Config, s: State, a: Action, j: JobId)
    requires j !in s.jobs && j in Apply(c, s, a).jobs
    ensures var t := Apply(c, s, a);
      t.copies == s.copies && t.strays == s.strays && t.scrapes == s.scrapes
  {
    hide HandlerStep, Apply;
    if !Enabled(c, s, a) {
      CancelCallFrame(c, s, a);
    } else if a.Record? || a.AnswerCached? || a.Publish? {
      ApiActs(c, s, a);
    } else {
      WorkerFrame(c, s, a);
    }
  }

  lemma {:induction false} BudgetRun(c: Config, s: State, acts: seq<Action>)
    requires ValidConfig(c) && Inv(c, s) && ScrapesValid(c, s) && AllWithinBudget(s)
    ensures var t := Run(c, s, acts);
      Inv(c, t) && ScrapesValid(c, t) && AllWithinBudget(t)
    decreases |acts|
  {
    if acts != [] {
      InvStep(c, s, acts[0]);
      ScrapesStayValid(c, s, acts[0]);
      AllBudgetsStep(c, s, acts[0]);
      BudgetRun(c, Apply(c, s, acts[0]), acts[1..]);
    }
  }

  lemma ExecutionsPerCall(c: Config, s: State, j: JobId)
    requires ValidConfig(c) && Inv(c, s) && AllWithinBudget(s) && j in s.jobs
    ensures Sum(s.scrapes, ScrapesOf(j)) <= Budget(s.jobs[j]) * Sum(s.copies, Calls(j))
  {
    var b := Budget(s.jobs[j]);
    assert WithinBudget(s, j, b);
    SumScale(s.copies, Calls(j), b, CallBudget(j, b));
  }

  /** In every run the strategy executions of a job stay within 2 * (maxRetries + 1) for
      each process call started, so without lost connections a job causes at most
      2 * (maxRetries + 1) * maxDeliveryAttempts executions. */
  lemma ExecutionsBounded(c: Config, acts: seq<Action>, j: JobId)
    requires ValidConfig(c) && j in Run(c, INIT, acts).published
    ensures var s := Run(c, INIT, acts);
      && j in s.jobs
      && Sum(s.scrapes, ScrapesOf(j)) <= Budget(s.jobs[j]) * Sum(s.copies, Calls(j))
      && (NoLostConnection(acts) ==> Sum(s.scrapes, ScrapesOf(j)) <= Budget(s.jobs[j]) * c.maxDeliveryAttempts)
  {
    var s := Run(c, INIT, acts);
    InvInit(c);
    BudgetRun(c, INIT, acts);
    assert JobValid(c, s, j);
    ExecutionsPerCall(c, s, j);
    if NoLostConnection(acts) {
      ExactlyOneOwed(c, acts, j);
      TimesMonotone(Budget(s.jobs[j]), Sum(s.copies, Calls(j)), c.maxDeliveryAttempts);
    }
  }

  lemma TimesMonotone(b: nat, x: nat, y: nat)
    requires x <= y
    ensures b * x <= b * y
  {
  }

  /** Whatever is scraped for a job is scraped by a worker that may process it, with a
      strategy that worker allows. */
  lemma ScrapedByItsWorker(c: Config, acts: seq<Action>, k: nat)
    requires ValidConfig(c) && k < |Run(c, INIT, acts).scrapes|
    ensures ScrapeValid(c, Run(c, INIT, acts), Run(c, INIT, acts).scrapes[k])
  {
    InvInit(c);
    BudgetRun(c, INIT, acts);
  }
}
