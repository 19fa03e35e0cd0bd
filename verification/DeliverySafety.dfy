/** Safety of the delivery protocol: it refines the retry machine, so nothing is lost and
    work is bounded, and jobs stay on their own queues and workers. */
module DeliverySafety {
  import opened Common
  import opened QueueNames
  import opened Delivery
  import L = ScrapeLoop
  import R = RetryMachine

  // ---------------------------------------------------------------------------
  // The protocol as a retry machine
  // ---------------------------------------------------------------------------

  function Params(c: Config): R.Params { R.Params(c.maxDeliveryAttempts, TOP) }

  function AbsHeld(pc: Pc): R.Place {
    match pc
    case Returned(_) => R.Finishing(R.Settled)
    case Sent => R.Finishing(R.HandedOver)
    case _ => R.Working(Rank(pc))
  }

  function AbsPlace(c: Config, copy: Copy): R.Place {
    match copy.place
    case InQueue(q) =>
      if q == JobQueue(c, copy.msg, Main) then R.Ready
      else if q == JobQueue(c, copy.msg, Retry) then R.Delayed
      else R.Parked
    case Held(_, _, pc) => AbsHeld(pc)
    case Acked(Settled(_)) => R.Acked(R.Settled)
    case Acked(HandedOver) => R.Acked(R.HandedOver)
  }

  function AbsCopy(c: Config, copy: Copy): R.Copy<JobId> {
    R.Copy(copy.msg.job, Attempt(copy), AbsPlace(c, copy), copy.deliveries)
  }

  function AbsCopies(c: Config, copies: seq<Copy>): seq<R.Copy<JobId>> {
    seq(|copies|, i requires 0 <= i < |copies| => AbsCopy(c, copies[i]))
  }

  function Abs(c: Config, s: State): R.State<JobId> {
    R.State(AbsCopies(c, s.copies), s.settled)
  }

  /** The retry-machine move behind an action. */
  ghost function MoveOf(c: Config, s: State, a: Action): R.Move<JobId> {
    if !Enabled(c, s, a) then R.Idle
    else match a
      case Publish(j) => R.Publish(j)
      case Deliver(i, _) => R.Deliver(i, TOP)
      case Expire(i) => R.Expire(i)
      case Requeue(i) => R.Requeue(i)
      case Fault(i) => R.Work(i, Rank(Catch(c, Attempt(s.copies[i]))))
      case Watchdog(i) => R.Work(i, Rank(Catch(c, Attempt(s.copies[i]))))
      case Advance(i, env) => AdvanceMove(c, s, i, env)
      case _ => R.Idle
  }

  ghost function AdvanceMove(c: Config, s: State, i: nat, env: Env): R.Move<JobId>
    requires HeldAt(s, i) && s.copies[i].place.worker in c.workers
  {
    var pc := s.copies[i].place.pc;
    if pc.Returned? || pc.Sent? then R.Ack(i) else StepMove(i, StepOf(c, s, i, env).pc)
  }

  function StepMove(i: nat, next: Pc): R.Move<JobId> {
    match next
    case Returned(_) => R.Return(i)
    case Sent => R.HandOver(i)
    case _ => R.Work(i, Rank(next))
  }

  lemma AbsUpdate(c: Config, copies: seq<Copy>, i: nat, copy: Copy)
    requires i < |copies|
    ensures AbsCopies(c, copies[i := copy]) == AbsCopies(c, copies)[i := AbsCopy(c, copy)]
  {
  }

  lemma AbsAppend(c: Config, copies: seq<Copy>, copy: Copy)
    ensures AbsCopies(c, copies + [copy]) == AbsCopies(c, copies) + [AbsCopy(c, copy)]
  {
  }

  /** A step of the handler strictly lowers its rank, and only the two send steps publish. */
  lemma RankFalls(c: Config, m: Message, attempt: nat, w: Worker, pc: Pc, record: Option<Status>, env: Env)
    requires !pc.Returned? && !pc.Sent?
    ensures var next := HandlerStep(c, m, attempt, w, pc, record, env);
      && Rank(next.pc) < Rank(pc) <= TOP
      && (next.pc.Sent? <==> next.effect.Send?)
      && (pc == SendRetry ==> next.effect == Send(JobQueue(c, m, Retry), attempt + 1))
      && (pc == SendDead ==> next.effect == Send(JobQueue(c, m, DeadLetter), attempt))
      && (next.pc.Sent? ==> pc == SendRetry || pc == SendDead)
  {
    hide StrategyAllowed, JobQueue, L.Scrape, L.ResolvePlan;
  }

  // ---------------------------------------------------------------------------
  // What every reachable state satisfies
  // ---------------------------------------------------------------------------

  ghost predicate ValidMessage(c: Config, m: Message) {
    m.target.Some? ==> m.target.value in c.workers
  }

  /** A worker that may process a message: the message's target if there is one, or a worker
      whose id sanitizes like the target's and so has the same queues. */
  ghost predicate MayProcess(c: Config, m: Message, w: string) {
    && w in c.workers
    && ResolveRouting(m.strategy) in c.workers[w].allowed
    && (m.target == None || SameTarget(m.target, Some(w)))
  }

  ghost predicate PlaceValid(c: Config, copy: Copy) {
    match copy.place
    case InQueue(q) => exists role :: q == JobQueue(c, copy.msg, role)
    case Held(q, w, pc) => q == JobQueue(c, copy.msg, Main) && MayProcess(c, copy.msg, w) && PcValid(c, Attempt(copy), pc)
    case Acked(_) => true
  }

  /** The catch block runs the branch its attempt selects. */
  predicate PcValid(c: Config, attempt: nat, pc: Pc) {
    match pc
    case QueuedStatus => attempt < c.maxDeliveryAttempts
    case SendRetry => attempt < c.maxDeliveryAttempts
    case DeadStatus => attempt >= c.maxDeliveryAttempts
    case DeadResult => attempt >= c.maxDeliveryAttempts
    case DeadEvent => attempt >= c.maxDeliveryAttempts
    case SendDead => attempt >= c.maxDeliveryAttempts
    case _ => true
  }

  ghost predicate CopyValid(c: Config, s: State, copy: Copy) {
    && copy.msg.job in s.published
    && copy.msg.job in s.jobs && s.jobs[copy.msg.job] == copy.msg
    && PlaceValid(c, copy)
  }

  ghost predicate JobValid(c: Config, s: State, j: JobId) {
    && j in s.jobs && s.jobs[j].job == j && ValidMessage(c, s.jobs[j]) && j in s.records
  }

  ghost predicate RouteValid(c: Config, s: State, q: string) {
    exists r, t :: RouteOf(c, r, t, q) && q in s.deadLetter && s.deadLetter[q] == QueueName(c.base, r, t, Main)
  }

  ghost predicate RouteOf(c: Config, r: Routing, t: Option<string>, q: string) {
    ValidTarget(t) && q == QueueName(c.base, r, t, Retry)
  }

  ghost predicate StrayValid(c: Config, s: State, stray: Stray) {
    && MayProcess(c, stray.msg, stray.worker)
    && stray.msg.job in s.published && stray.msg.job in s.jobs && s.jobs[stray.msg.job] == stray.msg
  }

  ghost predicate Inv(c: Config, s: State) {
    && (forall i :: 0 <= i < |s.copies| ==> CopyValid(c, s, s.copies[i]))
    && JobsValid(c, s)
    && (forall q :: q in s.deadLetter ==> RouteValid(c, s, q))
    && (forall z :: 0 <= z < |s.strays| ==> StrayValid(c, s, s.strays[z]))
    && (forall j :: j in s.published <==> R.Known(Abs(c, s), j))
    && R.Safe(Params(c), Abs(c, s))
  }

  lemma KnownMessage(c: Config, s: State, i: nat)
    requires Inv(c, s) && i < |s.copies|
    ensures ValidMessage(c, s.copies[i].msg) && PlaceValid(c, s.copies[i]) && s.copies[i].msg.job in s.published
    ensures s.copies[i].msg.job in s.jobs && s.jobs[s.copies[i].msg.job] == s.copies[i].msg && s.copies[i].msg.job in s.records
  {
    assert CopyValid(c, s, s.copies[i]) && JobValid(c, s, s.copies[i].msg.job);
  }

  lemma KnownHolder(c: Config, s: State, i: nat)
    requires Inv(c, s) && HeldAt(s, i)
    ensures var copy := s.copies[i];
      && copy.place.queue == JobQueue(c, copy.msg, Main) && MayProcess(c, copy.msg, copy.place.worker)
      && PcValid(c, Attempt(copy), copy.place.pc)
  {
    assert CopyValid(c, s, s.copies[i]);
  }

  lemma KnownStray(c: Config, s: State, z: nat)
    requires Inv(c, s) && z < |s.strays|
    ensures StrayValid(c, s, s.strays[z])
  {
  }

  lemma MessageTarget(c: Config, m: Message)
    requires ValidConfig(c) && ValidMessage(c, m)
    ensures ValidTarget(m.target)
  {
  }

  /** A queue of a job is one of its own three, whatever the base name. */
  lemma JobQueueRoles(c: Config, m: Message, role1: Role, role2: Role)
    requires ValidConfig(c) && ValidMessage(c, m)
    ensures JobQueue(c, m, role1) == JobQueue(c, m, role2) <==> role1 == role2
  {
    NamesDistinct(c.base, ResolveRouting(m.strategy), m.target, role1, ResolveRouting(m.strategy), m.target, role2);
  }

  lemma AbsQueue(c: Config, copy: Copy, role: Role)
    requires ValidConfig(c) && ValidMessage(c, copy.msg)
    requires copy.place == InQueue(JobQueue(c, copy.msg, role))
    ensures AbsPlace(c, copy) == match role { case Main => R.Ready case Retry => R.Delayed case DeadLetter => R.Parked }
  {
    JobQueueRoles(c, copy.msg, role, Main);
    JobQueueRoles(c, copy.msg, role, Retry);
  }

  /** Only the main queue of a job has listeners, and only workers that may process it. */
  lemma ListenersMayProcess(c: Config, m: Message, role: Role, w: string)
    requires ValidConfig(c) && ValidMessage(c, m) && w in c.workers
    ensures Listens(c, w, JobQueue(c, m, role)) <==> role == Main && MayProcess(c, m, w)
  {
    SubscriptionExact(c.base, w, c.workers[w].allowed, ResolveRouting(m.strategy), m.target, role);
  }

  /** Only the retry queue of a job is dead-lettered, and it leads back to its main queue. */
  lemma ExpiryLeadsHome(c: Config, s: State, m: Message, role: Role)
    requires ValidConfig(c) && ValidMessage(c, m)
    requires JobQueue(c, m, role) in s.deadLetter && RouteValid(c, s, JobQueue(c, m, role))
    ensures role == Retry && s.deadLetter[JobQueue(c, m, role)] == JobQueue(c, m, Main)
  {
    var q := JobQueue(c, m, role);
    var r, t :| RouteOf(c, r, t, q) && s.deadLetter[q] == QueueName(c.base, r, t, Main);
    NamesDistinct(c.base, ResolveRouting(m.strategy), m.target, role, r, t, Retry);
    NamesDistinct(c.base, ResolveRouting(m.strategy), m.target, Main, r, t, Main);
  }

  // ---------------------------------------------------------------------------
  // Each action is a move of the retry machine
  // ---------------------------------------------------------------------------

  ghost predicate Refines(c: Config, s: State, a: Action) {
    && R.Legal(Params(c), Abs(c, s), MoveOf(c, s, a))
    && Abs(c, Apply(c, s, a)) == R.After(Params(c), Abs(c, s), MoveOf(c, s, a))
  }

  /** A change of copy m.i, possibly with one new copy, that looks like move m. */
  lemma LooksLike(c: Config, s: State, t: State, m: R.Move<JobId>, changed: Copy, added: seq<Copy>)
    requires !m.Publish? && !m.Idle? && m.i < |s.copies|
    requires R.Allows(Params(c), AbsCopy(c, s.copies[m.i]), m)
    requires t.copies == s.copies[m.i := changed] + added
    requires AbsCopy(c, changed) == R.Changed(AbsCopy(c, s.copies[m.i]), m)
    requires if m.HandOver? then |added| == 1 && AbsCopy(c, added[0]) == R.Successor(Params(c), AbsCopy(c, s.copies[m.i]))
             else added == []
    requires t.settled == if m.Return? then s.settled + {s.copies[m.i].msg.job} else s.settled
    ensures R.Legal(Params(c), Abs(c, s), m) && Abs(c, t) == R.After(Params(c), Abs(c, s), m)
  {
    AbsUpdate(c, s.copies, m.i, changed);
    if m.HandOver? {
      assert added == [added[0]];
      AbsAppend(c, s.copies[m.i := changed], added[0]);
    } else {
      assert s.copies[m.i := changed] + added == s.copies[m.i := changed];
    }
  }

  lemma AttemptInRange(c: Config, s: State, i: nat)
    requires Inv(c, s) && i < |s.copies|
    ensures 1 <= Attempt(s.copies[i]) <= c.maxDeliveryAttempts
  {
    assert R.SafeAt(Params(c), Abs(c, s), i);
  }

  lemma RefinesAck(c: Config, s: State, i: nat, env: Env)
    requires Enabled(c, s, Advance(i, env))
    requires s.copies[i].place.pc.Returned? || s.copies[i].place.pc.Sent?
    ensures Refines(c, s, Advance(i, env))
  {
    hide HandlerStep, Apply;
    AckFrame(c, s, i, env);
    var t := Apply(c, s, Advance(i, env));
    LooksLike(c, s, t, R.Ack(i), t.copies[i], []);
  }

  function Added(m: Message, e: Effect): seq<Copy> {
    if e.Send? then [NewCopy(m, Some(e.attempt), e.queue)] else []
  }

  function NewScrapes(m: Message, worker: string, e: Effect): seq<Scrape> {
    if e.Scraped? then ScrapeLog(m, worker, e.strategies) else []
  }

  function NewEvents(m: Message, e: Effect): seq<Event> {
    if e.Emit? then EventsFor(m, e.status, FromWorker) else []
  }

  function NewRecords(records: map<JobId, Status>, m: Message, e: Effect): map<JobId, Status> {
    if e.SetStatus? && m.job in records then records[m.job := e.status] else records
  }

  function NewResults(results: map<JobId, Status>, m: Message, e: Effect): map<JobId, Status> {
    if e.SaveResult? then results[m.job := e.status] else results
  }

  /** What a step of a process call or of the catch block does, part by part. */
  lemma PerformFrame(s: State, m: Message, worker: string, e: Effect)
    ensures var t := Perform(s, m, worker, e);
      && t.copies == s.copies + Added(m, e)
      && t.deadLetter == s.deadLetter && t.jobs == s.jobs && t.pending == s.pending && t.published == s.published
      && t.records.Keys == s.records.Keys && t.cancels == s.cancels && t.strays == s.strays && t.settled == s.settled
      && t.scrapes == s.scrapes + NewScrapes(m, worker, e) && t.events == s.events + NewEvents(m, e)
      && t.records == NewRecords(s.records, m, e) && t.results == NewResults(s.results, m, e)
  {
  }

  /** The shape of a handler step other than the ack. */
  lemma AdvanceFrame(c: Config, s: State, i: nat, env: Env)
    requires Enabled(c, s, Advance(i, env))
    requires !s.copies[i].place.pc.Returned? && !s.copies[i].place.pc.Sent?
    ensures var copy := s.copies[i];
      var next := StepOf(c, s, i, env);
      var t := Apply(c, s, Advance(i, env));
      && t.copies == s.copies[i := copy.(place := copy.place.(pc := next.pc))] + Added(copy.msg, next.effect)
      && t.deadLetter == s.deadLetter && t.jobs == s.jobs && t.pending == s.pending && t.published == s.published
      && t.records.Keys == s.records.Keys && t.cancels == s.cancels && t.strays == s.strays
      && t.scrapes == s.scrapes + NewScrapes(copy.msg, copy.place.worker, next.effect)
      && t.events == s.events + NewEvents(copy.msg, next.effect)
      && t.records == NewRecords(s.records, copy.msg, next.effect) && t.results == NewResults(s.results, copy.msg, next.effect)
      && t.settled == if next.pc.Returned? then s.settled + {copy.msg.job} else s.settled
  {
    var copy := s.copies[i];
    var next := StepOf(c, s, i, env);
    PerformFrame(MoveTo(s, i, copy.place.(pc := next.pc)), copy.msg, copy.place.worker, next.effect);
  }

  lemma AckFrame(c: Config, s: State, i: nat, env: Env)
    requires Enabled(c, s, Advance(i, env))
    requires s.copies[i].place.pc.Returned? || s.copies[i].place.pc.Sent?
    ensures var pc := s.copies[i].place.pc;
      Apply(c, s, Advance(i, env)) == MoveTo(s, i, Acked(if pc.Returned? then Settled(pc.status) else HandedOver))
  {
    hide HandlerStep, Perform;
  }

  /** Actions of the broker, throws and expiring watchdogs: they move one copy. */
  predicate MovesCopy(a: Action) {
    a.Deliver? || a.Expire? || a.Requeue? || a.Fault? || a.Watchdog?
  }

  function NewPlace(c: Config, s: State, a: Action): Place
    requires MovesCopy(a) && Enabled(c, s, a)
  {
    var copy := s.copies[a.i];
    match a
    case Deliver(_, w) => Held(copy.place.queue, w, ReadRecord)
    case Expire(_) => InQueue(s.deadLetter[copy.place.queue])
    case Requeue(_) => InQueue(copy.place.queue)
    case Fault(_) => copy.place.(pc := Catch(c, Attempt(copy)))
    case Watchdog(_) => copy.place.(pc := Catch(c, Attempt(copy)))
  }

  lemma MoveFrame(c: Config, s: State, a: Action)
    requires MovesCopy(a) && Enabled(c, s, a)
    ensures var copy := s.copies[a.i];
      var moved := copy.(place := NewPlace(c, s, a), deliveries := copy.deliveries + if a.Deliver? then 1 else 0);
      var strays :=
        if a.Watchdog? then s.strays + [Stray(copy.msg, copy.place.worker, Attempt(copy), copy.place.pc)] else s.strays;
      Apply(c, s, a) == s.(copies := s.copies[a.i := moved], strays := strays)
  {
    hide HandlerStep, DoAdvance, DoStrayStep, DoPublish, Listens, Catch;
  }

  /** Cancel calls do not touch jobs, copies and strays; disabled actions do nothing. */
  lemma CancelCallFrame(c: Config, s: State, a: Action)
    requires a.CancelRead? || a.CancelStep? || !Enabled(c, s, a)
    ensures var t := Apply(c, s, a);
      && t == s.(cancels := t.cancels, records := t.records, results := t.results, events := t.events)
      && t.records.Keys == s.records.Keys
      && (!Enabled(c, s, a) ==> t == s)
  {
    hide HandlerStep, DoAdvance, DoStrayStep, DoPublish, Listens;
  }

  lemma StepFits(c: Config, copy: Copy, i: nat, next: Pc)
    requires copy.place.Held? && !copy.place.pc.Returned? && !copy.place.pc.Sent?
    requires Rank(next) < Rank(copy.place.pc)
    ensures R.Allows(Params(c), AbsCopy(c, copy), StepMove(i, next))
    ensures AbsCopy(c, copy.(place := copy.place.(pc := next))) == R.Changed(AbsCopy(c, copy), StepMove(i, next))
  {
  }

  lemma RefinesHandlerStep(c: Config, s: State, i: nat, env: Env)
    requires Enabled(c, s, Advance(i, env)) && !s.copies[i].place.pc.Returned? && !s.copies[i].place.pc.Sent?
    requires ValidConfig(c) && Inv(c, s)
    ensures Refines(c, s, Advance(i, env))
  {
    hide HandlerStep, Apply, Abs, AbsCopy, Inv, JobQueue, PcValid;
    var copy := s.copies[i];
    var next := StepOf(c, s, i, env);
    KnownMessage(c, s, i);
    KnownHolder(c, s, i);
    AttemptInRange(c, s, i);
    RankFalls(c, copy.msg, Attempt(copy), c.workers[copy.place.worker], copy.place.pc, RecordOf(s, copy.msg.job), env);
    AdvanceFrame(c, s, i, env);
    StepFits(c, copy, i, next.pc);
    if next.effect.Send? {
      SentCopy(c, copy, next.effect);
    }
    LooksLike(c, s, Apply(c, s, Advance(i, env)), AdvanceMove(c, s, i, env),
              copy.(place := copy.place.(pc := next.pc)), Added(copy.msg, next.effect));
  }

  lemma RefinesAdvance(c: Config, s: State, i: nat, env: Env)
    requires ValidConfig(c) && Inv(c, s) && Enabled(c, s, Advance(i, env))
    ensures Refines(c, s, Advance(i, env))
  {
    if s.copies[i].place.pc.Returned? || s.copies[i].place.pc.Sent? {
      RefinesAck(c, s, i, env);
    } else {
      RefinesHandlerStep(c, s, i, env);
    }
  }

  /** What the catch block publishes is the successor the retry machine asks for. */
  lemma SentCopy(c: Config, copy: Copy, e: Effect)
    requires ValidConfig(c) && ValidMessage(c, copy.msg)
    requires copy.place.Held? && PcValid(c, Attempt(copy), copy.place.pc) && e.Send? && 1 <= Attempt(copy) <= c.maxDeliveryAttempts
    requires (copy.place.pc == SendRetry && e == Send(JobQueue(c, copy.msg, Retry), Attempt(copy) + 1))
      || (copy.place.pc == SendDead && e == Send(JobQueue(c, copy.msg, DeadLetter), Attempt(copy)))
    ensures AbsCopy(c, NewCopy(copy.msg, Some(e.attempt), e.queue)) == R.Successor(Params(c), AbsCopy(c, copy))
  {
    AbsQueue(c, NewCopy(copy.msg, Some(e.attempt), e.queue), if copy.place.pc == SendRetry then Retry else DeadLetter);
  }

  lemma RefinesDeliver(c: Config, s: State, i: nat, w: string)
    requires ValidConfig(c) && Inv(c, s) && Enabled(c, s, Deliver(i, w))
    ensures Refines(c, s, Deliver(i, w))
    ensures s.copies[i].place.queue == JobQueue(c, s.copies[i].msg, Main) && MayProcess(c, s.copies[i].msg, w)
  {
    hide HandlerStep, Apply, Inv, Subscribed, JobQueue;
    var copy := s.copies[i];
    KnownMessage(c, s, i);
    var role :| copy.place.queue == JobQueue(c, copy.msg, role);
    AbsQueue(c, copy, role);
    ListenersMayProcess(c, copy.msg, role, w);
    MoveFrame(c, s, Deliver(i, w));
    var t := Apply(c, s, Deliver(i, w));
    LooksLike(c, s, t, R.Deliver(i, TOP), t.copies[i], []);
  }

  lemma RefinesExpire(c: Config, s: State, i: nat)
    requires ValidConfig(c) && Inv(c, s) && Enabled(c, s, Expire(i))
    ensures Refines(c, s, Expire(i))
    ensures s.copies[i].place.queue == JobQueue(c, s.copies[i].msg, Retry)
    ensures NewPlace(c, s, Expire(i)) == InQueue(JobQueue(c, s.copies[i].msg, Main))
  {
    hide HandlerStep, Apply, QueueName;
    var copy := s.copies[i];
    assert CopyValid(c, s, copy) && JobValid(c, s, copy.msg.job);
    var role :| copy.place.queue == JobQueue(c, copy.msg, role);
    AbsQueue(c, copy, role);
    ExpiryLeadsHome(c, s, copy.msg, role);
    MoveFrame(c, s, Expire(i));
    var t := Apply(c, s, Expire(i));
    AbsQueue(c, t.copies[i], Main);
    LooksLike(c, s, t, R.Expire(i), t.copies[i], []);
  }

  lemma RefinesRequeue(c: Config, s: State, i: nat)
    requires ValidConfig(c) && Inv(c, s) && Enabled(c, s, Requeue(i))
    ensures Refines(c, s, Requeue(i))
  {
    hide HandlerStep, Apply, Inv, QueueName;
    KnownMessage(c, s, i);
    MoveFrame(c, s, Requeue(i));
    var t := Apply(c, s, Requeue(i));
    AbsQueue(c, t.copies[i], Main);
    LooksLike(c, s, t, R.Requeue(i), t.copies[i], []);
  }

  lemma RefinesThrow(c: Config, s: State, a: Action)
    requires Enabled(c, s, a) && (a.Fault? || a.Watchdog?)
    ensures Refines(c, s, a)
  {
    hide HandlerStep, Apply;
    MoveFrame(c, s, a);
    var t := Apply(c, s, a);
    LooksLike(c, s, t, MoveOf(c, s, a), t.copies[a.i], []);
  }

  lemma RefinesPublish(c: Config, s: State, j: JobId)
    requires ValidConfig(c) && Inv(c, s) && Enabled(c, s, Publish(j))
    ensures Refines(c, s, Publish(j))
  {
    hide HandlerStep, Apply;
    ApiActs(c, s, Publish(j));
    var m := s.jobs[j];
    assert JobValid(c, s, j);
    var first := NewCopy(m, None, JobQueue(c, m, Main));
    AbsQueue(c, first, Main);
    AbsAppend(c, s.copies, first);
  }

  lemma StrayNeverSends(c: Config, m: Message, attempt: nat, w: Worker, pc: Pc, record: Option<Status>, env: Env)
    requires InProcess(pc)
    ensures !HandlerStep(c, m, attempt, w, pc, record, env).effect.Send?
  {
  }

  lemma RefinesIdle(c: Config, s: State, a: Action)
    requires a.Record? || a.AnswerCached? || a.CancelRead? || a.CancelStep? || a.StrayStep? || !Enabled(c, s, a)
    ensures Refines(c, s, a)
  {
    hide HandlerStep, Apply;
    if !Enabled(c, s, a) || a.CancelRead? || a.CancelStep? {
      CancelCallFrame(c, s, a);
    } else if a.StrayStep? {
      StrayFrame(c, s, a.z, a.env);
    } else {
      ApiActs(c, s, a);
    }
  }

  lemma RefinesAction(c: Config, s: State, a: Action)
    requires ValidConfig(c) && Inv(c, s)
    ensures Refines(c, s, a)
  {
    hide HandlerStep, Apply, Inv, Refines;
    if !Enabled(c, s, a) {
      RefinesIdle(c, s, a);
    } else {
      match a
      case Publish(j) => RefinesPublish(c, s, j);
      case Deliver(i, w) => RefinesDeliver(c, s, i, w);
      case Expire(i) => RefinesExpire(c, s, i);
      case Requeue(i) => RefinesRequeue(c, s, i);
      case Fault(_) => RefinesThrow(c, s, a);
      case Watchdog(_) => RefinesThrow(c, s, a);
      case Advance(i, env) => RefinesAdvance(c, s, i, env);
      case _ => RefinesIdle(c, s, a);
    }
  }

  // ---------------------------------------------------------------------------
  // The invariant holds in every reachable state
  // ---------------------------------------------------------------------------

  ghost predicate SameJobs(s: State, t: State) {
    && t.jobs == s.jobs && t.pending == s.pending && t.published == s.published
    && t.deadLetter == s.deadLetter && t.records.Keys == s.records.Keys
  }

  /** Jobs, publications and records only accumulate. */
  ghost predicate Extends(s: State, t: State) {
    && (forall j :: j in s.jobs ==> j in t.jobs && t.jobs[j] == s.jobs[j])
    && s.published <= t.published
    && s.records.Keys <= t.records.Keys
  }

  /** Workers and the broker leave jobs and routes alone. */
  lemma WorkerFrame(c: Config, s: State, a: Action)
    requires !a.Record? && !a.AnswerCached? && !a.Publish?
    ensures SameJobs(s, Apply(c, s, a))
    ensures !a.Watchdog? && !a.StrayStep? ==> Apply(c, s, a).strays == s.strays
  {
    hide HandlerStep, Apply;
    if a.Advance? && Enabled(c, s, a) {
      var pc := s.copies[a.i].place.pc;
      if pc.Returned? || pc.Sent? { AckFrame(c, s, a.i, a.env); } else { AdvanceFrame(c, s, a.i, a.env); }
    } else if a.StrayStep? && Enabled(c, s, a) {
      StrayFrame(c, s, a.z, a.env);
    } else if MovesCopy(a) && Enabled(c, s, a) {
      MoveFrame(c, s, a);
    } else {
      CancelCallFrame(c, s, a);
    }
  }


  lemma ApiActs(c: Config, s: State, a: Action)
    requires Enabled(c, s, a)
    ensures a.Record? ==> Apply(c, s, a) == DoRecord(s, a.m)
    ensures a.AnswerCached? ==> Apply(c, s, a) == DoAnswerCached(s, a.m)
    ensures a.Publish? ==> Apply(c, s, a) == DoPublish(c, s, a.j)
    ensures a.CancelRead? ==> Apply(c, s, a) == s.(cancels := s.cancels + [CancelCall(a.j, WriteStatus)])
    ensures a.CancelStep? ==> Apply(c, s, a) == DoCancelStep(s, a.k)
  {
    hide HandlerStep, DoAdvance, DoStrayStep, DoRecord, DoAnswerCached, DoPublish, DoCancelStep, AcceptableTarget;
  }

  lemma ApiFrame(c: Config, s: State, a: Action)
    requires a.Record? || a.AnswerCached? || a.Publish?
    ensures Extends(s, Apply(c, s, a))
    ensures Apply(c, s, a).strays == s.strays
    ensures !a.Publish? ==> Apply(c, s, a).copies == s.copies
    ensures !a.Publish? ==> Apply(c, s, a).published == s.published && Apply(c, s, a).deadLetter == s.deadLetter
  {
    hide HandlerStep, Apply;
    if Enabled(c, s, a) { ApiActs(c, s, a); } else { CancelCallFrame(c, s, a); }
  }

  lemma Grows(c: Config, s: State, a: Action)
    ensures Extends(s, Apply(c, s, a))
    ensures !a.Publish? ==> Apply(c, s, a).published == s.published && Apply(c, s, a).deadLetter == s.deadLetter
  {
    if a.Record? || a.AnswerCached? || a.Publish? {
      ApiFrame(c, s, a);
    } else {
      WorkerFrame(c, s, a);
    }
  }

  function StrayNext(c: Config, s: State, z: nat, env: Env): Next
    requires z < |s.strays| && s.strays[z].worker in c.workers
  {
    var stray := s.strays[z];
    HandlerStep(c, stray.msg, stray.attempt, c.workers[stray.worker], stray.pc, RecordOf(s, stray.msg.job), env)
  }

  lemma StrayFrame(c: Config, s: State, z: nat, env: Env)
    requires Enabled(c, s, StrayStep(z, env))
    ensures var stray := s.strays[z];
      var t := Apply(c, s, StrayStep(z, env));
      && t.copies == s.copies && t.settled == s.settled
      && t.deadLetter == s.deadLetter && t.jobs == s.jobs && t.pending == s.pending && t.published == s.published
      && t.records.Keys == s.records.Keys && t.cancels == s.cancels
      && (var next := StrayNext(c, s, z, env);
          && t.strays == s.strays[z := stray.(pc := next.pc)]
          && t.scrapes == s.scrapes + NewScrapes(stray.msg, stray.worker, next.effect)
          && t.events == s.events + NewEvents(stray.msg, next.effect)
          && t.records == NewRecords(s.records, stray.msg, next.effect)
          && t.results == NewResults(s.results, stray.msg, next.effect))
  {
    var stray := s.strays[z];
    var w := c.workers[stray.worker];
    var next := StrayNext(c, s, z, env);
    StrayNeverSends(c, stray.msg, stray.attempt, w, stray.pc, RecordOf(s, stray.msg.job), env);
    PerformFrame(s.(strays := s.strays[z := stray.(pc := next.pc)]), stray.msg, stray.worker, next.effect);
    assert s.copies + [] == s.copies;
  }

  lemma PcStaysValid(c: Config, m: Message, attempt: nat, w: Worker, pc: Pc, record: Option<Status>, env: Env)
    requires PcValid(c, attempt, pc)
    ensures PcValid(c, attempt, HandlerStep(c, m, attempt, w, pc, record, env).pc)
  {
  }

  lemma CopiesStayValid(c: Config, s: State, a: Action)
    requires ValidConfig(c) && Inv(c, s)
    ensures forall i :: 0 <= i < |Apply(c, s, a).copies| ==> CopyValid(c, Apply(c, s, a), Apply(c, s, a).copies[i])
  {
    hide HandlerStep, Apply;
    var t := Apply(c, s, a);
    Grows(c, s, a);
    forall i | 0 <= i < |t.copies|
      ensures CopyValid(c, t, t.copies[i])
    {
      if i < |s.copies| {
        assert CopyValid(c, s, s.copies[i]);
        OldPlaceStaysValid(c, s, a, i);
      } else {
        NewPlaceValid(c, s, a);
      }
    }
  }

  /** Copy k alone changed its place, and validly. */
  ghost predicate MovedValidly(c: Config, s: State, t: State, k: nat) {
    && k < |s.copies| <= |t.copies|
    && t.copies[k].msg == s.copies[k].msg && PlaceValid(c, t.copies[k])
    && (forall i :: 0 <= i < |s.copies| && i != k ==> t.copies[i] == s.copies[i])
  }

  lemma QueueMoveValid(c: Config, s: State, a: Action)
    requires ValidConfig(c) && Inv(c, s) && Enabled(c, s, a) && (a.Deliver? || a.Expire? || a.Requeue?)
    ensures MovedValidly(c, s, Apply(c, s, a), a.i)
  {
    hide HandlerStep, Apply, PlaceValid;
    MoveFrame(c, s, a);
    NewPlaceIsValid(c, s, a);
  }

  lemma NewPlaceIsValid(c: Config, s: State, a: Action)
    requires ValidConfig(c) && Inv(c, s) && Enabled(c, s, a) && (a.Deliver? || a.Expire? || a.Requeue?)
    ensures var copy := s.copies[a.i];
      forall n: nat :: PlaceValid(c, copy.(place := NewPlace(c, s, a), deliveries := n))
  {
    hide HandlerStep, Apply, Refines, Inv, JobQueue;
    KnownMessage(c, s, a.i);
    var m := s.copies[a.i].msg;
    if a.Deliver? { RefinesDeliver(c, s, a.i, a.w); }
    if a.Expire? { RefinesExpire(c, s, a.i); }
    assert exists role :: JobQueue(c, m, Main) == JobQueue(c, m, role);
  }

  lemma ThrowValid(c: Config, s: State, a: Action)
    requires ValidConfig(c) && Inv(c, s) && Enabled(c, s, a) && (a.Fault? || a.Watchdog?)
    ensures MovedValidly(c, s, Apply(c, s, a), a.i)
  {
    hide HandlerStep, Apply, Inv;
    KnownMessage(c, s, a.i);
    MoveFrame(c, s, a);
  }

  lemma OtherActionsKeepCopies(c: Config, s: State, a: Action)
    requires a.Record? || a.AnswerCached? || a.CancelRead? || a.CancelStep? || a.StrayStep? || !Enabled(c, s, a)
    ensures Apply(c, s, a).copies == s.copies
  {
    hide HandlerStep, Apply;
    if a.Record? || a.AnswerCached? {
      ApiFrame(c, s, a);
    } else if a.StrayStep? && Enabled(c, s, a) {
      StrayFrame(c, s, a.z, a.env);
    } else {
      CancelCallFrame(c, s, a);
    }
  }

  lemma OldPlaceStaysValid(c: Config, s: State, a: Action, i: nat)
    requires ValidConfig(c) && Inv(c, s) && i < |s.copies|
    ensures var t := Apply(c, s, a);
      i < |t.copies| && t.copies[i].msg == s.copies[i].msg && PlaceValid(c, t.copies[i])
  {
    hide HandlerStep, Apply;
    assert CopyValid(c, s, s.copies[i]);
    if a.Publish? && Enabled(c, s, a) {
      ApiActs(c, s, a);
    } else if !Enabled(c, s, a) || a.Record? || a.AnswerCached? || a.CancelRead? || a.CancelStep? || a.StrayStep? {
      OtherActionsKeepCopies(c, s, a);
    } else if a.Fault? || a.Watchdog? {
      ThrowValid(c, s, a);
    } else if a.Advance? {
      HeldStaysValid(c, s, a.i, a.env);
    } else {
      QueueMoveValid(c, s, a);
    }
  }

  lemma AckedStaysValid(c: Config, s: State, k: nat, env: Env)
    requires Inv(c, s) && Enabled(c, s, Advance(k, env))
    requires s.copies[k].place.pc.Returned? || s.copies[k].place.pc.Sent?
    ensures MovedValidly(c, s, Apply(c, s, Advance(k, env)), k)
  {
    hide HandlerStep, Apply, Inv;
    AckFrame(c, s, k, env);
  }

  lemma HeldStaysValid(c: Config, s: State, k: nat, env: Env)
    requires ValidConfig(c) && Inv(c, s) && Enabled(c, s, Advance(k, env))
    ensures MovedValidly(c, s, Apply(c, s, Advance(k, env)), k)
  {
    hide HandlerStep, Apply;
    var copy := s.copies[k];
    var pc := copy.place.pc;
    assert CopyValid(c, s, copy);
    if pc.Returned? || pc.Sent? {
      AckedStaysValid(c, s, k, env);
    } else {
      AdvanceFrame(c, s, k, env);
      PcStaysValid(c, copy.msg, Attempt(copy), c.workers[copy.place.worker], pc, RecordOf(s, copy.msg.job), env);
    }
  }

  lemma SentPlaceValid(c: Config, s: State, i: nat, env: Env)
    requires Enabled(c, s, Advance(i, env)) && !s.copies[i].place.pc.Returned? && !s.copies[i].place.pc.Sent?
    requires |Apply(c, s, Advance(i, env)).copies| > |s.copies|
    requires ValidConfig(c) && Inv(c, s)
    ensures var t := Apply(c, s, Advance(i, env));
      |t.copies| == |s.copies| + 1 && CopyValid(c, t, t.copies[|s.copies|])
  {
    hide HandlerStep, Apply;
    var copy := s.copies[i];
    assert CopyValid(c, s, copy);
    AdvanceFrame(c, s, i, env);
    RankFalls(c, copy.msg, Attempt(copy), c.workers[copy.place.worker], copy.place.pc, RecordOf(s, copy.msg.job), env);
  }

  lemma NewPlaceValid(c: Config, s: State, a: Action)
    requires ValidConfig(c) && Inv(c, s) && |Apply(c, s, a).copies| > |s.copies|
    ensures var t := Apply(c, s, a);
      |t.copies| == |s.copies| + 1 && CopyValid(c, t, t.copies[|s.copies|])
  {
    hide HandlerStep, Apply;
    if !Enabled(c, s, a) {
      CancelCallFrame(c, s, a);
    } else if a.Publish? {
      assert JobValid(c, s, a.j);
      ApiActs(c, s, a);
    } else if a.Advance? {
      if s.copies[a.i].place.pc.Returned? || s.copies[a.i].place.pc.Sent? { AckFrame(c, s, a.i, a.env); }
      SentPlaceValid(c, s, a.i, a.env);
    } else {
      SameCopyCount(c, s, a);
    }
  }

  lemma SameCopyCount(c: Config, s: State, a: Action)
    requires !a.Publish? && !a.Advance?
    ensures |Apply(c, s, a).copies| == |s.copies|
  {
    hide HandlerStep, Apply;
    if MovesCopy(a) && Enabled(c, s, a) { MoveFrame(c, s, a); } else { OtherActionsKeepCopies(c, s, a); }
  }

  lemma PublishedGrow(c: Config, s: State, a: Action)
    ensures forall j :: j in Apply(c, s, a).published <==> j in s.published || MoveOf(c, s, a) == R.Publish(j)
  {
    hide HandlerStep, Apply;
    Grows(c, s, a);
    if Enabled(c, s, a) { ApiActs(c, s, a); } else { CancelCallFrame(c, s, a); }
  }

  lemma KnownStaysPublished(c: Config, s: State, a: Action)
    requires ValidConfig(c) && Inv(c, s)
    ensures forall j :: j in Apply(c, s, a).published <==> R.Known(Abs(c, Apply(c, s, a)), j)
  {
    hide HandlerStep, Apply, Abs, MoveOf, R.Known;
    RefinesAction(c, s, a);
    PublishedGrow(c, s, a);
    forall j ensures j in Apply(c, s, a).published <==> R.Known(Abs(c, Apply(c, s, a)), j) {
      R.KnownAfter(Params(c), Abs(c, s), MoveOf(c, s, a), j);
    }
  }

  ghost predicate JobsValid(c: Config, s: State) {
    && (forall j :: j in s.pending || j in s.published ==> JobValid(c, s, j))
    && (forall j :: j in s.jobs ==> s.jobs[j].job == j && j in s.records)
    && (forall j :: j in s.pending ==> j !in s.published)
  }

  lemma SameJobsValid(c: Config, s: State, t: State)
    requires JobsValid(c, s) && SameJobs(s, t)
    ensures JobsValid(c, t)
  {
    forall j | j in t.pending || j in t.published
      ensures JobValid(c, t, j)
    {
      assert JobValid(c, s, j);
    }
  }

  lemma PublishJobsValid(c: Config, s: State, j: JobId)
    requires JobsValid(c, s) && Enabled(c, s, Publish(j))
    ensures JobsValid(c, DoPublish(c, s, j))
  {
    hide JobQueue, ValidMessage;
    var t := DoPublish(c, s, j);
    forall k | k in t.pending || k in t.published
      ensures JobValid(c, t, k)
    {
      assert JobValid(c, s, k);
    }
  }

  lemma NewJobsValid(c: Config, s: State, t: State, m: Message)
    requires JobsValid(c, s) && m.job !in s.jobs && t.jobs == s.jobs[m.job := m] && t.published == s.published
    requires t.pending == s.pending || (t.pending == s.pending + {m.job} && ValidMessage(c, m))
    requires t.records.Keys == s.records.Keys + {m.job}
    ensures JobsValid(c, t)
  {
    hide ValidMessage;
    forall j | j in t.pending || j in t.published
      ensures JobValid(c, t, j)
    {
      assert j in s.pending || j in s.published ==> JobValid(c, s, j);
    }
  }

  lemma JobsStayValid(c: Config, s: State, a: Action)
    requires JobsValid(c, s)
    ensures JobsValid(c, Apply(c, s, a))
  {
    hide HandlerStep, Apply;
    var t := Apply(c, s, a);
    if a.Publish? && Enabled(c, s, a) {
      ApiActs(c, s, a);
      PublishJobsValid(c, s, a.j);
    } else if (a.Record? || a.AnswerCached?) && Enabled(c, s, a) {
      ApiActs(c, s, a);
      NewJobsValid(c, s, t, a.m);
    } else {
      if a.Record? || a.AnswerCached? || a.Publish? { CancelCallFrame(c, s, a); } else { WorkerFrame(c, s, a); }
      SameJobsValid(c, s, t);
    }
  }

  lemma RoutesStayValid(c: Config, s: State, a: Action)
    requires ValidConfig(c) && Inv(c, s)
    ensures forall q :: q in Apply(c, s, a).deadLetter ==> RouteValid(c, Apply(c, s, a), q)
  {
    hide HandlerStep, Apply;
    var t := Apply(c, s, a);
    Grows(c, s, a);
    forall q | q in t.deadLetter
      ensures RouteValid(c, t, q)
    {
      if a.Publish? && Enabled(c, s, a) {
        ApiActs(c, s, a);
        PublishedRoutes(c, s, a.j, q);
      } else {
        if a.Publish? { CancelCallFrame(c, s, a); }
        assert RouteValid(c, s, q);
      }
    }
  }

  lemma PublishedRoutes(c: Config, s: State, j: JobId, q: string)
    requires ValidConfig(c) && Inv(c, s) && Enabled(c, s, Publish(j))
    requires q in DoPublish(c, s, j).deadLetter
    ensures RouteValid(c, DoPublish(c, s, j), q)
  {
    var m := s.jobs[j];
    assert JobValid(c, s, j);
    var r := ResolveRouting(m.strategy);
    if q == JobQueue(c, m, Retry) {
      MessageTarget(c, m);
      assert RouteOf(c, r, m.target, q);
    } else {
      assert RouteValid(c, s, q);
    }
  }

  lemma StraysStayValid(c: Config, s: State, a: Action)
    requires ValidConfig(c) && Inv(c, s)
    ensures forall z :: 0 <= z < |Apply(c, s, a).strays| ==> StrayValid(c, Apply(c, s, a), Apply(c, s, a).strays[z])
  {
    hide HandlerStep, Apply;
    var t := Apply(c, s, a);
    Grows(c, s, a);
    forall z | 0 <= z < |t.strays|
      ensures StrayValid(c, t, t.strays[z])
    {
      StrayStaysValid(c, s, a, z);
    }
  }

  lemma StrayStaysValid(c: Config, s: State, a: Action, z: nat)
    requires ValidConfig(c) && Inv(c, s) && z < |Apply(c, s, a).strays|
    requires Extends(s, Apply(c, s, a))
    ensures StrayValid(c, Apply(c, s, a), Apply(c, s, a).strays[z])
  {
    hide HandlerStep, Apply, Inv, JobQueue, MayProcess;
    if z < |s.strays| { KnownStray(c, s, z); }
    if Enabled(c, s, a) && a.Watchdog? {
      MoveFrame(c, s, a);
      KnownMessage(c, s, a.i);
      KnownHolder(c, s, a.i);
    } else if Enabled(c, s, a) && a.StrayStep? {
      StrayFrame(c, s, a.z, a.env);
    } else if !Enabled(c, s, a) {
      CancelCallFrame(c, s, a);
    } else {
      if a.Record? || a.AnswerCached? || a.Publish? { ApiFrame(c, s, a); } else { WorkerFrame(c, s, a); }
    }
  }

  lemma InvStep(c: Config, s: State, a: Action)
    requires ValidConfig(c) && Inv(c, s)
    ensures Inv(c, Apply(c, s, a))
  {
    CopiesStayValid(c, s, a);
    JobsStayValid(c, s, a);
    RoutesStayValid(c, s, a);
    StraysStayValid(c, s, a);
    KnownStaysPublished(c, s, a);
    RefinesAction(c, s, a);
    R.SafeStep(Params(c), Abs(c, s), MoveOf(c, s, a));
  }

  lemma {:induction false} InvRun(c: Config, s: State, acts: seq<Action>)
    requires ValidConfig(c) && Inv(c, s)
    ensures Inv(c, Run(c, s, acts))
    decreases |acts|
  {
    if acts != [] {
      InvStep(c, s, acts[0]);
      InvRun(c, Apply(c, s, acts[0]), acts[1..]);
    }
  }

  lemma InvInit(c: Config)
    ensures Inv(c, INIT)
  {
  }

  // ---------------------------------------------------------------------------
  // Main results for every run
  // ---------------------------------------------------------------------------

  /** In every reachable state, connection losses, faults and watchdog expiries included,
      a published job has a copy in one of its own queues or with a worker, or one of its
      process calls returned normally. */
  lemma NoJobLost(c: Config, acts: seq<Action>, j: JobId)
    requires ValidConfig(c) && j in Run(c, INIT, acts).published
    ensures var s := Run(c, INIT, acts);
      j in s.settled || exists i :: 0 <= i < |s.copies| && s.copies[i].msg.job == j && OnTheWay(c, s.copies[i])
  {
    var s := Run(c, INIT, acts);
    InvInit(c);
    InvRun(c, INIT, acts);
    R.NoLoss(Params(c), Abs(c, s), j);
    if j !in s.settled {
      var i :| 0 <= i < |Abs(c, s).copies| && Abs(c, s).copies[i].key == j && !Abs(c, s).copies[i].place.Acked?;
      assert CopyValid(c, s, s.copies[i]);
      assert OnTheWay(c, s.copies[i]);
    }
  }

  ghost predicate OnTheWay(c: Config, copy: Copy) {
    match copy.place
    case InQueue(q) => exists role :: q == JobQueue(c, copy.msg, role)
    case Held(q, w, _) => q == JobQueue(c, copy.msg, Main) && MayProcess(c, copy.msg, w)
    case Acked(_) => false
  }

  /** Attempts stay in range, and a dead-lettered copy used up its attempts. */
  lemma AttemptsInRange(c: Config, acts: seq<Action>, i: nat)
    requires ValidConfig(c) && i < |Run(c, INIT, acts).copies|
    ensures var copy := Run(c, INIT, acts).copies[i];
      && 1 <= Attempt(copy) <= c.maxDeliveryAttempts
      && (copy.place == InQueue(JobQueue(c, copy.msg, DeadLetter)) ==> Attempt(copy) == c.maxDeliveryAttempts)
  {
    var s := Run(c, INIT, acts);
    var copy := s.copies[i];
    InvInit(c);
    InvRun(c, INIT, acts);
    assert R.SafeAt(Params(c), Abs(c, s), i);
    assert CopyValid(c, s, copy) && JobValid(c, s, copy.msg.job);
    if copy.place == InQueue(JobQueue(c, copy.msg, DeadLetter)) {
      AbsQueue(c, copy, DeadLetter);
    }
  }

  /** Retries stay on a job's own three queues, and only a worker that allows the job's
      strategy and is its target, if it has one, ever holds a copy; a worker whose id
      sanitizes like the target's counts as the target here. */
  lemma WorkerAffinity(c: Config, acts: seq<Action>, i: nat)
    requires ValidConfig(c) && i < |Run(c, INIT, acts).copies|
    ensures var copy := Run(c, INIT, acts).copies[i];
      && (copy.place.InQueue? ==> exists role :: copy.place.queue == JobQueue(c, copy.msg, role))
      && (copy.place.Held? ==> MayProcess(c, copy.msg, copy.place.worker))
  {
    InvInit(c);
    InvRun(c, INIT, acts);
    assert CopyValid(c, Run(c, INIT, acts), Run(c, INIT, acts).copies[i]);
  }

  /** In no run does any worker but its target hold a copy of the message. */
  ghost predicate OnlyItsTarget(c: Config, m: Message) {
    forall acts, i: nat :: HoldsAt(c, acts, i, m) ==> Some(Run(c, INIT, acts).copies[i].place.worker) == m.target
  }

  ghost predicate HoldsAt(c: Config, acts: seq<Action>, i: nat, m: Message) {
    var s := Run(c, INIT, acts);
    i < |s.copies| && s.copies[i].msg == m && s.copies[i].place.Held?
  }

  lemma HeldByAny(c: Config, m: Message, w: string) returns (acts: seq<Action>)
    requires ValidConfig(c) && AcceptableTarget(c, m) && MayProcess(c, m, w)
    ensures HoldsAt(c, acts, 0, m) && Run(c, INIT, acts).copies[0].place.worker == w
  {
    acts := [Record(m), Publish(m.job), Deliver(0, w)];
    RunThree(c, INIT, Record(m), Publish(m.job), Deliver(0, w));
    assert Apply(c, INIT, Record(m)) == DoRecord(INIT, m);
    assert Apply(c, DoRecord(INIT, m), Publish(m.job)) == DoPublish(c, DoRecord(INIT, m), m.job);
    ListenersMayProcess(c, m, Main, w);
    assert Enabled(c, DoPublish(c, DoRecord(INIT, m), m.job), Deliver(0, w));
  }

  /** Affinity is exact: a targeted job is only ever held by its target if and only if no
      other worker that allows its routing strategy has an id that sanitizes alike. */
  lemma OnlyItsTargetIff(c: Config, m: Message)
    requires ValidConfig(c) && AcceptableTarget(c, m) && m.target.Some?
    ensures OnlyItsTarget(c, m) <==> forall w :: MayProcess(c, m, w) ==> m.target == Some(w)
  {
    forall acts, i: nat | HoldsAt(c, acts, i, m) ensures MayProcess(c, m, Run(c, INIT, acts).copies[i].place.worker) {
      WorkerAffinity(c, acts, i);
    }
    forall w | OnlyItsTarget(c, m) && MayProcess(c, m, w) ensures m.target == Some(w) {
      var acts := HeldByAny(c, m, w);
      assert HoldsAt(c, acts, 0, m);
    }
  }
}
