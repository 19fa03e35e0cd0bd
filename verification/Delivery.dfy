/** The job delivery protocol as a state machine: the API, the broker, the record store and
    the workers, interleaved step by step. One step is one broker command, one record or
    result write, or one strategy loop. Every record update is a read and a write of the
    same record; it is one step here. */
module Delivery {
  import opened Common
  import opened QueueNames
  import L = ScrapeLoop

  type JobId = string

  datatype Status = Queued | Processing | Completed | Failed | Cancelled | Timeout

  datatype EventName = JobCompleted | JobFailed | JobCancelled | JobTimeout

  /** Only terminal statuses have a webhook event. */
  function ResolveEventName(s: Status): Option<EventName> {
    match s
    case Completed => Some(JobCompleted)
    case Failed => Some(JobFailed)
    case Cancelled => Some(JobCancelled)
    case Timeout => Some(JobTimeout)
    case Queued => None
    case Processing => None
  }

  datatype Message = Message(job: JobId, strategy: Strategy, target: Option<string>, useCache: bool,
                             maxRetries: nat, retryDelayMs: nat, webhook: bool)

  datatype Worker = Worker(allowed: seq<Routing>, defaultStrategy: Strategy)

  datatype Config = Config(base: string, workers: map<string, Worker>, maxDeliveryAttempts: nat)

  ghost predicate ValidConfig(c: Config) {
    && c.maxDeliveryAttempts >= 1
    && (forall w :: w in c.workers ==> WorkerId(w) && c.workers[w].allowed != [])
  }

  /** Where a handler stands. Each constructor names the step it takes next. */
  datatype Pc =
    | ReadRecord
    | SkipResult | SkipEvent
    | MarkProcessing
    | LookupCache
    | HitStatus | HitResult | HitEvent
    | Execute
    | FailStatus | FailResult
    | DoneStatus | DoneResult | DoneEvent | StoreCache
    | MarkIdle                    // everything is told; the heartbeat is next
    | Returned(status: Status)    // the call returned normally, ack is next
    | QueuedStatus | SendRetry
    | DeadStatus | DeadResult | DeadEvent | SendDead
    | Sent                        // the next copy is published, ack is next

  datatype Ending = Settled(status: Status) | HandedOver

  datatype Place =
    | InQueue(queue: string)
    | Held(queue: string, worker: string, pc: Pc)
    | Acked(how: Ending)

  /** header is the x-delivery-attempt header, body the deliveryAttempt field. */
  datatype Copy = Copy(msg: Message, header: Option<nat>, body: Option<nat>, place: Place, deliveries: nat)

  function NewCopy(m: Message, attempt: Option<nat>, queue: string): Copy {
    Copy(m, attempt, attempt, InQueue(queue), 0)
  }

  /** The header counts unless it is zero; without a header it is the first attempt, whatever
      the body says. */
  function CurrentAttempt(header: Option<nat>, body: Option<nat>): (r: nat)
    ensures header == None ==> r == 1
    ensures header.Some? && header.value >= 1 ==> r == header.value
    ensures header == Some(0) && body.Some? && body.value >= 1 ==> r == body.value
    ensures header == Some(0) && (body == None || body == Some(0)) ==> r == 1
  {
    var h := if header.Some? then header.value else 1;
    if h != 0 then h
    else if body.Some? && body.value != 0 then body.value
    else 1
  }

  function Attempt(copy: Copy): nat { CurrentAttempt(copy.header, copy.body) }

  datatype Source = FromWorker | FromApi

  datatype Event = Event(job: JobId, name: EventName, source: Source)

  datatype CancelPc = WriteStatus | WriteResult | PublishEvent | Done

  datatype CancelCall = CancelCall(job: JobId, pc: CancelPc)

  /** A process call that lost the race against the watchdog and still runs. */
  datatype Stray = Stray(msg: Message, worker: string, attempt: nat, pc: Pc)

  /** One executed strategy. */
  datatype Scrape = Scrape(job: JobId, worker: string, strategy: Routing)

  datatype State = State(
    copies: seq<Copy>,              // append-only; a copy is identified by its position
    deadLetter: map<string, string>,// dead-letter routing of the declared retry queues
    jobs: map<JobId, Message>,
    pending: set<JobId>,            // record saved, not published yet
    published: set<JobId>,
    records: map<JobId, Status>,
    results: map<JobId, Status>,
    events: seq<Event>,             // everything sent to the webhook queue
    cancels: seq<CancelCall>,
    strays: seq<Stray>,
    scrapes: seq<Scrape>,
    settled: set<JobId>)            // jobs with a process call that returned normally

  const INIT := State([], map[], map[], {}, {}, map[], map[], [], [], [], [], {})

  // ---------------------------------------------------------------------------
  // One step of the message handler
  // ---------------------------------------------------------------------------

  datatype Effect =
    | Nothing
    | SetStatus(status: Status)
    | SaveResult(status: Status)
    | Emit(status: Status)
    | Scraped(strategies: seq<Routing>)
    | Send(queue: string, attempt: nat)

  /** What the environment answers to a step: a cache hit, the strategies' results, and
      whether the reported method contains http-fallback. */
  datatype Env = Env(cacheHit: bool, rounds: seq<L.Round>, httpFallback: bool)

  datatype Next = Next(pc: Pc, effect: Effect)

  function JobQueue(c: Config, m: Message, role: Role): string {
    QueueName(c.base, ResolveRouting(m.strategy), m.target, role)
  }

  /** Where the catch block of the handler starts. */
  function Catch(c: Config, attempt: nat): Pc {
    if attempt < c.maxDeliveryAttempts then QueuedStatus else DeadStatus
  }

  function ExecuteStep(c: Config, m: Message, attempt: nat, w: Worker, env: Env): Next {
    var out := L.Scrape(L.ResolvePlan(m.strategy, w.defaultStrategy, w.allowed), m.maxRetries, m.retryDelayMs, env.rounds);
    var pc :=
      if out.verdict != L.Completed then FailStatus
      else if m.strategy == Fixed(Playwright) && env.httpFallback then Catch(c, attempt)
      else DoneStatus;
    Next(pc, Scraped(out.executed))
  }

  function HandlerStep(c: Config, m: Message, attempt: nat, w: Worker, pc: Pc, record: Option<Status>, env: Env): Next {
    match pc
    case ReadRecord => Next(if record == Some(Cancelled) then SkipResult else MarkProcessing, Nothing)
    case SkipResult => Next(SkipEvent, SaveResult(Cancelled))
    case SkipEvent => Next(Returned(Cancelled), Emit(Cancelled))
    case MarkProcessing =>
      Next(if StrategyAllowed(m.strategy, w.allowed) then LookupCache else Catch(c, attempt), SetStatus(Processing))
    case LookupCache => Next(if m.useCache && env.cacheHit then HitStatus else Execute, Nothing)
    case HitStatus => Next(HitResult, SetStatus(Completed))
    case HitResult => Next(HitEvent, SaveResult(Completed))
    case HitEvent => Next(MarkIdle, Emit(Completed))
    case Execute => ExecuteStep(c, m, attempt, w, env)
    case FailStatus => Next(FailResult, SetStatus(Failed))
    case FailResult => Next(Catch(c, attempt), SaveResult(Failed))
    case DoneStatus => Next(DoneResult, SetStatus(Completed))
    case DoneResult => Next(DoneEvent, SaveResult(Completed))
    case DoneEvent => Next(StoreCache, Emit(Completed))
    case StoreCache => Next(MarkIdle, Nothing)
    case MarkIdle => Next(Returned(Completed), Nothing)
    case QueuedStatus => Next(SendRetry, SetStatus(Queued))
    case SendRetry => Next(Sent, Send(JobQueue(c, m, Retry), attempt + 1))
    case DeadStatus => Next(DeadResult, SetStatus(Failed))
    case DeadResult => Next(DeadEvent, SaveResult(Failed))
    case DeadEvent => Next(SendDead, Emit(Failed))
    case SendDead => Next(Sent, Send(JobQueue(c, m, DeadLetter), attempt))
    case Returned(_) => Next(pc, Nothing)
    case Sent => Next(pc, Nothing)
  }

  /** Steps of the process call itself, as opposed to the catch block and the ack. */
  predicate InProcess(pc: Pc) {
    match pc
    case QueuedStatus => false
    case SendRetry => false
    case DeadStatus => false
    case DeadResult => false
    case DeadEvent => false
    case SendDead => false
    case Returned(_) => false
    case Sent => false
    case _ => true
  }

  /** How many handler steps are left at most. */
  function Rank(pc: Pc): nat {
    match pc
    case ReadRecord => 15
    case MarkProcessing => 14
    case LookupCache => 13
    case Execute => 12
    case DoneStatus => 11
    case DoneResult => 10
    case DoneEvent => 9
    case StoreCache => 8
    case MarkIdle => 7
    case HitStatus => 11
    case HitResult => 10
    case HitEvent => 9
    case SkipResult => 9
    case SkipEvent => 8
    case FailStatus => 8
    case FailResult => 7
    case DeadStatus => 6
    case DeadResult => 5
    case DeadEvent => 4
    case SendDead => 3
    case QueuedStatus => 6
    case SendRetry => 5
    case Returned(_) => 1
    case Sent => 1
  }

  const TOP := 15

  function EventsFor(m: Message, status: Status, source: Source): seq<Event> {
    var name := ResolveEventName(status);
    if m.webhook && name.Some? then [Event(m.job, name.value, source)] else []
  }

  function ScrapeLog(m: Message, worker: string, strategies: seq<Routing>): seq<Scrape> {
    seq(|strategies|, i requires 0 <= i < |strategies| => Scrape(m.job, worker, strategies[i]))
  }

  function Perform(s: State, m: Message, worker: string, effect: Effect): State {
    match effect
    case Nothing => s
    case SetStatus(status) => if m.job in s.records then s.(records := s.records[m.job := status]) else s
    case SaveResult(status) => s.(results := s.results[m.job := status])
    case Emit(status) => s.(events := s.events + EventsFor(m, status, FromWorker))
    case Scraped(strategies) => s.(scrapes := s.scrapes + ScrapeLog(m, worker, strategies))
    case Send(queue, attempt) =>
      s.(copies := s.copies + [NewCopy(m, Some(attempt), queue)])
  }

  function RecordOf(s: State, j: JobId): Option<Status> {
    if j in s.records then Some(s.records[j]) else None
  }

  function MoveTo(s: State, i: nat, place: Place): State
    requires i < |s.copies|
  {
    s.(copies := s.copies[i := s.copies[i].(place := place)])
  }

  // ---------------------------------------------------------------------------
  // Actions. An action that is not enabled changes nothing.
  // ---------------------------------------------------------------------------

  datatype Action =
    | Record(m: Message)              // API: save the record of a fresh job
    | AnswerCached(m: Message)        // API: answer a fresh job from the cache
    | Publish(j: JobId)               // API: send the message
    | CancelRead(j: JobId)            // API: cancel finds the record queued
    | CancelStep(k: nat)              // API: the next step of a cancel call
    | Deliver(i: nat, w: string)      // broker: hand a copy to a consumer
    | Expire(i: nat)                  // broker: dead-letter an expired retry copy
    | Requeue(i: nat)                 // broker: a connection is lost, the copy is unacked
    | Advance(i: nat, env: Env)       // worker: next step of the handler of copy i
    | Fault(i: nat)                   // worker: the next step of process throws
    | Watchdog(i: nat)                // worker: the watchdog expires
    | StrayStep(z: nat, env: Env)     // worker: next step of a process call that lost

  predicate AcceptableTarget(c: Config, m: Message) {
    m.target.Some? ==> m.target.value in c.workers && SupportsStrategy(c.workers[m.target.value].allowed, m.strategy)
  }

  predicate HeldAt(s: State, i: nat) {
    i < |s.copies| && s.copies[i].place.Held?
  }

  predicate Running(s: State, i: nat) {
    HeldAt(s, i) && InProcess(s.copies[i].place.pc)
  }

  predicate Listens(c: Config, w: string, queue: string) {
    w in c.workers && queue in Subscribed(c.base, w, c.workers[w].allowed)
  }

  predicate Enabled(c: Config, s: State, a: Action) {
    match a
    case Record(m) => m.job !in s.jobs && AcceptableTarget(c, m)
    case AnswerCached(m) => m.job !in s.jobs && m.useCache
    case Publish(j) => j in s.pending && j in s.jobs
    case CancelRead(j) => j in s.jobs && RecordOf(s, j) == Some(Queued)
    case CancelStep(k) => k < |s.cancels| && s.cancels[k].pc != Done && s.cancels[k].job in s.jobs
    case Deliver(i, w) => i < |s.copies| && s.copies[i].place.InQueue? && Listens(c, w, s.copies[i].place.queue)
    case Expire(i) => i < |s.copies| && s.copies[i].place.InQueue? && s.copies[i].place.queue in s.deadLetter
    case Requeue(i) => HeldAt(s, i)
    case Advance(i, _) => HeldAt(s, i) && s.copies[i].place.worker in c.workers
    case Fault(i) => Running(s, i)
    case Watchdog(i) => Running(s, i)
    case StrayStep(z, _) => z < |s.strays| && InProcess(s.strays[z].pc) && s.strays[z].worker in c.workers
  }

  function DoRecord(s: State, m: Message): State {
    s.(jobs := s.jobs[m.job := m], pending := s.pending + {m.job}, records := s.records[m.job := Queued])
  }

  function DoAnswerCached(s: State, m: Message): State {
    s.(jobs := s.jobs[m.job := m], records := s.records[m.job := Completed], results := s.results[m.job := Completed],
       events := s.events + EventsFor(m, Completed, FromApi))
  }

  function DoPublish(c: Config, s: State, j: JobId): State
    requires j in s.jobs
  {
    var m := s.jobs[j];
    s.(pending := s.pending - {j}, published := s.published + {j},
       deadLetter := s.deadLetter[JobQueue(c, m, Retry) := JobQueue(c, m, Main)],
       copies := s.copies + [NewCopy(m, None, JobQueue(c, m, Main))])
  }

  function DoCancelStep(s: State, k: nat): State
    requires k < |s.cancels| && s.cancels[k].job in s.jobs
  {
    var j := s.cancels[k].job;
    match s.cancels[k].pc
    case WriteStatus =>
      s.(records := if j in s.records then s.records[j := Cancelled] else s.records,
         cancels := s.cancels[k := CancelCall(j, WriteResult)])
    case WriteResult => s.(results := s.results[j := Cancelled], cancels := s.cancels[k := CancelCall(j, PublishEvent)])
    case PublishEvent =>
      s.(events := s.events + EventsFor(s.jobs[j], Cancelled, FromApi), cancels := s.cancels[k := CancelCall(j, Done)])
    case Done => s
  }

  function DoDeliver(s: State, i: nat, w: string): State
    requires i < |s.copies| && s.copies[i].place.InQueue?
  {
    var copy := s.copies[i];
    s.(copies := s.copies[i := copy.(place := Held(copy.place.queue, w, ReadRecord), deliveries := copy.deliveries + 1)])
  }

  /** The next step of the handler that holds copy i; without interference it depends on
      the copy, the job's record and the environment only. */
  function StepOf(c: Config, s: State, i: nat, env: Env): Next
    requires HeldAt(s, i) && s.copies[i].place.worker in c.workers
  {
    var copy := s.copies[i];
    HandlerStep(c, copy.msg, Attempt(copy), c.workers[copy.place.worker], copy.place.pc, RecordOf(s, copy.msg.job), env)
  }

  function DoAdvance(c: Config, s: State, i: nat, env: Env): State
    requires HeldAt(s, i) && s.copies[i].place.worker in c.workers
  {
    var copy := s.copies[i];
    match copy.place.pc
    case Returned(status) => MoveTo(s, i, Acked(Settled(status)))
    case Sent => MoveTo(s, i, Acked(HandedOver))
    case _ =>
      var next := StepOf(c, s, i, env);
      var moved := MoveTo(s, i, copy.place.(pc := next.pc));
      var done := Perform(moved, copy.msg, copy.place.worker, next.effect);
      if next.pc.Returned? then done.(settled := done.settled + {copy.msg.job}) else done
  }

  function DoThrow(c: Config, s: State, i: nat): State
    requires HeldAt(s, i)
  {
    MoveTo(s, i, s.copies[i].place.(pc := Catch(c, Attempt(s.copies[i]))))
  }

  function DoWatchdog(c: Config, s: State, i: nat): State
    requires HeldAt(s, i)
  {
    var copy := s.copies[i];
    DoThrow(c, s, i).(strays := s.strays + [Stray(copy.msg, copy.place.worker, Attempt(copy), copy.place.pc)])
  }

  function DoStrayStep(c: Config, s: State, z: nat, env: Env): State
    requires z < |s.strays| && s.strays[z].worker in c.workers
  {
    var stray := s.strays[z];
    var next := HandlerStep(c, stray.msg, stray.attempt, c.workers[stray.worker], stray.pc, RecordOf(s, stray.msg.job), env);
    Perform(s.(strays := s.strays[z := stray.(pc := next.pc)]), stray.msg, stray.worker, next.effect)
  }

  function Apply(c: Config, s: State, a: Action): State {
    if !Enabled(c, s, a) then s
    else match a
      case Record(m) => DoRecord(s, m)
      case AnswerCached(m) => DoAnswerCached(s, m)
      case Publish(j) => DoPublish(c, s, j)
      case CancelRead(j) => s.(cancels := s.cancels + [CancelCall(j, WriteStatus)])
      case CancelStep(k) => DoCancelStep(s, k)
      case Deliver(i, w) => DoDeliver(s, i, w)
      case Expire(i) => MoveTo(s, i, InQueue(s.deadLetter[s.copies[i].place.queue]))
      case Requeue(i) => MoveTo(s, i, InQueue(s.copies[i].place.queue))
      case Advance(i, env) => DoAdvance(c, s, i, env)
      case Fault(i) => DoThrow(c, s, i)
      case Watchdog(i) => DoWatchdog(c, s, i)
      case StrayStep(z, env) => DoStrayStep(c, s, z, env)
  }

  /** Every sequence of actions is a run: disabled actions are skipped. */
  function Run(c: Config, s: State, acts: seq<Action>): State
    decreases |acts|
  {
    if acts == [] then s else Run(c, Apply(c, s, acts[0]), acts[1..])
  }

  lemma {:induction false} RunAppend(c: Config, s: State, xs: seq<Action>, ys: seq<Action>)
    ensures Run(c, s, xs + ys) == Run(c, Run(c, s, xs), ys)
    decreases |xs|
  {
    if xs == [] {
      assert xs + ys == ys;
    } else {
      assert (xs + ys)[1..] == xs[1..] + ys;
      RunAppend(c, Apply(c, s, xs[0]), xs[1..], ys);
    }
  }

  lemma RunThree(c: Config, s: State, a: Action, b: Action, d: Action)
    ensures Run(c, s, [a, b, d]) == Apply(c, Apply(c, Apply(c, s, a), b), d)
  {
    var s1 := Apply(c, s, a);
    var s2 := Apply(c, s1, b);
    assert [a, b, d][1..] == [b, d];
    assert [b, d][1..] == [d];
    assert Run(c, s2, [d]) == Apply(c, s2, d);
    assert Run(c, s1, [b, d]) == Run(c, s2, [d]);
  }
}
