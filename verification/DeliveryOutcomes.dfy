/** The end of a job in a quiet run: its webhook events, its record and its stored result
    agree, and cancel calls add their own events. */
module DeliveryOutcomes {
  import opened Common
  import opened QueueNames
  import opened Sums
  import opened Delivery
  import opened DeliverySafety
  import opened DeliveryEvents

  // ---------------------------------------------------------------------------
  // Record and result of a job that is never cancelled
  // ---------------------------------------------------------------------------

  ghost predicate NeverCancelled(s: State, j: JobId) {
    forall k :: 0 <= k < |s.cancels| ==> s.cancels[k].job != j
  }

  /** The status the record must have when the current copy stands here. */
  function RecordDue(c: Config, m: Message, place: Place): Option<Status> {
    match place
    case InQueue(q) => if q == JobQueue(c, m, DeadLetter) then Some(Failed) else None
    case Held(_, _, pc) => RecordDueAt(pc)
    case Acked(Settled(status)) => Some(status)
    case Acked(HandedOver) => None
  }

  function RecordDueAt(pc: Pc): Option<Status> {
    match pc
    case DoneResult => Some(Completed)
    case DoneEvent => Some(Completed)
    case StoreCache => Some(Completed)
    case MarkIdle => Some(Completed)
    case HitResult => Some(Completed)
    case HitEvent => Some(Completed)
    case SkipResult => Some(Cancelled)
    case SkipEvent => Some(Cancelled)
    case Returned(status) => Some(status)
    case DeadResult => Some(Failed)
    case DeadEvent => Some(Failed)
    case SendDead => Some(Failed)
    case _ => None
  }

  /** The status the stored result must have. */
  function ResultDue(c: Config, m: Message, place: Place): Option<Status> {
    match place
    case Held(_, _, pc) => ResultDueAt(pc)
    case _ => RecordDue(c, m, place)
  }

  function ResultDueAt(pc: Pc): Option<Status> {
    if pc == DoneResult || pc == HitResult || pc == SkipResult || pc == DeadResult then None else RecordDueAt(pc)
  }

  function ResultOf(s: State, j: JobId): Option<Status> {
    if j in s.results then Some(s.results[j]) else None
  }

  ghost predicate Agrees(c: Config, s: State, i: int, j: JobId)
    requires 0 <= i < |s.copies|
  {
    var copy := s.copies[i];
    Fits(RecordOf(s, j), ResultOf(s, j), RecordDue(c, copy.msg, copy.place), ResultDue(c, copy.msg, copy.place))
  }

  predicate Fits(record: Option<Status>, result: Option<Status>, recordDue: Option<Status>, resultDue: Option<Status>) {
    && record != Some(Cancelled)
    && (recordDue.Some? ==> record == recordDue)
    && (resultDue.Some? ==> result == resultDue)
  }

  ghost predicate AllAgree(c: Config, s: State) {
    && (forall i, j :: Current(s, i, j) && NeverCancelled(s, j) ==> Agrees(c, s, i, j))
    && (forall j :: j in s.pending && NeverCancelled(s, j) ==> RecordOf(s, j) != Some(Cancelled))
  }

  lemma CancelsAccumulate(c: Config, s: State, a: Action, j: JobId)
    requires s.strays == [] && NeverCancelled(Apply(c, s, a), j)
    ensures NeverCancelled(s, j)
    ensures Enabled(c, s, a) && a.CancelStep? ==> s.cancels[a.k].job != j
  {
    var t := Apply(c, s, a);
    WorkerCancels(c, s, a);
    forall k | 0 <= k < |s.cancels| ensures s.cancels[k].job != j {
      assert t.cancels[k].job == s.cancels[k].job;
    }
  }

  /** Cancel calls are only added, and keep their job. */
  lemma WorkerCancels(c: Config, s: State, a: Action)
    ensures var t := Apply(c, s, a);
      && |s.cancels| <= |t.cancels|
      && (forall k :: 0 <= k < |s.cancels| ==> t.cancels[k].job == s.cancels[k].job)
      && (!a.CancelRead? && !a.CancelStep? ==> t.cancels == s.cancels)
  {
    hide HandlerStep, Apply;
    if !Enabled(c, s, a) {
      CancelCallFrame(c, s, a);
    } else if a.Advance? {
      var pc := s.copies[a.i].place.pc;
      if pc.Returned? || pc.Sent? { AckFrame(c, s, a.i, a.env); } else { AdvanceFrame(c, s, a.i, a.env); }
    } else if a.StrayStep? {
      StrayFrame(c, s, a.z, a.env);
    } else if MovesCopy(a) {
      MoveFrame(c, s, a);
    } else {
      ApiActs(c, s, a);
    }
  }

  /** Without a cancel, only a step of the current copy touches a job's record or result. */
  lemma OthersKeepRecord(c: Config, s: State, a: Action, j: JobId)
    requires j in s.jobs && s.strays == [] && NeverCancelled(Apply(c, s, a), j)
    requires !a.Advance? || !Enabled(c, s, a) || !Current(s, a.i, j)
    ensures RecordOf(Apply(c, s, a), j) == RecordOf(s, j)
    ensures ResultOf(Apply(c, s, a), j) == ResultOf(s, j)
  {
    hide HandlerStep, Apply, NeverCancelled;
    CancelsAccumulate(c, s, a, j);
    if !Enabled(c, s, a) {
      CancelCallFrame(c, s, a);
    } else if a.Advance? {
      var pc := s.copies[a.i].place.pc;
      if pc.Returned? || pc.Sent? { AckFrame(c, s, a.i, a.env); } else { AdvanceFrame(c, s, a.i, a.env); }
    } else if MovesCopy(a) {
      MoveFrame(c, s, a);
    } else {
      ApiActs(c, s, a);
    }
  }

  /** A handler step keeps record and result in line with its next place. */
  lemma StepFits(c: Config, m: Message, attempt: nat, w: Worker, pc: Pc, record: Status, result: Option<Status>, env: Env)
    requires !pc.Returned? && Fits(Some(record), result, RecordDueAt(pc), ResultDueAt(pc))
    ensures var next := HandlerStep(c, m, attempt, w, pc, Some(record), env);
      var newRecord := if next.effect.SetStatus? then Some(next.effect.status) else Some(record);
      var newResult := if next.effect.SaveResult? then Some(next.effect.status) else result;
      Fits(newRecord, newResult, RecordDueAt(next.pc), ResultDueAt(next.pc))
    ensures RecordDueAt(SendDead) == ResultDueAt(SendDead) == Some(Failed)
  {
  }

  /** In state t copy i stands at pc, with record and result in line. */
  ghost predicate KeepsFit(s: State, t: State, i: nat, j: JobId, pc: Pc) {
    && i < |t.copies| && t.copies[i].place.Held? && t.copies[i].place.pc == pc
    && Fits(RecordOf(t, j), ResultOf(t, j), RecordDueAt(pc), ResultDueAt(pc))
    && (pc.Sent? ==> RecordOf(t, j) == RecordOf(s, j) && ResultOf(t, j) == ResultOf(s, j))
  }

  lemma StepKeepsFit(c: Config, s: State, i: nat, env: Env, j: JobId)
    requires Enabled(c, s, Advance(i, env)) && Current(s, i, j) && j in s.records
    requires !s.copies[i].place.pc.Returned? && Agrees(c, s, i, j)
    ensures KeepsFit(s, Apply(c, s, Advance(i, env)), i, j, StepOf(c, s, i, env).pc)
  {
    hide HandlerStep, Apply;
    var copy := s.copies[i];
    var w := c.workers[copy.place.worker];
    AdvanceFrame(c, s, i, env);
    StepFits(c, copy.msg, Attempt(copy), w, copy.place.pc, s.records[j], ResultOf(s, j), env);
    RankFalls(c, copy.msg, Attempt(copy), w, copy.place.pc, RecordOf(s, j), env);
  }

  lemma HeldAgrees(c: Config, t: State, i: nat, j: JobId, pc: Pc)
    requires i < |t.copies| && t.copies[i].place.Held? && t.copies[i].place.pc == pc
    requires Fits(RecordOf(t, j), ResultOf(t, j), RecordDueAt(pc), ResultDueAt(pc))
    ensures Agrees(c, t, i, j)
  {
  }

  lemma StaysAgreed(c: Config, s: State, i: nat, env: Env, j: JobId)
    requires Enabled(c, s, Advance(i, env)) && Current(s, i, j) && j in s.records
    requires !s.copies[i].place.pc.Returned? && Agrees(c, s, i, j) && !StepOf(c, s, i, env).pc.Sent?
    ensures i < |Apply(c, s, Advance(i, env)).copies| && Agrees(c, Apply(c, s, Advance(i, env)), i, j)
  {
    hide HandlerStep, Apply, Agrees;
    StepKeepsFit(c, s, i, env, j);
    HeldAgrees(c, Apply(c, s, Advance(i, env)), i, j, StepOf(c, s, i, env).pc);
  }

  /** The copy a catch block publishes inherits what its predecessor settled. */
  lemma SentAgrees(c: Config, s: State, t: State, i: nat, j: JobId, e: Effect)
    requires ValidConfig(c) && i < |s.copies| && ValidMessage(c, s.copies[i].msg) && Agrees(c, s, i, j)
    requires s.copies[i].place.Held? && e.Send?
    requires (s.copies[i].place.pc == SendRetry && e.queue == JobQueue(c, s.copies[i].msg, Retry))
      || (s.copies[i].place.pc == SendDead && e.queue == JobQueue(c, s.copies[i].msg, DeadLetter))
    requires |t.copies| == |s.copies| + 1 && t.copies[|s.copies|] == NewCopy(s.copies[i].msg, Some(e.attempt), e.queue)
    requires RecordOf(t, j) == RecordOf(s, j) && ResultOf(t, j) == ResultOf(s, j)
    ensures Agrees(c, t, |s.copies|, j)
  {
    JobQueueRoles(c, s.copies[i].msg, Retry, DeadLetter);
  }

  lemma SuccessorAgrees(c: Config, s: State, i: nat, env: Env, j: JobId)
    requires ValidConfig(c) && Enabled(c, s, Advance(i, env)) && Current(s, i, j)
    requires ValidMessage(c, s.copies[i].msg) && j in s.records
    requires !s.copies[i].place.pc.Returned? && Agrees(c, s, i, j) && StepOf(c, s, i, env).pc.Sent?
    ensures var t := Apply(c, s, Advance(i, env));
      |t.copies| == |s.copies| + 1 && Agrees(c, t, |s.copies|, j)
  {
    hide HandlerStep, Apply, Agrees;
    var copy := s.copies[i];
    var next := StepOf(c, s, i, env);
    AdvanceFrame(c, s, i, env);
    StepKeepsFit(c, s, i, env, j);
    RankFalls(c, copy.msg, Attempt(copy), c.workers[copy.place.worker], copy.place.pc, RecordOf(s, j), env);
    SentAgrees(c, s, Apply(c, s, Advance(i, env)), i, j, next.effect);
  }

  lemma AckAgrees(c: Config, s: State, i: nat, env: Env, j: JobId)
    requires Enabled(c, s, Advance(i, env)) && Current(s, i, j) && Agrees(c, s, i, j)
    requires s.copies[i].place.pc.Returned?
    ensures Agrees(c, Apply(c, s, Advance(i, env)), i, j)
  {
    hide HandlerStep, Apply;
    AckFrame(c, s, i, env);
  }

  lemma AdvanceAgrees(c: Config, s: State, i: nat, env: Env, k: int, j: JobId)
    requires ValidConfig(c) && Inv(c, s) && OneCurrent(s) && Enabled(c, s, Advance(i, env))
    requires Current(s, i, j) && Agrees(c, s, i, j) && Current(Apply(c, s, Advance(i, env)), k, j)
    ensures Agrees(c, Apply(c, s, Advance(i, env)), k, j)
  {
    hide HandlerStep, Apply, Inv, OneCurrent, Agrees;
    KnownMessage(c, s, i);
    CurrentAfterStep(c, s, i, env, k, j);
    if s.copies[i].place.pc.Returned? {
      AckAgrees(c, s, i, env, j);
    } else if Replaced(c, s, i, env) {
      SuccessorAgrees(c, s, i, env, j);
    } else {
      StaysAgreed(c, s, i, env, j);
    }
  }

  lemma AgreesAgain(c: Config, s: State, t: State, i: int, j: JobId)
    requires 0 <= i < |s.copies| && i < |t.copies| && Agrees(c, s, i, j)
    requires RecordOf(t, j) == RecordOf(s, j) && ResultOf(t, j) == ResultOf(s, j)
    requires t.copies[i] == s.copies[i]
      || (RecordDue(c, t.copies[i].msg, t.copies[i].place) == None && ResultDue(c, t.copies[i].msg, t.copies[i].place) == None)
    ensures Agrees(c, t, i, j)
  {
  }

  lemma StillAgrees(c: Config, s: State, a: Action, i: int, j: JobId)
    requires ValidConfig(c) && Inv(c, s) && QuietAction(a) && OneCurrent(s) && AllAgree(c, s)
    requires !a.Advance? || !Enabled(c, s, a) || !Current(s, a.i, j)
    requires Current(s, i, j) && Current(Apply(c, s, a), i, j) && NeverCancelled(Apply(c, s, a), j)
    ensures Agrees(c, Apply(c, s, a), i, j)
  {
    hide HandlerStep, Apply, RecordDue, ResultDue, Inv;
    ActionChanges(c, s, a);
    CancelsAccumulate(c, s, a, j);
    KnownMessage(c, s, i);
    assert Agrees(c, s, i, j);
    OthersKeepRecord(c, s, a, j);
    if Enabled(c, s, a) && (a.Deliver? || a.Expire?) { QueueMoveDue(c, s, a); }
    AgreesAgain(c, s, Apply(c, s, a), i, j);
  }

  lemma NewAgrees(c: Config, s: State, a: Action, j: JobId)
    requires ValidConfig(c) && Inv(c, s) && OneCurrent(s) && AllAgree(c, s)
    requires Enabled(c, s, a) && a.Publish? && s.jobs[a.j].job == j && NeverCancelled(Apply(c, s, a), j)
    requires |Apply(c, s, a).copies| == |s.copies| + 1
    ensures Agrees(c, Apply(c, s, a), |s.copies|, j)
  {
    hide HandlerStep, Apply;
    ApiActs(c, s, a);
    CancelsAccumulate(c, s, a, j);
    assert JobValid(c, s, a.j);
    JobQueueRoles(c, s.jobs[a.j], Main, DeadLetter);
  }

  lemma CurrentAgrees(c: Config, s: State, a: Action, i: int, j: JobId)
    requires ValidConfig(c) && Inv(c, s) && QuietAction(a) && OneCurrent(s) && AllAgree(c, s)
    requires Current(Apply(c, s, a), i, j) && NeverCancelled(Apply(c, s, a), j)
    ensures Agrees(c, Apply(c, s, a), i, j)
  {
    hide HandlerStep, Apply, Agrees, Inv;
    ActionChanges(c, s, a);
    CurrentBack(c, s, Apply(c, s, a), a, i, j);
    CancelsAccumulate(c, s, a, j);
    if Enabled(c, s, a) && a.Advance? && Current(s, a.i, j) {
      assert Agrees(c, s, a.i, j);
      AdvanceAgrees(c, s, a.i, a.env, i, j);
    } else if Current(s, i, j) {
      StillAgrees(c, s, a, i, j);
    } else {
      NewAgrees(c, s, a, j);
    }
  }

  lemma QueueMoveDue(c: Config, s: State, a: Action)
    requires ValidConfig(c) && Inv(c, s) && Enabled(c, s, a) && (a.Deliver? || a.Expire?)
    ensures var copy := Apply(c, s, a).copies[a.i];
      RecordDue(c, copy.msg, copy.place) == None && ResultDue(c, copy.msg, copy.place) == None
  {
    hide HandlerStep, Apply, Inv, JobQueue, Refines;
    KnownMessage(c, s, a.i);
    JobQueueRoles(c, s.copies[a.i].msg, Main, DeadLetter);
    MoveFrame(c, s, a);
    if a.Expire? { RefinesExpire(c, s, a.i); }
  }

  lemma AllAgreeStep(c: Config, s: State, a: Action)
    requires ValidConfig(c) && Inv(c, s) && QuietAction(a) && OneCurrent(s) && AllAgree(c, s)
    ensures AllAgree(c, Apply(c, s, a))
  {
    var t := Apply(c, s, a);
    forall i, j | Current(t, i, j) && NeverCancelled(t, j) ensures Agrees(c, t, i, j) {
      CurrentAgrees(c, s, a, i, j);
    }
    forall j | j in t.pending && NeverCancelled(t, j) ensures RecordOf(t, j) != Some(Cancelled) {
      PendingNotCancelled(c, s, a, j);
    }
  }

  lemma PendingNotCancelled(c: Config, s: State, a: Action, j: JobId)
    requires ValidConfig(c) && Inv(c, s) && QuietAction(a) && OneCurrent(s) && AllAgree(c, s)
    requires j in Apply(c, s, a).pending && NeverCancelled(Apply(c, s, a), j)
    ensures RecordOf(Apply(c, s, a), j) != Some(Cancelled)
  {
    CancelsAccumulate(c, s, a, j);
    if j in s.pending {
      assert JobValid(c, s, j);
      if a.Advance? && Enabled(c, s, a) { assert CopyValid(c, s, s.copies[a.i]); }
      OthersKeepRecord(c, s, a, j);
    } else {
      if !a.Record? && !a.AnswerCached? && !a.Publish? { WorkerFrame(c, s, a); }
    }
  }

  // ---------------------------------------------------------------------------
  // Events published by the API
  // ---------------------------------------------------------------------------

  function FinishedCancel(j: JobId): CancelCall -> nat {
    (x: CancelCall) => if x.job == j && x.pc == Done then 1 else 0
  }

  function Repeat(n: nat, events: seq<Event>): seq<Event> {
    if n == 0 then [] else Repeat(n - 1, events) + events
  }

  /** One cancelled event for each finished cancel call; a job answered from the cache
      starts with one completed event. */
  function ExpectedFromApi(s: State, j: JobId): seq<Event> {
    if j !in s.jobs then []
    else
      (if j in s.pending || j in s.published then [] else EventsFor(s.jobs[j], Completed, FromApi))
        + Repeat(Sum(s.cancels, FinishedCancel(j)), EventsFor(s.jobs[j], Cancelled, FromApi))
  }

  ghost predicate ApiMatches(s: State) {
    && (forall j :: EventsOf(s.events, j, FromApi) == ExpectedFromApi(s, j))
    && (forall k :: 0 <= k < |s.cancels| ==> s.cancels[k].job in s.jobs)
  }

  lemma WorkerTellsNothing(c: Config, s: State, a: Action, j: JobId)
    requires s.strays == [] && !a.AnswerCached? && !a.CancelStep?
    ensures EventsOf(Apply(c, s, a).events, j, FromApi) == EventsOf(s.events, j, FromApi)
  {
    ActionPublishes(c, s, a);
    var more := Published(c, s, a);
    if Enabled(c, s, a) && a.Advance? {
      var m, e := s.copies[a.i].msg, StepOf(c, s, a.i, a.env).effect;
      if e.Emit? { EventsForOne(m, e.status, FromWorker); }
    }
    EventsAppend(s.events, more, j, FromApi);
  }

  lemma ApiTells(c: Config, s: State, a: Action, j: JobId)
    requires s.strays == [] && Enabled(c, s, a) && (a.AnswerCached? || a.CancelStep?)
    ensures EventsOf(Apply(c, s, a).events, j, FromApi) == EventsOf(s.events, j, FromApi)
      + if (if a.AnswerCached? then a.m.job else s.jobs[s.cancels[a.k].job].job) == j then Published(c, s, a) else []
  {
    ActionPublishes(c, s, a);
    if a.AnswerCached? {
      EventsForOne(a.m, Completed, FromApi);
    } else {
      EventsForOne(s.jobs[s.cancels[a.k].job], Cancelled, FromApi);
    }
    EventsAppend(s.events, Published(c, s, a), j, FromApi);
  }

  lemma ApiMatchesOthers(c: Config, s: State, a: Action)
    requires Inv(c, s) && s.strays == [] && ApiMatches(s) && !a.AnswerCached? && !a.CancelStep?
    ensures ApiMatches(Apply(c, s, a))
  {
    var t := Apply(c, s, a);
    WorkerCancels(c, s, a);
    Grows(c, s, a);
    if !a.Record? && !a.Publish? { WorkerFrame(c, s, a); }
    forall j ensures EventsOf(t.events, j, FromApi) == ExpectedFromApi(t, j) {
      WorkerTellsNothing(c, s, a, j);
      assert EventsOf(s.events, j, FromApi) == ExpectedFromApi(s, j);
      SameCancelCount(c, s, a, j);
    }
    forall k | 0 <= k < |t.cancels| ensures t.cancels[k].job in t.jobs {
      if k < |s.cancels| { assert t.cancels[k].job == s.cancels[k].job; }
    }
  }

  lemma SameCancelCount(c: Config, s: State, a: Action, j: JobId)
    requires Inv(c, s) && s.strays == [] && ApiMatches(s) && !a.AnswerCached? && !a.CancelStep?
    ensures ExpectedFromApi(Apply(c, s, a), j) == ExpectedFromApi(s, j)
  {
    hide HandlerStep, Apply, JobQueue, EventsOf;
    WorkerCancels(c, s, a);
    if Enabled(c, s, a) { ApiActs(c, s, a); } else { CancelCallFrame(c, s, a); }
    if a.CancelRead? && Enabled(c, s, a) {
      SumAppend(s.cancels, CancelCall(a.j, WriteStatus), FinishedCancel(j));
    } else if a.Record? {
      if Enabled(c, s, a) && a.m.job == j {
        SumZero(s.cancels, FinishedCancel(j));
      }
    } else if !a.Publish? && !a.CancelRead? {
      WorkerFrame(c, s, a);
    }
  }

  lemma PublishedAreJobs(c: Config, s: State)
    requires Inv(c, s)
    ensures s.pending <= s.jobs.Keys && s.published <= s.jobs.Keys
  {
    forall j | j in s.pending || j in s.published ensures j in s.jobs {
      assert JobValid(c, s, j);
    }
  }

  lemma ApiMatchesAnswer(c: Config, s: State, m: Message)
    requires Inv(c, s) && s.strays == [] && ApiMatches(s) && Enabled(c, s, AnswerCached(m))
    ensures ApiMatches(Apply(c, s, AnswerCached(m)))
  {
    var t := Apply(c, s, AnswerCached(m));
    PublishedAreJobs(c, s);
    forall j ensures EventsOf(t.events, j, FromApi) == ExpectedFromApi(t, j) {
      ApiTells(c, s, AnswerCached(m), j);
      assert EventsOf(s.events, j, FromApi) == ExpectedFromApi(s, j);
      if j == m.job {
        SumZero(s.cancels, FinishedCancel(j));
      }
    }
  }

  /** A cancel call counts as finished once it has published its event. */
  lemma CancelCount(s: State, k: nat, j: JobId)
    requires k < |s.cancels| && s.cancels[k].pc != Done && s.cancels[k].job in s.jobs
    ensures Sum(DoCancelStep(s, k).cancels, FinishedCancel(j))
      == Sum(s.cancels, FinishedCancel(j)) + if j == s.cancels[k].job && s.cancels[k].pc == PublishEvent then 1 else 0
  {
    SumUpdate(s.cancels, k, DoCancelStep(s, k).cancels[k], FinishedCancel(j));
  }

  lemma CancelExpected(c: Config, s: State, k: nat, j: JobId)
    requires s.strays == [] && Enabled(c, s, CancelStep(k)) && s.jobs[s.cancels[k].job].job == s.cancels[k].job
    requires EventsOf(s.events, j, FromApi) == ExpectedFromApi(s, j)
    ensures var t := Apply(c, s, CancelStep(k));
      EventsOf(t.events, j, FromApi) == ExpectedFromApi(t, j)
  {
    hide HandlerStep, Apply, EventsOf;
    ApiActs(c, s, CancelStep(k));
    ApiTells(c, s, CancelStep(k), j);
    CancelCount(s, k, j);
    if j in s.jobs {
      RepeatMore(Sum(s.cancels, FinishedCancel(j)), EventsFor(s.jobs[j], Cancelled, FromApi),
        if s.jobs[j].job in s.pending || s.jobs[j].job in s.published then [] else EventsFor(s.jobs[j], Completed, FromApi));
    }
  }

  lemma RepeatMore(n: nat, x: seq<Event>, head: seq<Event>)
    ensures head + Repeat(n + 1, x) == (head + Repeat(n, x)) + x
  {
  }

  lemma ApiMatchesCancel(c: Config, s: State, k: nat)
    requires Inv(c, s) && s.strays == [] && ApiMatches(s) && Enabled(c, s, CancelStep(k))
    ensures ApiMatches(Apply(c, s, CancelStep(k)))
  {
    var t := Apply(c, s, CancelStep(k));
    forall j ensures EventsOf(t.events, j, FromApi) == ExpectedFromApi(t, j) {
      CancelExpected(c, s, k, j);
    }
  }

  lemma ApiMatchesStep(c: Config, s: State, a: Action)
    requires Inv(c, s) && s.strays == [] && ApiMatches(s)
    ensures ApiMatches(Apply(c, s, a))
  {
    if !Enabled(c, s, a) {
    } else if a.AnswerCached? {
      ApiMatchesAnswer(c, s, a.m);
    } else if a.CancelStep? {
      ApiMatchesCancel(c, s, a.k);
    } else {
      ApiMatchesOthers(c, s, a);
    }
  }

  // ---------------------------------------------------------------------------
  // Main results
  // ---------------------------------------------------------------------------

  ghost predicate QuietInv(c: Config, s: State) {
    Inv(c, s) && OneCurrent(s) && EventsMatch(c, s) && AllAgree(c, s) && ApiMatches(s)
  }

  lemma {:induction false} QuietRun(c: Config, s: State, acts: seq<Action>)
    requires ValidConfig(c) && Quiet(acts) && QuietInv(c, s)
    ensures QuietInv(c, Run(c, s, acts))
    decreases |acts|
  {
    if acts != [] {
      assert QuietAction(acts[0]);
      InvStep(c, s, acts[0]);
      OneCurrentStep(c, s, acts[0]);
      EventsMatchStep(c, s, acts[0]);
      AllAgreeStep(c, s, acts[0]);
      ApiMatchesStep(c, s, acts[0]);
      QuietRun(c, Apply(c, s, acts[0]), acts[1..]);
    }
  }

  lemma QuietFromInit(c: Config, acts: seq<Action>)
    requires ValidConfig(c) && Quiet(acts)
    ensures QuietInv(c, Run(c, INIT, acts))
  {
    InvInit(c);
    QuietRun(c, INIT, acts);
  }

  /** Nothing of the job is waiting or being processed any more. */
  ghost predicate Resolved(c: Config, s: State, j: JobId) {
    forall i :: 0 <= i < |s.copies| && s.copies[i].msg.job == j ==>
      s.copies[i].place.Acked? || s.copies[i].place == InQueue(JobQueue(c, s.copies[i].msg, DeadLetter))
  }

  /** As long as a copy of the job waits in its main or retry queue, or is being scraped,
      no event was published for it by a worker: an attempt that is not final tells nothing. */
  lemma SilentUntilFinal(c: Config, acts: seq<Action>, i: nat)
    requires ValidConfig(c) && Quiet(acts) && i < |Run(c, INIT, acts).copies|
    requires var copy := Run(c, INIT, acts).copies[i];
      || copy.place == InQueue(JobQueue(c, copy.msg, Main)) || copy.place == InQueue(JobQueue(c, copy.msg, Retry))
      || (copy.place.Held? && (copy.place.pc == Execute || copy.place.pc == SendRetry))
    ensures var s := Run(c, INIT, acts);
      EventsOf(s.events, s.copies[i].msg.job, FromWorker) == []
  {
    var s := Run(c, INIT, acts);
    var copy := s.copies[i];
    QuietFromInit(c, acts);
    assert Current(s, i, copy.msg.job);
    assert Told(c, s, i, copy.msg.job);
    assert CopyValid(c, s, copy) && JobValid(c, s, copy.msg.job);
    JobQueueRoles(c, copy.msg, Main, DeadLetter);
    JobQueueRoles(c, copy.msg, Retry, DeadLetter);
  }

  /** A job that was never cancelled and is resolved has published exactly one event if it
      has a webhook, job.completed or job.failed as its record says; record and stored result
      agree. */
  lemma OneEventPerJob(c: Config, acts: seq<Action>, j: JobId)
    requires ValidConfig(c) && Quiet(acts) && j in Run(c, INIT, acts).published
    requires NeverCancelled(Run(c, INIT, acts), j) && Resolved(c, Run(c, INIT, acts), j)
    ensures var s := Run(c, INIT, acts);
      && j in s.jobs && j in s.records && j in s.results
      && (s.records[j] == Completed || s.records[j] == Failed)
      && s.results[j] == s.records[j]
      && EventsOf(s.events, j, FromApi) == []
      && EventsOf(s.events, j, FromWorker)
        == if s.jobs[j].webhook then [Event(j, if s.records[j] == Completed then JobCompleted else JobFailed, FromWorker)] else []
  {
    hide Run, Inv;
    var s := Run(c, INIT, acts);
    QuietFromInit(c, acts);
    assert HasCurrent(s, j);
    var i :| Current(s, i, j);
    assert Told(c, s, i, j) && Agrees(c, s, i, j);
    KnownMessage(c, s, i);
    SumZero(s.cancels, FinishedCancel(j));
    SettledStatuses(c, acts, i);
  }

  /** A call only ever returns with a completed or a cancelled job. */
  lemma SettledStatuses(c: Config, acts: seq<Action>, i: nat)
    requires ValidConfig(c) && i < |Run(c, INIT, acts).copies|
    ensures SettledRight(Run(c, INIT, acts).copies[i])
  {
    InvInit(c);
    SettledRun(c, INIT, acts);
  }

  predicate SettledRight(copy: Copy) {
    match copy.place
    case Acked(Settled(status)) => status == Completed || status == Cancelled
    case Held(_, _, Returned(status)) => status == Completed || status == Cancelled
    case _ => true
  }

  lemma SettledStep(c: Config, s: State, a: Action)
    requires forall i :: 0 <= i < |s.copies| ==> SettledRight(s.copies[i])
    ensures forall i :: 0 <= i < |Apply(c, s, a).copies| ==> SettledRight(Apply(c, s, a).copies[i])
  {
    hide HandlerStep, Apply, JobQueue, Attempt;
    if !Enabled(c, s, a) {
      CancelCallFrame(c, s, a);
    } else if MovesCopy(a) {
      MoveFrame(c, s, a);
    } else if a.Advance? {
      SettledAdvance(c, s, a.i, a.env);
    } else if a.StrayStep? {
      StrayFrame(c, s, a.z, a.env);
    } else {
      ApiActs(c, s, a);
    }
  }

  lemma SettledAdvance(c: Config, s: State, i: nat, env: Env)
    requires Enabled(c, s, Advance(i, env)) && forall k :: 0 <= k < |s.copies| ==> SettledRight(s.copies[k])
    ensures var t := Apply(c, s, Advance(i, env));
      forall k :: 0 <= k < |t.copies| ==> SettledRight(t.copies[k])
  {
    hide HandlerStep, Apply, JobQueue;
    var copy := s.copies[i];
    if copy.place.pc.Returned? || copy.place.pc.Sent? {
      AckFrame(c, s, i, env);
    } else {
      AdvanceFrame(c, s, i, env);
      StepReturns(c, copy.msg, Attempt(copy), c.workers[copy.place.worker], copy.place.pc, RecordOf(s, copy.msg.job), env);
    }
  }

  lemma StepReturns(c: Config, m: Message, attempt: nat, w: Worker, pc: Pc, record: Option<Status>, env: Env)
    requires !pc.Returned?
    ensures var next := HandlerStep(c, m, attempt, w, pc, record, env);
      next.pc.Returned? ==> next.pc.status == Completed || next.pc.status == Cancelled
  {
  }

  lemma {:induction false} SettledRun(c: Config, s: State, acts: seq<Action>)
    requires forall i :: 0 <= i < |s.copies| ==> SettledRight(s.copies[i])
    ensures forall i :: 0 <= i < |Run(c, s, acts).copies| ==> SettledRight(Run(c, s, acts).copies[i])
    decreases |acts|
  {
    if acts != [] {
      SettledStep(c, s, acts[0]);
      SettledRun(c, Apply(c, s, acts[0]), acts[1..]);
    }
  }

  /** What a resolved job is called by its worker: its last copy was settled as completed or
      as cancelled, or it was dead-lettered. */
  function FinalName(place: Place): EventName {
    match place
    case Acked(Settled(Completed)) => JobCompleted
    case Acked(Settled(Cancelled)) => JobCancelled
    case _ => JobFailed
  }

  ghost predicate NamedAfter(s: State, i: int, j: JobId)
    requires j in s.jobs
  {
    Current(s, i, j) && EventsOf(s.events, j, FromWorker)
      == if s.jobs[j].webhook then [Event(j, FinalName(s.copies[i].place), FromWorker)] else []
  }

  /** The one event a resolved job's worker has published. */
  lemma ResolvedTells(c: Config, acts: seq<Action>, i: nat, j: JobId)
    requires ValidConfig(c) && Quiet(acts) && Current(Run(c, INIT, acts), i, j)
    requires Resolved(c, Run(c, INIT, acts), j)
    ensures var s := Run(c, INIT, acts);
      && j in s.jobs && NamedAfter(s, i, j)
  {
    hide Run, Inv, AllAgree;
    var s := Run(c, INIT, acts);
    QuietFromInit(c, acts);
    assert Told(c, s, i, j);
    KnownMessage(c, s, i);
    SettledStatuses(c, acts, i);
  }

  /** What a resolved job has published in all: one event from the worker, named after the
      place of its last copy, and one job.cancelled for every finished cancel call. A job
      cancelled before it ran is announced twice. */
  lemma EventCount(c: Config, acts: seq<Action>, j: JobId)
    requires ValidConfig(c) && Quiet(acts) && j in Run(c, INIT, acts).published
    requires Resolved(c, Run(c, INIT, acts), j)
    ensures var s := Run(c, INIT, acts);
      && j in s.jobs
      && EventsOf(s.events, j, FromApi)
        == Repeat(if s.jobs[j].webhook then Sum(s.cancels, FinishedCancel(j)) else 0, [Event(j, JobCancelled, FromApi)])
      && exists i :: NamedAfter(s, i, j)
  {
    hide Run, Inv, EventsMatch, AllAgree, Resolved;
    var s := Run(c, INIT, acts);
    QuietFromInit(c, acts);
    assert HasCurrent(s, j);
    var i :| Current(s, i, j);
    ResolvedTells(c, acts, i, j);
    KnownMessage(c, s, i);
    NoRepeat(Sum(s.cancels, FinishedCancel(j)));
    assert EventsOf(s.events, j, FromApi) == ExpectedFromApi(s, j);
  }

  lemma {:induction false} NoRepeat(n: nat)
    ensures Repeat(n, []) == []
  {
    if n > 0 {
      NoRepeat(n - 1);
    }
  }
}
