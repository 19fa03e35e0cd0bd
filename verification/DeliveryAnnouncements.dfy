/** No job is forgotten: whatever happens, a job that is resolved has announced itself at
    least once. Dying workers, faults and expiring watchdogs repeat events, but drop none. */
module DeliveryAnnouncements {
  import opened Common
  import opened QueueNames
  import opened Delivery
  import opened DeliverySafety
  import opened DeliveryEvents
  import opened DeliveryOutcomes
  import R = RetryMachine

  /** A worker has published an event of the job. */
  ghost predicate Heard(s: State, j: JobId) {
    exists k :: 0 <= k < |s.events| && s.events[k].job == j && s.events[k].source == FromWorker
  }

  /** Handler places that are only reached past the event. */
  predicate PastEvent(pc: Pc) {
    pc.StoreCache? || pc.MarkIdle? || pc.Returned? || pc.SendDead?
  }

  ghost predicate Final(c: Config, copy: Copy) {
    match copy.place
    case InQueue(q) => q == JobQueue(c, copy.msg, DeadLetter)
    case Held(_, _, pc) => PastEvent(pc)
    case Acked(how) => how.Settled?
  }

  ghost predicate Announced(c: Config, s: State) {
    && (forall i :: 0 <= i < |s.copies| && s.copies[i].msg.webhook && Final(c, s.copies[i]) ==> Heard(s, s.copies[i].msg.job))
    && (forall j :: j in s.settled && j in s.jobs && s.jobs[j].webhook ==> Heard(s, j))
  }

  // ---------------------------------------------------------------------------
  // One step
  // ---------------------------------------------------------------------------

  lemma EventsGrow(c: Config, s: State, a: Action)
    ensures s.events <= Apply(c, s, a).events
  {
    hide HandlerStep, Apply;
    if !Enabled(c, s, a) {
      CancelCallFrame(c, s, a);
    } else if a.Advance? {
      var pc := s.copies[a.i].place.pc;
      if pc.Returned? || pc.Sent? { AckFrame(c, s, a.i, a.env); } else { AdvanceFrame(c, s, a.i, a.env); }
    } else if a.StrayStep? {
      StrayFrame(c, s, a.z, a.env);
    } else if MovesCopy(a) {
      MoveFrame(c, s, a);
    } else {
      ApiActs(c, s, a);
    }
  }

  lemma StillHeard(c: Config, s: State, a: Action, j: JobId)
    requires Heard(s, j)
    ensures Heard(Apply(c, s, a), j)
  {
    hide HandlerStep, Apply;
    EventsGrow(c, s, a);
    var k :| 0 <= k < |s.events| && s.events[k].job == j && s.events[k].source == FromWorker;
    assert Apply(c, s, a).events[k] == s.events[k];
  }

  /** A handler passes the event only by publishing one. */
  lemma PassingPublishes(c: Config, m: Message, attempt: nat, w: Worker, pc: Pc, record: Option<Status>, env: Env)
    requires !pc.Returned? && !pc.Sent?
    ensures var next := HandlerStep(c, m, attempt, w, pc, record, env);
      PastEvent(next.pc) && !PastEvent(pc) ==> next.effect.Emit? && ResolveEventName(next.effect.status).Some?
  {
  }

  /** From s to t one copy moved and at most one was added; where they are final now, the
      job has been heard of. */
  lemma MovedAnnounced(c: Config, s: State, t: State, i: nat)
    requires Announced(c, s) && |s.copies| <= |t.copies| && i < |t.copies|
    requires forall k :: 0 <= k < |s.copies| && k != i ==> t.copies[k] == s.copies[k]
    requires forall k :: 0 <= k < |t.copies| && (k == i || k >= |s.copies|) && t.copies[k].msg.webhook && Final(c, t.copies[k]) ==>
      Heard(t, t.copies[k].msg.job)
    requires forall j :: Heard(s, j) ==> Heard(t, j)
    requires forall j :: j in t.settled && j in t.jobs && t.jobs[j].webhook ==>
      Heard(t, j) || (j in s.settled && j in s.jobs && s.jobs[j].webhook)
    ensures Announced(c, t)
  {
  }

  /** The step of a handler that is not the ack. */
  lemma HandlerHeard(c: Config, s: State, i: nat, env: Env)
    requires Enabled(c, s, Advance(i, env)) && !s.copies[i].place.pc.Returned? && !s.copies[i].place.pc.Sent?
    requires Announced(c, s)
    requires s.copies[i].msg.webhook && PastEvent(StepOf(c, s, i, env).pc)
    ensures Heard(Apply(c, s, Advance(i, env)), s.copies[i].msg.job)
  {
    hide HandlerStep, Apply;
    var copy := s.copies[i];
    var next := StepOf(c, s, i, env);
    var t := Apply(c, s, Advance(i, env));
    AdvanceFrame(c, s, i, env);
    if PastEvent(copy.place.pc) {
      assert Final(c, copy);
      StillHeard(c, s, Advance(i, env), copy.msg.job);
    } else {
      PassingPublishes(c, copy.msg, Attempt(copy), c.workers[copy.place.worker], copy.place.pc, RecordOf(s, copy.msg.job), env);
      assert t.events[|s.events|] == NewEvents(copy.msg, next.effect)[0];
    }
  }

  /** A copy the handler publishes is dead-lettered only past the event. */
  lemma SentHeard(c: Config, s: State, i: nat, env: Env)
    requires Enabled(c, s, Advance(i, env)) && !s.copies[i].place.pc.Returned? && !s.copies[i].place.pc.Sent?
    requires ValidConfig(c) && Inv(c, s) && Announced(c, s) && StepOf(c, s, i, env).effect.Send?
    requires s.copies[i].msg.webhook && StepOf(c, s, i, env).effect.queue == JobQueue(c, s.copies[i].msg, DeadLetter)
    ensures Heard(s, s.copies[i].msg.job)
  {
    hide HandlerStep;
    var copy := s.copies[i];
    assert CopyValid(c, s, copy) && JobValid(c, s, copy.msg.job);
    RankFalls(c, copy.msg, Attempt(copy), c.workers[copy.place.worker], copy.place.pc, RecordOf(s, copy.msg.job), env);
    JobQueueRoles(c, copy.msg, Retry, DeadLetter);
    assert copy.place.pc == SendDead;
    assert Final(c, copy);
  }

  lemma AdvanceAnnounces(c: Config, s: State, i: nat, env: Env)
    requires Enabled(c, s, Advance(i, env)) && !s.copies[i].place.pc.Returned? && !s.copies[i].place.pc.Sent?
    requires ValidConfig(c) && Inv(c, s) && Announced(c, s)
    ensures Announced(c, Apply(c, s, Advance(i, env)))
  {
    hide HandlerStep, Apply, Heard;
    var a := Advance(i, env);
    var t := Apply(c, s, a);
    var copy, next := s.copies[i], StepOf(c, s, i, env);
    AdvanceFrame(c, s, i, env);
    assert CopyValid(c, s, copy);
    if copy.msg.webhook && PastEvent(next.pc) { HandlerHeard(c, s, i, env); }
    forall j | Heard(s, j) ensures Heard(t, j) { StillHeard(c, s, a, j); }
    if copy.msg.webhook && next.effect.Send? && next.effect.queue == JobQueue(c, copy.msg, DeadLetter) { SentHeard(c, s, i, env); }
    MovedAnnounced(c, s, t, i);
  }

  lemma AckAnnounces(c: Config, s: State, i: nat, env: Env)
    requires Inv(c, s) && Announced(c, s) && Enabled(c, s, Advance(i, env))
    requires s.copies[i].place.pc.Returned? || s.copies[i].place.pc.Sent?
    ensures Announced(c, Apply(c, s, Advance(i, env)))
  {
    hide HandlerStep, Apply, Heard, Inv;
    AckFrame(c, s, i, env);
    var t := Apply(c, s, Advance(i, env));
    assert Final(c, t.copies[i]) ==> Final(c, s.copies[i]);
    forall j | Heard(s, j) ensures Heard(t, j) { StillHeard(c, s, Advance(i, env), j); }
    MovedAnnounced(c, s, t, i);
  }

  /** Moves of a copy by the broker, a throw or the watchdog never make it final. */
  lemma MovesAnnounce(c: Config, s: State, a: Action)
    requires ValidConfig(c) && Inv(c, s) && Announced(c, s) && Enabled(c, s, a)
    requires a.Deliver? || a.Expire? || a.Requeue? || a.Fault? || a.Watchdog?
    ensures Announced(c, Apply(c, s, a))
  {
    hide HandlerStep, Apply, Inv, Heard, Final;
    var t := Apply(c, s, a);
    NotFinal(c, s, a);
    MoveFrame(c, s, a);
    forall j | Heard(s, j) ensures Heard(t, j) { StillHeard(c, s, a, j); }
    MovedAnnounced(c, s, t, a.i);
  }

  lemma NotFinal(c: Config, s: State, a: Action)
    requires ValidConfig(c) && Inv(c, s) && Enabled(c, s, a)
    requires a.Deliver? || a.Expire? || a.Requeue? || a.Fault? || a.Watchdog?
    ensures a.i < |Apply(c, s, a).copies| && !Final(c, Apply(c, s, a).copies[a.i])
  {
    hide HandlerStep, Apply, Inv, JobQueue, Refines;
    var copy := s.copies[a.i];
    KnownMessage(c, s, a.i);
    JobQueueRoles(c, copy.msg, Main, DeadLetter);
    MoveFrame(c, s, a);
    if a.Expire? {
      RefinesExpire(c, s, a.i);
    } else if a.Requeue? {
      KnownHolder(c, s, a.i);
    }
  }

  lemma PublishAnnounces(c: Config, s: State, j: JobId)
    requires ValidConfig(c) && Inv(c, s) && Announced(c, s) && Enabled(c, s, Publish(j))
    ensures Announced(c, Apply(c, s, Publish(j)))
  {
    hide HandlerStep, Apply, Heard;
    assert JobValid(c, s, j);
    ApiActs(c, s, Publish(j));
    JobQueueRoles(c, s.jobs[j], Main, DeadLetter);
    var t := Apply(c, s, Publish(j));
    forall k | Heard(s, k) ensures Heard(t, k) { StillHeard(c, s, Publish(j), k); }
    MovedAnnounced(c, s, t, |s.copies|);
  }

  /** Every settled job has been recorded, so a job that is recorded later is not settled. */
  lemma SettledIsJob(c: Config, s: State, j: JobId)
    requires Inv(c, s) && j in s.settled
    ensures j in s.jobs
  {
    assert R.Known(Abs(c, s), j);
    var i :| 0 <= i < |Abs(c, s).copies| && Abs(c, s).copies[i].key == j;
    assert CopyValid(c, s, s.copies[i]);
  }

  lemma OthersAnnounce(c: Config, s: State, a: Action)
    requires Inv(c, s) && Announced(c, s) && Enabled(c, s, a)
    requires a.Record? || a.AnswerCached? || a.CancelRead? || a.CancelStep? || a.StrayStep?
    ensures Announced(c, Apply(c, s, a))
  {
    hide HandlerStep, Apply, Inv, Heard;
    var t := Apply(c, s, a);
    SameCopies(c, s, a);
    forall j | j in s.settled ensures j in s.jobs { SettledIsJob(c, s, j); }
    forall j | Heard(s, j) ensures Heard(t, j) { StillHeard(c, s, a, j); }
  }

  lemma SameCopies(c: Config, s: State, a: Action)
    requires Enabled(c, s, a)
    requires a.Record? || a.AnswerCached? || a.CancelRead? || a.CancelStep? || a.StrayStep?
    ensures Apply(c, s, a).copies == s.copies && Apply(c, s, a).settled == s.settled
    ensures forall j :: j in s.jobs ==> j in Apply(c, s, a).jobs && Apply(c, s, a).jobs[j] == s.jobs[j]
  {
    hide HandlerStep, Apply;
    if a.StrayStep? {
      StrayFrame(c, s, a.z, a.env);
    } else if a.Record? || a.AnswerCached? {
      ApiActs(c, s, a);
    } else {
      CancelCallFrame(c, s, a);
    }
  }

  lemma AnnouncedStep(c: Config, s: State, a: Action)
    requires ValidConfig(c) && Inv(c, s) && Announced(c, s)
    ensures Announced(c, Apply(c, s, a))
  {
    hide HandlerStep, Inv, Announced;
    if Enabled(c, s, a) {
      match a
      case Advance(i, env) =>
        if s.copies[i].place.pc.Returned? || s.copies[i].place.pc.Sent? {
          AckAnnounces(c, s, i, env);
        } else {
          AdvanceAnnounces(c, s, i, env);
        }
      case Publish(j) => PublishAnnounces(c, s, j);
      case Record(_) => OthersAnnounce(c, s, a);
      case AnswerCached(_) => OthersAnnounce(c, s, a);
      case CancelRead(_) => OthersAnnounce(c, s, a);
      case CancelStep(_) => OthersAnnounce(c, s, a);
      case StrayStep(_, _) => OthersAnnounce(c, s, a);
      case _ => MovesAnnounce(c, s, a);
    }
  }

  lemma {:induction false} AnnouncedRun(c: Config, s: State, acts: seq<Action>)
    requires ValidConfig(c) && Inv(c, s) && Announced(c, s)
    ensures Inv(c, Run(c, s, acts)) && Announced(c, Run(c, s, acts))
    decreases |acts|
  {
    hide Apply, Inv, Announced;
    if acts != [] {
      AnnouncedStep(c, s, acts[0]);
      InvStep(c, s, acts[0]);
      AnnouncedRun(c, Apply(c, s, acts[0]), acts[1..]);
    }
  }

  // ---------------------------------------------------------------------------
  // Main result
  // ---------------------------------------------------------------------------

  lemma {:induction false} HeardIsCounted(events: seq<Event>, k: nat, j: JobId)
    requires k < |events| && events[k].job == j && events[k].source == FromWorker
    ensures EventsOf(events, j, FromWorker) != []
  {
    if k < |events| - 1 {
      HeardIsCounted(events[..|events| - 1], k, j);
    }
  }

  /** In every run whatever, a published job of which nothing is waiting or being processed
      any more, and which has a webhook, has published at least one event. */
  lemma AnnouncedAtLeastOnce(c: Config, acts: seq<Action>, j: JobId)
    requires ValidConfig(c) && j in Run(c, INIT, acts).published && Resolved(c, Run(c, INIT, acts), j)
    ensures var s := Run(c, INIT, acts);
      j in s.jobs && (s.jobs[j].webhook ==> EventsOf(s.events, j, FromWorker) != [])
  {
    var s := Run(c, INIT, acts);
    InvInit(c);
    AnnouncedRun(c, INIT, acts);
    NoJobLost(c, acts, j);
    ResolvedIsHeard(c, s, j);
    if s.jobs[j].webhook {
      var k :| 0 <= k < |s.events| && s.events[k].job == j && s.events[k].source == FromWorker;
      HeardIsCounted(s.events, k, j);
    }
  }

  lemma ResolvedIsHeard(c: Config, s: State, j: JobId)
    requires Inv(c, s) && Announced(c, s) && Resolved(c, s, j)
    requires j in s.settled || exists i :: 0 <= i < |s.copies| && s.copies[i].msg.job == j && OnTheWay(c, s.copies[i])
    ensures j in s.jobs && (s.jobs[j].webhook ==> Heard(s, j))
  {
    hide Heard;
    if j in s.settled {
      SettledIsJob(c, s, j);
    } else {
      var i :| 0 <= i < |s.copies| && s.copies[i].msg.job == j && OnTheWay(c, s.copies[i]);
      assert CopyValid(c, s, s.copies[i]);
      assert Final(c, s.copies[i]);
    }
  }
}
