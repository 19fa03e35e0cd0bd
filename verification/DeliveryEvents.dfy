/** Webhook events of quiet runs: no lost connection, no infrastructure fault, no watchdog
    expiry. Each job has exactly one current copy, and the events published for the job
    are determined by where that copy stands. */
module DeliveryEvents {
  import opened Common
  import opened QueueNames
  import opened Delivery
  import opened DeliverySafety

  predicate QuietAction(a: Action) {
    !a.Requeue? && !a.Fault? && !a.Watchdog?
  }

  ghost predicate Quiet(acts: seq<Action>) {
    forall k :: 0 <= k < |acts| ==> QuietAction(acts[k])
  }

  /** The handler of this copy has published the copy that replaces it. */
  predicate HandedOff(copy: Copy) {
    match copy.place
    case InQueue(_) => false
    case Held(_, _, pc) => pc.Sent?
    case Acked(how) => how.HandedOver?
  }

  ghost predicate Current(s: State, i: int, j: JobId) {
    0 <= i < |s.copies| && s.copies[i].msg.job == j && !HandedOff(s.copies[i])
  }

  ghost predicate HasCurrent(s: State, j: JobId) {
    exists i :: Current(s, i, j)
  }

  /** Exactly one current copy for each published job. */
  ghost predicate OneCurrent(s: State) {
    && s.strays == []
    && (forall j :: j in s.published ==> HasCurrent(s, j))
    && (forall i, k, j :: Current(s, i, j) && Current(s, k, j) ==> i == k)
  }

  /** What an action does to the copies: nothing, a new first copy, or a move of one copy
      that may replace it by a successor. */
  datatype Change = Unchanged | NewJob(m: Message) | Moved(i: nat, place: Place, added: seq<Copy>)

  ghost function ChangeOf(c: Config, s: State, a: Action): Change {
    if !Enabled(c, s, a) then Unchanged
    else match a
      case Publish(j) => NewJob(s.jobs[j])
      case Deliver(i, w) => Moved(i, Held(s.copies[i].place.queue, w, ReadRecord), [])
      case Expire(i) => Moved(i, InQueue(s.deadLetter[s.copies[i].place.queue]), [])
      case Advance(i, env) =>
        var copy := s.copies[i];
        (match copy.place.pc
         case Returned(status) => Moved(i, Acked(Settled(status)), [])
         case Sent => Moved(i, Acked(HandedOver), [])
         case _ => Moved(i, copy.place.(pc := StepOf(c, s, i, env).pc), Added(copy.msg, StepOf(c, s, i, env).effect)))
      case _ => Unchanged
  }

  /** The messages and handed-off marks of the copies after a change. */
  ghost predicate Changes(c: Config, s: State, t: State, ch: Change) {
    match ch
    case Unchanged => t.copies == s.copies
    case NewJob(m) => t.copies == s.copies + [NewCopy(m, None, JobQueue(c, m, Main))]
    case Moved(i, place, added) =>
      && i < |s.copies| <= |t.copies| == |s.copies| + |added|
      && |added| <= 1
      && (forall k :: 0 <= k < |s.copies| && k != i ==> t.copies[k] == s.copies[k])
      && t.copies[i].msg == s.copies[i].msg && t.copies[i].place == place
      && (added != [] ==> t.copies[|s.copies|] == added[0])
  }

  lemma ActionChanges(c: Config, s: State, a: Action)
    requires QuietAction(a) && s.strays == []
    ensures Changes(c, s, Apply(c, s, a), ChangeOf(c, s, a))
    ensures Apply(c, s, a).strays == []
  {
    hide HandlerStep, Apply;
    if !Enabled(c, s, a) {
      CancelCallFrame(c, s, a);
    } else if a.Advance? {
      AdvanceChanges(c, s, a.i, a.env);
    } else if MovesCopy(a) {
      MoveFrame(c, s, a);
    } else {
      ApiActs(c, s, a);
    }
  }

  lemma AdvanceChanges(c: Config, s: State, i: nat, env: Env)
    requires Enabled(c, s, Advance(i, env))
    ensures Changes(c, s, Apply(c, s, Advance(i, env)), ChangeOf(c, s, Advance(i, env)))
    ensures Apply(c, s, Advance(i, env)).strays == s.strays
  {
    hide HandlerStep, Apply, JobQueue;
    var pc := s.copies[i].place.pc;
    if pc.Returned? || pc.Sent? { AckFrame(c, s, i, env); } else { AdvanceFrame(c, s, i, env); }
  }

  /** A copy that is handed off stays so; a current copy is replaced only by its successor. */
  lemma MovedMarks(c: Config, s: State, a: Action)
    requires QuietAction(a) && ChangeOf(c, s, a).Moved?
    ensures var ch := ChangeOf(c, s, a);
      && ch.i < |s.copies|
      && (ch.added == [] ==> (HandedOff(s.copies[ch.i]) <==> HandedOff(s.copies[ch.i].(place := ch.place))))
      && (ch.added != [] ==> !HandedOff(s.copies[ch.i]) && HandedOff(s.copies[ch.i].(place := ch.place)))
      && (ch.added != [] ==> !HandedOff(ch.added[0]) && ch.added[0].msg == s.copies[ch.i].msg)
  {
    hide HandlerStep, JobQueue;
    if a.Advance? {
      var copy := s.copies[a.i];
      var pc := copy.place.pc;
      if !pc.Returned? && !pc.Sent? {
        RankFalls(c, copy.msg, Attempt(copy), c.workers[copy.place.worker], pc, RecordOf(s, copy.msg.job), a.env);
      }
    }
  }

  lemma CurrentBack(c: Config, s: State, t: State, a: Action, i: int, j: JobId)
    requires ValidConfig(c) && Inv(c, s) && QuietAction(a) && s.strays == [] && t == Apply(c, s, a)
    requires Current(t, i, j)
    ensures var ch := ChangeOf(c, s, a);
      || Current(s, i, j)
      || (ch.NewJob? && i == |s.copies| && ch.m.job == j)
      || (ch.Moved? && ch.added != [] && i == |s.copies| && Current(s, ch.i, j) && !Current(t, ch.i, j))
  {
    hide HandlerStep, Apply, Inv, Enabled, ChangeOf;
    ActionChanges(c, s, a);
    var ch := ChangeOf(c, s, a);
    if ch.Moved? {
      MovedMarks(c, s, a);
    }
  }

  lemma CurrentForward(c: Config, s: State, t: State, a: Action, i: int, j: JobId)
    requires ValidConfig(c) && Inv(c, s) && QuietAction(a) && s.strays == [] && t == Apply(c, s, a)
    requires Current(s, i, j)
    ensures var ch := ChangeOf(c, s, a);
      || Current(t, i, j)
      || (ch.Moved? && ch.i == i && ch.added != [] && Current(t, |s.copies|, j))
  {
    hide HandlerStep, Apply, Inv, Enabled, ChangeOf;
    ActionChanges(c, s, a);
    var ch := ChangeOf(c, s, a);
    if ch.Moved? {
      MovedMarks(c, s, a);
    }
  }

  lemma PublishedHasCurrent(c: Config, s: State, a: Action, j: JobId)
    requires ValidConfig(c) && Inv(c, s) && QuietAction(a) && OneCurrent(s)
    requires j in Apply(c, s, a).published
    ensures HasCurrent(Apply(c, s, a), j)
  {
    var t := Apply(c, s, a);
    if j in s.published {
      var i :| Current(s, i, j);
      CurrentForward(c, s, t, a, i, j);
    } else {
      Grows(c, s, a);
      assert JobValid(c, s, a.j);
      assert Current(t, |s.copies|, j);
    }
  }

  lemma OneCurrentStep(c: Config, s: State, a: Action)
    requires ValidConfig(c) && Inv(c, s) && QuietAction(a) && OneCurrent(s)
    ensures OneCurrent(Apply(c, s, a))
  {
    hide HandlerStep, Apply, Changes, HandedOff, Abs, PlaceValid, StrayValid;
    var t := Apply(c, s, a);
    ActionChanges(c, s, a);
    forall j | j in t.published ensures HasCurrent(t, j) {
      PublishedHasCurrent(c, s, a, j);
    }
    forall i, k, j | Current(t, i, j) && Current(t, k, j) ensures i == k {
      CurrentBack(c, s, t, a, i, j);
      CurrentBack(c, s, t, a, k, j);
      if ChangeOf(c, s, a).NewJob? {
        assert JobValid(c, s, a.j);
        if Current(s, i, j) { assert CopyValid(c, s, s.copies[i]); }
        if Current(s, k, j) { assert CopyValid(c, s, s.copies[k]); }
      }
    }
  }

  // ---------------------------------------------------------------------------
  // Events
  // ---------------------------------------------------------------------------

  /** The events of one job from one source, in order. */
  function EventsOf(events: seq<Event>, j: JobId, source: Source): seq<Event> {
    if events == [] then []
    else
      var last := events[|events| - 1];
      EventsOf(events[..|events| - 1], j, source) + if last.job == j && last.source == source then [last] else []
  }

  lemma EventsAppend(events: seq<Event>, more: seq<Event>, j: JobId, source: Source)
    requires |more| <= 1
    ensures EventsOf(events + more, j, source) == EventsOf(events, j, source) + EventsOf(more, j, source)
    ensures EventsOf(more, j, source) == if more != [] && more[0].job == j && more[0].source == source then more else []
  {
    if more == [] {
      assert events + more == events;
    } else {
      assert (events + more)[..|events|] == events;
      assert more == [more[0]];
      assert EventsOf(more[..0], j, source) == [];
    }
  }

  lemma EventsForOne(m: Message, status: Status, source: Source)
    ensures |EventsFor(m, status, source)| <= 1
    ensures EventsFor(m, status, source) != [] ==> EventsFor(m, status, source)[0].job == m.job
    ensures EventsFor(m, status, source) != [] ==> EventsFor(m, status, source)[0].source == source
  {
  }

  /** What the worker has told the webhook queue when a copy stands at this place. */
  function Expected(c: Config, m: Message, place: Place): seq<Event> {
    match place
    case InQueue(q) => if q == JobQueue(c, m, DeadLetter) then EventsFor(m, Failed, FromWorker) else []
    case Held(_, _, pc) => ExpectedAt(m, pc)
    case Acked(Settled(status)) => EventsFor(m, status, FromWorker)
    case Acked(HandedOver) => []
  }

  function ExpectedAt(m: Message, pc: Pc): seq<Event> {
    match pc
    case StoreCache => EventsFor(m, Completed, FromWorker)
    case MarkIdle => EventsFor(m, Completed, FromWorker)
    case Returned(status) => EventsFor(m, status, FromWorker)
    case SendDead => EventsFor(m, Failed, FromWorker)
    case _ => []
  }

  ghost predicate Told(c: Config, s: State, i: int, j: JobId)
    requires 0 <= i < |s.copies|
  {
    EventsOf(s.events, j, FromWorker) == Expected(c, s.copies[i].msg, s.copies[i].place)
  }

  ghost predicate EventsMatch(c: Config, s: State) {
    && (forall i, j :: Current(s, i, j) ==> Told(c, s, i, j))
    && (forall j :: j !in s.published ==> EventsOf(s.events, j, FromWorker) == [])
  }

  /** The events an action publishes. */
  ghost function Published(c: Config, s: State, a: Action): seq<Event> {
    if !Enabled(c, s, a) then []
    else match a
      case AnswerCached(m) => EventsFor(m, Completed, FromApi)
      case CancelStep(k) =>
        if s.cancels[k].pc == PublishEvent then EventsFor(s.jobs[s.cancels[k].job], Cancelled, FromApi) else []
      case Advance(i, env) => NewEvents(s.copies[i].msg, StepOf(c, s, i, env).effect)
      case _ => []
  }

  lemma AdvancePublishes(c: Config, s: State, i: nat, env: Env)
    requires Enabled(c, s, Advance(i, env))
    ensures Apply(c, s, Advance(i, env)).events == s.events + NewEvents(s.copies[i].msg, StepOf(c, s, i, env).effect)
  {
    hide Apply;
    var pc := s.copies[i].place.pc;
    if pc.Returned? || pc.Sent? { AckFrame(c, s, i, env); } else { AdvanceFrame(c, s, i, env); }
  }

  lemma ActionPublishes(c: Config, s: State, a: Action)
    requires s.strays == []
    ensures Apply(c, s, a).events == s.events + Published(c, s, a)
    ensures |Published(c, s, a)| <= 1
  {
    hide HandlerStep, Apply;
    if !Enabled(c, s, a) {
      CancelCallFrame(c, s, a);
    } else if a.Advance? {
      AdvancePublishes(c, s, a.i, a.env);
    } else if MovesCopy(a) {
      MoveFrame(c, s, a);
    } else {
      ApiActs(c, s, a);
    }
  }

  /** A handler step publishes exactly what its next place adds to the expectation. */
  lemma StepTells(c: Config, m: Message, attempt: nat, w: Worker, pc: Pc, record: Option<Status>, env: Env)
    ensures var next := HandlerStep(c, m, attempt, w, pc, record, env);
      && (!next.pc.Sent? ==> ExpectedAt(m, next.pc) == ExpectedAt(m, pc) + NewEvents(m, next.effect))
      && (next.pc.Sent? ==> NewEvents(m, next.effect) == [])
    ensures ExpectedAt(m, SendRetry) == []
    ensures ExpectedAt(m, SendDead) == EventsFor(m, Failed, FromWorker)
  {
  }

  lemma AckTells(c: Config, s: State, i: nat, env: Env, j: JobId)
    requires Enabled(c, s, Advance(i, env)) && Current(s, i, j) && Told(c, s, i, j)
    requires s.copies[i].place.pc.Returned?
    ensures Told(c, Apply(c, s, Advance(i, env)), i, j)
  {
    hide HandlerStep, Apply;
    AckFrame(c, s, i, env);
  }

  lemma StaysTold(c: Config, s: State, i: nat, env: Env, j: JobId)
    requires Enabled(c, s, Advance(i, env)) && Current(s, i, j) && Told(c, s, i, j)
    requires !s.copies[i].place.pc.Returned? && !StepOf(c, s, i, env).pc.Sent?
    ensures i < |Apply(c, s, Advance(i, env)).copies| && Told(c, Apply(c, s, Advance(i, env)), i, j)
  {
    hide HandlerStep, Apply, EventsOf;
    var copy := s.copies[i];
    var next := StepOf(c, s, i, env);
    AdvanceFrame(c, s, i, env);
    StepTells(c, copy.msg, Attempt(copy), c.workers[copy.place.worker], copy.place.pc, RecordOf(s, copy.msg.job), env);
    EventsForStep(copy.msg, next.effect, j);
    EventsAppend(s.events, NewEvents(copy.msg, next.effect), j, FromWorker);
  }

  lemma EventsForStep(m: Message, e: Effect, j: JobId)
    ensures |NewEvents(m, e)| <= 1
    ensures EventsOf(NewEvents(m, e), j, FromWorker) == if m.job == j then NewEvents(m, e) else []
  {
    EventsAppend([], NewEvents(m, e), j, FromWorker);
  }

  /** The copy that replaces copy i is told what copy i was. */
  lemma SuccessorTold(c: Config, s: State, i: nat, env: Env, j: JobId)
    requires ValidConfig(c) && Enabled(c, s, Advance(i, env)) && Current(s, i, j)
    requires ValidMessage(c, s.copies[i].msg) && Told(c, s, i, j)
    requires !s.copies[i].place.pc.Returned? && StepOf(c, s, i, env).pc.Sent?
    ensures var t := Apply(c, s, Advance(i, env));
      |t.copies| == |s.copies| + 1 && Told(c, t, |s.copies|, j)
  {
    hide HandlerStep, Apply, EventsOf, JobQueue;
    var copy := s.copies[i];
    var next := StepOf(c, s, i, env);
    AdvanceFrame(c, s, i, env);
    var w := c.workers[copy.place.worker];
    RankFalls(c, copy.msg, Attempt(copy), w, copy.place.pc, RecordOf(s, copy.msg.job), env);
    StepTells(c, copy.msg, Attempt(copy), w, copy.place.pc, RecordOf(s, copy.msg.job), env);
    JobQueueRoles(c, copy.msg, Retry, DeadLetter);
    assert s.events + [] == s.events;
  }

  /** An event on the queue comes from the API or from the step of a current copy. */
  lemma PublishedBy(c: Config, s: State, a: Action, j: JobId)
    requires EventsOf(Published(c, s, a), j, FromWorker) != []
    ensures Enabled(c, s, a) && a.Advance? && Current(s, a.i, j)
  {
    if Enabled(c, s, a) && a.Advance? {
      EventsForStep(s.copies[a.i].msg, StepOf(c, s, a.i, a.env).effect, j);
    } else if Enabled(c, s, a) && a.AnswerCached? {
      EventsForOne(a.m, Completed, FromApi);
      EventsAppend([], EventsFor(a.m, Completed, FromApi), j, FromWorker);
    } else if Enabled(c, s, a) && a.CancelStep? {
      var m := s.jobs[s.cancels[a.k].job];
      EventsForOne(m, Cancelled, FromApi);
      EventsAppend([], EventsFor(m, Cancelled, FromApi), j, FromWorker);
    }
  }

  /** An action that is not a handler step of the job's current copy tells nothing new. */
  lemma OthersTellNothing(c: Config, s: State, a: Action, j: JobId)
    requires s.strays == []
    requires !a.Advance? || !Enabled(c, s, a) || !Current(s, a.i, j)
    ensures EventsOf(Apply(c, s, a).events, j, FromWorker) == EventsOf(s.events, j, FromWorker)
  {
    ActionPublishes(c, s, a);
    EventsAppend(s.events, Published(c, s, a), j, FromWorker);
    if EventsOf(Published(c, s, a), j, FromWorker) != [] {
      PublishedBy(c, s, a, j);
    }
  }

  lemma QueueMoveExpects(c: Config, s: State, a: Action)
    requires ValidConfig(c) && Inv(c, s) && Enabled(c, s, a) && (a.Deliver? || a.Expire?)
    ensures var t := Apply(c, s, a);
      Expected(c, t.copies[a.i].msg, t.copies[a.i].place) == Expected(c, s.copies[a.i].msg, s.copies[a.i].place) == []
  {
    hide HandlerStep, Apply, Inv, JobQueue, Refines, QueueName;
    var m := s.copies[a.i].msg;
    KnownMessage(c, s, a.i);
    JobQueueRoles(c, m, Main, DeadLetter);
    JobQueueRoles(c, m, Retry, DeadLetter);
    MoveFrame(c, s, a);
    if a.Deliver? { RefinesDeliver(c, s, a.i, a.w); } else { RefinesExpire(c, s, a.i); }
  }

  /** The step hands the job over to a new copy. */
  predicate Replaced(c: Config, s: State, i: nat, env: Env)
    requires Enabled(c, s, Advance(i, env))
  {
    !s.copies[i].place.pc.Returned? && StepOf(c, s, i, env).pc.Sent?
  }

  /** Which copy is current after a step of the current copy. */
  lemma CurrentAfterStep(c: Config, s: State, i: nat, env: Env, k: int, j: JobId)
    requires Enabled(c, s, Advance(i, env)) && Current(s, i, j) && Current(Apply(c, s, Advance(i, env)), k, j)
    requires ValidConfig(c) && Inv(c, s) && OneCurrent(s)
    ensures k == if Replaced(c, s, i, env) then |s.copies| else i
  {
    hide HandlerStep, Apply, Inv;
    var a := Advance(i, env);
    ActionChanges(c, s, a);
    MovedMarks(c, s, a);
    CurrentBack(c, s, Apply(c, s, a), a, k, j);
  }

  lemma AdvanceTells(c: Config, s: State, i: nat, env: Env, k: int, j: JobId)
    requires ValidConfig(c) && Inv(c, s) && OneCurrent(s) && EventsMatch(c, s)
    requires Enabled(c, s, Advance(i, env)) && Current(s, i, j) && Current(Apply(c, s, Advance(i, env)), k, j)
    ensures Told(c, Apply(c, s, Advance(i, env)), k, j)
  {
    hide HandlerStep, Apply, Inv, OneCurrent, Told;
    KnownMessage(c, s, i);
    CurrentAfterStep(c, s, i, env, k, j);
    assert Told(c, s, i, j);
    if s.copies[i].place.pc.Returned? {
      AckTells(c, s, i, env, j);
    } else if Replaced(c, s, i, env) {
      SuccessorTold(c, s, i, env, j);
    } else {
      StaysTold(c, s, i, env, j);
    }
  }

  lemma ToldAgain(c: Config, s: State, t: State, i: int, j: JobId)
    requires 0 <= i < |s.copies| && i < |t.copies| && Told(c, s, i, j)
    requires EventsOf(t.events, j, FromWorker) == EventsOf(s.events, j, FromWorker)
    requires Expected(c, t.copies[i].msg, t.copies[i].place) == Expected(c, s.copies[i].msg, s.copies[i].place)
    ensures Told(c, t, i, j)
  {
  }

  /** A copy that is current before and after, while no handler step of the job happens. */
  lemma StillTold(c: Config, s: State, a: Action, i: int, j: JobId)
    requires ValidConfig(c) && Inv(c, s) && QuietAction(a) && OneCurrent(s) && EventsMatch(c, s)
    requires !a.Advance? || !Enabled(c, s, a) || !Current(s, a.i, j)
    requires Current(s, i, j) && Current(Apply(c, s, a), i, j)
    ensures Told(c, Apply(c, s, a), i, j)
  {
    hide HandlerStep, Apply, Expected, EventsOf, Inv;
    ActionChanges(c, s, a);
    OthersTellNothing(c, s, a, j);
    assert Told(c, s, i, j);
    if Enabled(c, s, a) && (a.Deliver? || a.Expire?) { QueueMoveExpects(c, s, a); }
    ToldAgain(c, s, Apply(c, s, a), i, j);
  }

  /** The first copy of a job: nothing has been told about it. */
  lemma NewTold(c: Config, s: State, a: Action, j: JobId)
    requires ValidConfig(c) && Inv(c, s) && OneCurrent(s) && EventsMatch(c, s)
    requires Enabled(c, s, a) && a.Publish? && s.jobs[a.j].job == j
    requires |Apply(c, s, a).copies| == |s.copies| + 1
    ensures Told(c, Apply(c, s, a), |s.copies|, j)
  {
    hide HandlerStep, EventsOf;
    assert JobValid(c, s, a.j);
    OthersTellNothing(c, s, a, j);
    JobQueueRoles(c, s.jobs[a.j], Main, DeadLetter);
  }

  lemma CurrentTold(c: Config, s: State, a: Action, i: int, j: JobId)
    requires ValidConfig(c) && Inv(c, s) && QuietAction(a) && OneCurrent(s) && EventsMatch(c, s)
    requires Current(Apply(c, s, a), i, j)
    ensures Told(c, Apply(c, s, a), i, j)
  {
    hide HandlerStep, Apply, Told, Inv;
    ActionChanges(c, s, a);
    CurrentBack(c, s, Apply(c, s, a), a, i, j);
    if Enabled(c, s, a) && a.Advance? && Current(s, a.i, j) {
      AdvanceTells(c, s, a.i, a.env, i, j);
    } else if Current(s, i, j) {
      StillTold(c, s, a, i, j);
    } else {
      NewTold(c, s, a, j);
    }
  }

  lemma EventsMatchStep(c: Config, s: State, a: Action)
    requires ValidConfig(c) && Inv(c, s) && QuietAction(a) && OneCurrent(s) && EventsMatch(c, s)
    ensures EventsMatch(c, Apply(c, s, a))
  {
    var t := Apply(c, s, a);
    forall i, j | Current(t, i, j) ensures Told(c, t, i, j) {
      CurrentTold(c, s, a, i, j);
    }
    forall j | j !in t.published ensures EventsOf(t.events, j, FromWorker) == [] {
      Grows(c, s, a);
      if Enabled(c, s, a) && a.Advance? { assert CopyValid(c, s, s.copies[a.i]); }
      OthersTellNothing(c, s, a, j);
    }
  }
}
