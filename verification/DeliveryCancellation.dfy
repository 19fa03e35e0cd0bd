/** When a cancel is final. Neither the check in the API's cancel nor the check in the
    worker's process call is atomic with the write that follows it, so a cancel can be
    overwritten; this module says exactly when. */
module DeliveryCancellation {
  import opened Common
  import opened QueueNames
  import opened Sums
  import opened Delivery
  import opened DeliverySafety
  import opened DeliveryBounds
  import opened DeliveryEvents
  import L = ScrapeLoop

  /** Handler steps after which the handler will still write the job's status. */
  predicate WritesLater(pc: Pc) {
    match pc
    case MarkProcessing => true
    case LookupCache => true
    case HitStatus => true
    case Execute => true
    case FailStatus => true
    case FailResult => true
    case DoneStatus => true
    case QueuedStatus => true
    case DeadStatus => true
    case _ => false
  }

  /** The same for a process call whose handler has given up on it. */
  predicate StrayWritesLater(pc: Pc) {
    InProcess(pc) && WritesLater(pc) && pc != FailResult
  }

  ghost predicate Writer(s: State, i: int, j: JobId) {
    0 <= i < |s.copies| && s.copies[i].msg.job == j && s.copies[i].place.Held? && WritesLater(s.copies[i].place.pc)
  }

  ghost predicate StrayWriter(s: State, z: int, j: JobId) {
    0 <= z < |s.strays| && s.strays[z].msg.job == j && StrayWritesLater(s.strays[z].pc)
  }

  /** Some worker is past its check of the record and will still write the status. */
  ghost predicate PendingWriter(s: State, j: JobId) {
    (exists i :: Writer(s, i, j)) || (exists z :: StrayWriter(s, z, j))
  }

  ghost predicate Frozen(s: State, j: JobId) {
    RecordOf(s, j) == Some(Cancelled) && !PendingWriter(s, j)
  }

  /** No infrastructure fault and no watchdog expiry. Lost connections are allowed. */
  ghost predicate NoThrow(acts: seq<Action>) {
    forall k :: 0 <= k < |acts| ==> !acts[k].Fault? && !acts[k].Watchdog?
  }

  // ---------------------------------------------------------------------------
  // A frozen job stays cancelled
  // ---------------------------------------------------------------------------

  /** A handler that writes nothing later writes no status now and starts to write only
      after it read a record that is not cancelled. */
  lemma StepOfNonWriter(c: Config, m: Message, attempt: nat, w: Worker, pc: Pc, record: Option<Status>, env: Env)
    requires !WritesLater(pc)
    ensures var next := HandlerStep(c, m, attempt, w, pc, record, env);
      && !next.effect.SetStatus? && !next.effect.Scraped?
      && (record == Some(Cancelled) ==> !WritesLater(next.pc))
  {
  }

  lemma FrozenAdvance(c: Config, s: State, i: nat, env: Env, j: JobId)
    requires Enabled(c, s, Advance(i, env)) && Frozen(s, j)
    ensures var t := Apply(c, s, Advance(i, env));
      && Frozen(t, j) && Sum(t.scrapes, ScrapesOf(j)) == Sum(s.scrapes, ScrapesOf(j))
  {
    hide HandlerStep, Apply, Sum;
    var copy := s.copies[i];
    var t := Apply(c, s, Advance(i, env));
    assert copy.msg.job == j ==> !WritesLater(copy.place.pc) by { assert !Writer(s, i, j); }
    if copy.place.pc.Returned? || copy.place.pc.Sent? {
      AckFrame(c, s, i, env);
    } else {
      var next := StepOf(c, s, i, env);
      AdvanceFrame(c, s, i, env);
      if copy.msg.job == j {
        StepOfNonWriter(c, copy.msg, Attempt(copy), c.workers[copy.place.worker], copy.place.pc, RecordOf(s, j), env);
      }
      ScrapesOfOther(s, copy.msg, copy.place.worker, next.effect, j);
    }
    NoNewWriter(s, t, i, j);
  }

  lemma ScrapesOfOther(s: State, m: Message, worker: string, e: Effect, j: JobId)
    requires m.job != j || !e.Scraped?
    ensures Sum(s.scrapes + NewScrapes(m, worker, e), ScrapesOf(j)) == Sum(s.scrapes, ScrapesOf(j))
  {
    SumConcat(s.scrapes, NewScrapes(m, worker, e), ScrapesOf(j));
    if e.Scraped? { ScrapeLogSum(m, worker, e.strategies, j); }
  }

  /** Copy i aside, no copy became a writer. */
  lemma NoNewWriter(s: State, t: State, i: nat, j: JobId)
    requires !PendingWriter(s, j) && t.strays == s.strays && |s.copies| <= |t.copies|
    requires forall k :: 0 <= k < |s.copies| && k != i ==> t.copies[k] == s.copies[k]
    requires forall k :: |s.copies| <= k < |t.copies| ==> t.copies[k].place.InQueue?
    requires i < |s.copies| ==> !Writer(t, i, j)
    ensures !PendingWriter(t, j)
  {
    forall k ensures !Writer(t, k, j) { assert !Writer(s, k, j); }
    forall z ensures !StrayWriter(t, z, j) { assert !StrayWriter(s, z, j); }
  }

  lemma FrozenStray(c: Config, s: State, z: nat, env: Env, j: JobId)
    requires Enabled(c, s, StrayStep(z, env)) && Frozen(s, j)
    ensures var t := Apply(c, s, StrayStep(z, env));
      && Frozen(t, j) && Sum(t.scrapes, ScrapesOf(j)) == Sum(s.scrapes, ScrapesOf(j))
  {
    var stray := s.strays[z];
    var t := Apply(c, s, StrayStep(z, env));
    var next := StrayNext(c, s, z, env);
    StrayFrame(c, s, z, env);
    assert stray.msg.job == j ==> !StrayWritesLater(stray.pc) by { assert !StrayWriter(s, z, j); }
    if stray.msg.job == j {
      StrayNonWriter(c, stray.msg, stray.attempt, c.workers[stray.worker], stray.pc, RecordOf(s, j), env);
    }
    ScrapesOfOther(s, stray.msg, stray.worker, next.effect, j);
    forall k ensures !Writer(t, k, j) { assert !Writer(s, k, j); }
    forall y ensures !StrayWriter(t, y, j) { assert !StrayWriter(s, y, j); }
  }

  lemma StrayNonWriter(c: Config, m: Message, attempt: nat, w: Worker, pc: Pc, record: Option<Status>, env: Env)
    requires InProcess(pc) && !StrayWritesLater(pc)
    ensures var next := HandlerStep(c, m, attempt, w, pc, record, env);
      && !next.effect.SetStatus? && !next.effect.Scraped?
      && (record == Some(Cancelled) ==> !StrayWritesLater(next.pc))
  {
  }

  lemma FrozenApi(c: Config, s: State, a: Action, j: JobId)
    requires Enabled(c, s, a) && RecordOf(s, j) == Some(Cancelled) && j in s.jobs
    requires !MovesCopy(a) && !a.Advance? && !a.StrayStep?
    ensures var t := Apply(c, s, a);
      && RecordOf(t, j) == Some(Cancelled) && t.scrapes == s.scrapes && t.strays == s.strays
      && s.copies <= t.copies
      && forall k :: |s.copies| <= k < |t.copies| ==> t.copies[k].place.InQueue?
  {
    hide HandlerStep, Apply, JobQueue;
    ApiActs(c, s, a);
  }

  lemma FrozenElse(c: Config, s: State, a: Action, j: JobId)
    requires Inv(c, s) && Enabled(c, s, a) && Frozen(s, j) && j in s.jobs
    requires !a.Fault? && !a.Watchdog? && !a.Advance? && !a.StrayStep?
    ensures Frozen(Apply(c, s, a), j) && Apply(c, s, a).scrapes == s.scrapes
  {
    hide HandlerStep, Apply, Inv, JobQueue;
    var t := Apply(c, s, a);
    if MovesCopy(a) { MoveFrame(c, s, a); } else { FrozenApi(c, s, a, j); }
    var i := if a.Deliver? || a.Expire? || a.Requeue? then a.i else |s.copies|;
    NoNewWriter(s, t, i, j);
  }

  lemma FrozenStep(c: Config, s: State, a: Action, j: JobId)
    requires Inv(c, s) && Frozen(s, j) && j in s.jobs && !a.Fault? && !a.Watchdog?
    ensures Frozen(Apply(c, s, a), j) && j in Apply(c, s, a).jobs
    ensures Sum(Apply(c, s, a).scrapes, ScrapesOf(j)) == Sum(s.scrapes, ScrapesOf(j))
  {
    Grows(c, s, a);
    if Enabled(c, s, a) {
      match a
      case Advance(i, env) => FrozenAdvance(c, s, i, env, j);
      case StrayStep(z, env) => FrozenStray(c, s, z, env, j);
      case _ => FrozenElse(c, s, a, j);
    }
  }

  lemma {:induction false} FrozenRun(c: Config, s: State, acts: seq<Action>, j: JobId)
    requires ValidConfig(c) && Inv(c, s) && Frozen(s, j) && j in s.jobs && NoThrow(acts)
    ensures var t := Run(c, s, acts);
      && RecordOf(t, j) == Some(Cancelled)
      && Sum(t.scrapes, ScrapesOf(j)) == Sum(s.scrapes, ScrapesOf(j))
    decreases |acts|
  {
    if acts != [] {
      FrozenStep(c, s, acts[0], j);
      InvStep(c, s, acts[0]);
      FrozenRun(c, Apply(c, s, acts[0]), acts[1..], j);
    }
  }

  // ---------------------------------------------------------------------------
  // A pending writer can overwrite the cancel
  // ---------------------------------------------------------------------------

  const MISS := Env(false, [], false)

  /** With a cache miss and failing strategies every writer writes within a few steps. */
  lemma WriterStep(c: Config, m: Message, attempt: nat, w: Worker, pc: Pc, record: Option<Status>)
    requires WritesLater(pc)
    ensures var next := HandlerStep(c, m, attempt, w, pc, record, MISS);
      if next.effect.SetStatus? then next.effect.status != Cancelled
      else WritesLater(next.pc) && Rank(next.pc) < Rank(pc) && (StrayWritesLater(pc) ==> StrayWritesLater(next.pc))
  {
    if pc == Execute {
      var plan := L.ResolvePlan(m.strategy, w.defaultStrategy, w.allowed);
      var out := L.Scrape(plan, m.maxRetries, m.retryDelayMs, []);
      assert L.Meets(plan, m.maxRetries, m.retryDelayMs, [], out);
    }
  }

  lemma {:induction false} WriterOverwrites(c: Config, s: State, i: nat, j: JobId) returns (more: seq<Action>)
    requires ValidConfig(c) && Inv(c, s) && Writer(s, i, j)
    ensures NoThrow(more) && RecordOf(Run(c, s, more), j) != Some(Cancelled)
    decreases Rank(s.copies[i].place.pc)
  {
    hide HandlerStep, Apply, Inv, JobQueue;
    var copy := s.copies[i];
    var a := Advance(i, MISS);
    KnownMessage(c, s, i);
    KnownHolder(c, s, i);
    var next := StepOf(c, s, i, MISS);
    WriterStep(c, copy.msg, Attempt(copy), c.workers[copy.place.worker], copy.place.pc, RecordOf(s, j));
    AdvanceFrame(c, s, i, MISS);
    InvStep(c, s, a);
    var t := Apply(c, s, a);
    var rest := [];
    if !next.effect.SetStatus? {
      assert Writer(t, i, j);
      rest := WriterOverwrites(c, t, i, j);
    }
    more := [a] + rest;
    assert more[1..] == rest;
  }

  lemma {:induction false} StrayOverwrites(c: Config, s: State, z: nat, j: JobId) returns (more: seq<Action>)
    requires ValidConfig(c) && Inv(c, s) && StrayWriter(s, z, j)
    ensures NoThrow(more) && RecordOf(Run(c, s, more), j) != Some(Cancelled)
    decreases Rank(s.strays[z].pc)
  {
    var stray := s.strays[z];
    var a := StrayStep(z, MISS);
    assert StrayValid(c, s, stray) && JobValid(c, s, j);
    var next := StrayNext(c, s, z, MISS);
    WriterStep(c, stray.msg, stray.attempt, c.workers[stray.worker], stray.pc, RecordOf(s, j));
    StrayFrame(c, s, z, MISS);
    InvStep(c, s, a);
    var t := Apply(c, s, a);
    var rest := [];
    if !next.effect.SetStatus? {
      assert StrayWriter(t, z, j);
      rest := StrayOverwrites(c, t, z, j);
    }
    more := [a] + rest;
    assert more[1..] == rest;
  }

  // ---------------------------------------------------------------------------
  // Main results
  // ---------------------------------------------------------------------------

  ghost predicate Cancelling(s: State, k: nat, j: JobId) {
    k < |s.cancels| && s.cancels[k] == CancelCall(j, WriteStatus) && j in s.jobs
  }

  ghost predicate StaysCancelled(c: Config, s: State, j: JobId) {
    forall more {:trigger Run(c, s, more)} :: NoThrow(more) ==> RecordOf(Run(c, s, more), j) == Some(Cancelled)
  }

  /** The status write of a cancel call, in any reachable state, is final for every
      continuation without faults and watchdog expiries (lost connections included)
      exactly when no worker is past its check and about to write the status. */
  lemma CancelIsFinalIff(c: Config, acts: seq<Action>, k: nat, j: JobId)
    requires ValidConfig(c) && Cancelling(Run(c, INIT, acts), k, j)
    ensures var s := Run(c, INIT, acts);
      StaysCancelled(c, Apply(c, s, CancelStep(k)), j) <==> !PendingWriter(s, j)
  {
    var s := Run(c, INIT, acts);
    var t := Apply(c, s, CancelStep(k));
    InvInit(c);
    InvRun(c, INIT, acts);
    InvStep(c, s, CancelStep(k));
    CancelWrites(c, s, k, j);
    if PendingWriter(s, j) {
      var more;
      if i :| Writer(s, i, j) {
        more := WriterOverwrites(c, t, i, j);
      } else {
        var z :| StrayWriter(s, z, j);
        more := StrayOverwrites(c, t, z, j);
      }
      assert RecordOf(Run(c, t, more), j) != Some(Cancelled);
    } else {
      forall more | NoThrow(more) ensures RecordOf(Run(c, t, more), j) == Some(Cancelled) {
        FrozenRun(c, t, more, j);
      }
    }
  }

  lemma CancelWrites(c: Config, s: State, k: nat, j: JobId)
    requires Inv(c, s) && Cancelling(s, k, j)
    ensures var t := Apply(c, s, CancelStep(k));
      && RecordOf(t, j) == Some(Cancelled) && j in t.jobs
      && t.copies == s.copies && t.strays == s.strays && t.scrapes == s.scrapes
      && (PendingWriter(t, j) <==> PendingWriter(s, j))
  {
    hide HandlerStep, Apply;
    ApiActs(c, s, CancelStep(k));
    var t := Apply(c, s, CancelStep(k));
    assert forall i :: Writer(t, i, j) <==> Writer(s, i, j);
    assert forall z :: StrayWriter(t, z, j) <==> StrayWriter(s, z, j);
  }

  /** In the same situation the job is never scraped again. */
  lemma NeverScrapedAfterCancel(c: Config, acts: seq<Action>, k: nat, j: JobId, more: seq<Action>)
    requires ValidConfig(c) && Cancelling(Run(c, INIT, acts), k, j)
    requires !PendingWriter(Run(c, INIT, acts), j) && NoThrow(more)
    ensures var s := Run(c, INIT, acts);
      Sum(Run(c, Apply(c, s, CancelStep(k)), more).scrapes, ScrapesOf(j)) == Sum(s.scrapes, ScrapesOf(j))
  {
    var s := Run(c, INIT, acts);
    InvInit(c);
    InvRun(c, INIT, acts);
    InvStep(c, s, CancelStep(k));
    CancelWrites(c, s, k, j);
    FrozenRun(c, Apply(c, s, CancelStep(k)), more, j);
  }

  // ---------------------------------------------------------------------------
  // What atomic checks would guarantee
  // ---------------------------------------------------------------------------

  /** In a quiet run a queued record means that no handler is past its first write. */
  ghost predicate QueuedUnclaimed(s: State) {
    forall i, j :: Claimed(s, i, j) ==> RecordOf(s, j) != Some(Queued)
  }

  lemma StepLeavesQueue(c: Config, m: Message, attempt: nat, w: Worker, pc: Pc, record: Option<Status>, env: Env)
    ensures var next := HandlerStep(c, m, attempt, w, pc, record, env);
      && (WritesLater(next.pc) && next.pc != MarkProcessing ==>
            (next.effect.SetStatus? && next.effect.status != Queued)
            || (!next.effect.SetStatus? && WritesLater(pc) && pc != MarkProcessing))
      && (next.effect.SetStatus? && next.effect.status == Queued ==> pc == QueuedStatus)
      && (next.pc.Sent? ==> !next.effect.SetStatus?)
  {
  }

  ghost predicate Claimed(s: State, k: int, j: JobId) {
    Writer(s, k, j) && s.copies[k].place.pc != MarkProcessing
  }

  lemma OwnStepClaims(c: Config, s: State, i: nat, env: Env, j: JobId)
    requires ValidConfig(c) && Inv(c, s) && QueuedUnclaimed(s) && Enabled(c, s, Advance(i, env))
    requires Claimed(Apply(c, s, Advance(i, env)), i, j)
    ensures RecordOf(Apply(c, s, Advance(i, env)), j) != Some(Queued)
  {
    hide HandlerStep, Apply, Inv;
    var copy := s.copies[i];
    if copy.place.pc.Returned? || copy.place.pc.Sent? { AckFrame(c, s, i, env); }
    AdvanceFrame(c, s, i, env);
    KnownMessage(c, s, i);
    StepLeavesQueue(c, copy.msg, Attempt(copy), c.workers[copy.place.worker], copy.place.pc, RecordOf(s, copy.msg.job), env);
    assert WritesLater(copy.place.pc) && copy.place.pc != MarkProcessing ==> Claimed(s, i, j);
  }

  lemma OtherClaimed(c: Config, s: State, i: nat, env: Env, k: int, j: JobId)
    requires s.strays == [] && Enabled(c, s, Advance(i, env))
    requires k != i && Claimed(Apply(c, s, Advance(i, env)), k, j)
    ensures Claimed(s, k, j)
  {
    hide HandlerStep, Apply;
    ActionChanges(c, s, Advance(i, env));
  }

  /** A handler step leaves the records of other jobs alone, and so does an ack. */
  lemma StepKeepsRecord(c: Config, s: State, i: nat, env: Env, j: JobId)
    requires Enabled(c, s, Advance(i, env)) && (s.copies[i].msg.job != j || s.copies[i].place.pc.Sent?)
    ensures RecordOf(Apply(c, s, Advance(i, env)), j) == RecordOf(s, j)
  {
    hide HandlerStep, Apply;
    var pc := s.copies[i].place.pc;
    if pc.Returned? || pc.Sent? { AckFrame(c, s, i, env); } else { AdvanceFrame(c, s, i, env); }
  }

  lemma OtherStepClaims(c: Config, s: State, i: nat, env: Env, k: int, j: JobId)
    requires ValidConfig(c) && Inv(c, s) && OneCurrent(s) && QueuedUnclaimed(s) && Enabled(c, s, Advance(i, env))
    requires k != i && Claimed(Apply(c, s, Advance(i, env)), k, j)
    ensures RecordOf(Apply(c, s, Advance(i, env)), j) != Some(Queued)
  {
    hide HandlerStep, Apply, Inv;
    OtherClaimed(c, s, i, env, k, j);
    assert Current(s, k, j) && !Current(s, i, j);
    StepKeepsRecord(c, s, i, env, j);
  }

  lemma UnclaimedAdvance(c: Config, s: State, i: nat, env: Env)
    requires ValidConfig(c) && Inv(c, s) && OneCurrent(s) && QueuedUnclaimed(s) && Enabled(c, s, Advance(i, env))
    ensures QueuedUnclaimed(Apply(c, s, Advance(i, env)))
  {
    var t := Apply(c, s, Advance(i, env));
    forall k, j | Claimed(t, k, j) ensures RecordOf(t, j) != Some(Queued) {
      if k == i {
        OwnStepClaims(c, s, i, env, j);
      } else {
        OtherStepClaims(c, s, i, env, k, j);
      }
    }
  }

  lemma UnclaimedElse(c: Config, s: State, a: Action, k: int, j: JobId)
    requires ValidConfig(c) && Inv(c, s) && QuietAction(a) && OneCurrent(s) && QueuedUnclaimed(s)
    requires Enabled(c, s, a) && !a.Advance? && Claimed(Apply(c, s, a), k, j)
    ensures RecordOf(Apply(c, s, a), j) != Some(Queued)
  {
    hide HandlerStep, Apply, Inv, JobQueue;
    if MovesCopy(a) { MoveFrame(c, s, a); } else { ApiActs(c, s, a); }
    assert k < |s.copies| && Claimed(s, k, j);
    KnownMessage(c, s, k);
  }

  lemma UnclaimedStep(c: Config, s: State, a: Action)
    requires ValidConfig(c) && Inv(c, s) && QuietAction(a) && OneCurrent(s) && QueuedUnclaimed(s)
    ensures QueuedUnclaimed(Apply(c, s, a))
  {
    hide HandlerStep, Apply, Inv, OneCurrent;
    var t := Apply(c, s, a);
    if !Enabled(c, s, a) {
      CancelCallFrame(c, s, a);
    } else {
      if a.Advance? {
        UnclaimedAdvance(c, s, a.i, a.env);
      } else {
        forall k, j | Claimed(t, k, j) ensures RecordOf(t, j) != Some(Queued) {
          UnclaimedElse(c, s, a, k, j);
        }
      }
    }
  }

  lemma {:induction false} UnclaimedRun(c: Config, s: State, acts: seq<Action>)
    requires ValidConfig(c) && Quiet(acts) && Inv(c, s) && OneCurrent(s) && QueuedUnclaimed(s)
    ensures var t := Run(c, s, acts);
      Inv(c, t) && OneCurrent(t) && QueuedUnclaimed(t)
    decreases |acts|
  {
    if acts != [] {
      assert QuietAction(acts[0]);
      InvStep(c, s, acts[0]);
      OneCurrentStep(c, s, acts[0]);
      UnclaimedStep(c, s, acts[0]);
      UnclaimedRun(c, Apply(c, s, acts[0]), acts[1..]);
    }
  }

  /** If the record is still queued when cancel writes, and no handler stands between its
      read and its first write, the cancel is final. Atomic check-and-write on both sides
      would guarantee this, also for cancels between two delivery attempts. */
  lemma AtomicCancelIsFinal(c: Config, acts: seq<Action>, k: nat, j: JobId)
    requires ValidConfig(c) && Quiet(acts) && Cancelling(Run(c, INIT, acts), k, j)
    requires var s := Run(c, INIT, acts);
      && RecordOf(s, j) == Some(Queued)
      && forall i :: 0 <= i < |s.copies| && s.copies[i].msg.job == j && s.copies[i].place.Held? ==> s.copies[i].place.pc != MarkProcessing
    ensures StaysCancelled(c, Apply(c, Run(c, INIT, acts), CancelStep(k)), j)
  {
    var s := Run(c, INIT, acts);
    InvInit(c);
    UnclaimedRun(c, INIT, acts);
    if PendingWriter(s, j) {
      if i :| Writer(s, i, j) {
        assert Claimed(s, i, j);
      }
    }
    CancelIsFinalIff(c, acts, k, j);
  }

  // ---------------------------------------------------------------------------
  // The races, step by step
  // ---------------------------------------------------------------------------

  lemma RunSeven(c: Config, s: State, xs: seq<Action>, ys: seq<Action>, z: Action)
    requires |xs| == 3 && |ys| == 3
    ensures var t := Apply(c, Apply(c, Apply(c, Apply(c, Apply(c, Apply(c, s, xs[0]), xs[1]), xs[2]), ys[0]), ys[1]), ys[2]);
      Run(c, s, xs + ys) == t && Run(c, s, xs + ys + [z]) == Apply(c, t, z)
  {
    RunThree(c, s, xs[0], xs[1], xs[2]);
    assert xs == [xs[0], xs[1], xs[2]];
    RunThree(c, Run(c, s, xs), ys[0], ys[1], ys[2]);
    assert ys == [ys[0], ys[1], ys[2]];
    RunAppend(c, s, xs, ys);
    RunAppend(c, s, xs + ys, [z]);
    assert Run(c, Run(c, s, xs + ys), [z]) == Apply(c, Run(c, s, xs + ys), z);
  }

  function FirstCopy(c: Config, m: Message): Copy { NewCopy(m, None, JobQueue(c, m, Main)) }

  function FirstHeld(c: Config, m: Message, w: string, pc: Pc): Copy {
    Copy(m, None, None, Held(JobQueue(c, m, Main), w, pc), 1)
  }

  /** A published job whose cancel call has passed its check. */
  ghost predicate CheckPassed(c: Config, s: State, m: Message) {
    && s.copies == [FirstCopy(c, m)] && s.cancels == [CancelCall(m.job, WriteStatus)]
    && s.jobs == map[m.job := m] && s.records == map[m.job := Queued] && s.strays == []
  }

  lemma CheckedJob(c: Config, m: Message)
    requires AcceptableTarget(c, m)
    ensures CheckPassed(c, Apply(c, Apply(c, Apply(c, INIT, Record(m)), Publish(m.job)), CancelRead(m.job)), m)
  {
    hide HandlerStep, Apply, JobQueue;
    var s1 := Apply(c, INIT, Record(m));
    ApiActs(c, INIT, Record(m));
    var s2 := Apply(c, s1, Publish(m.job));
    ApiActs(c, s1, Publish(m.job));
    ApiActs(c, s2, CancelRead(m.job));
  }

  lemma DeliverFirst(c: Config, s: State, m: Message, w: string)
    requires ValidConfig(c) && AcceptableTarget(c, m) && MayProcess(c, m, w) && s.copies == [FirstCopy(c, m)]
    ensures Apply(c, s, Deliver(0, w)) == s.(copies := [FirstHeld(c, m, w, ReadRecord)])
  {
    hide HandlerStep, Apply, JobQueue, Subscribed;
    ListenersMayProcess(c, m, Main, w);
    assert Enabled(c, s, Deliver(0, w));
    MoveFrame(c, s, Deliver(0, w));
  }

  lemma CancelWrite(c: Config, s: State, m: Message)
    requires s.cancels == [CancelCall(m.job, WriteStatus)] && m.job in s.jobs && m.job in s.records
    ensures Apply(c, s, CancelStep(0)) == s.(records := s.records[m.job := Cancelled], cancels := [CancelCall(m.job, WriteResult)])
  {
    hide HandlerStep, Apply;
    assert Enabled(c, s, CancelStep(0));
    ApiActs(c, s, CancelStep(0));
  }

  lemma ReadFirst(c: Config, s: State, m: Message, w: string)
    requires w in c.workers && s.copies == [FirstHeld(c, m, w, ReadRecord)] && RecordOf(s, m.job) != Some(Cancelled)
    ensures Apply(c, s, Advance(0, MISS)) == s.(copies := [FirstHeld(c, m, w, MarkProcessing)])
  {
    assert Enabled(c, s, Advance(0, MISS));
    assert StepOf(c, s, 0, MISS) == Next(MarkProcessing, Nothing);
  }

  lemma FaultFirst(c: Config, s: State, m: Message, w: string)
    requires s.copies == [FirstHeld(c, m, w, ReadRecord)]
    ensures Apply(c, s, Fault(0)) == s.(copies := [FirstHeld(c, m, w, Catch(c, 1))])
  {
    hide HandlerStep, Apply, Catch;
    assert Enabled(c, s, Fault(0));
    MoveFrame(c, s, Fault(0));
  }

  lemma WriteFirst(c: Config, s: State, m: Message, w: string, pc: Pc, status: Status)
    requires w in c.workers && s.copies == [FirstHeld(c, m, w, pc)] && m.job in s.records
    requires (pc == MarkProcessing && status == Processing) || (pc == QueuedStatus && status == Queued) || (pc == DeadStatus && status == Failed)
    ensures RecordOf(Apply(c, s, Advance(0, MISS)), m.job) == Some(status)
  {
    assert Enabled(c, s, Advance(0, MISS));
    AdvanceFrame(c, s, 0, MISS);
  }

  /** For every job and every worker that may process it: a worker reads the queued record,
      the job is cancelled, and the worker's next write makes it processing again. */
  lemma CancelRace(c: Config, m: Message, w: string)
    requires ValidConfig(c) && AcceptableTarget(c, m) && MayProcess(c, m, w)
    ensures var cancelled := [Record(m), Publish(m.job), CancelRead(m.job)] + [Deliver(0, w), Advance(0, MISS), CancelStep(0)];
      && Quiet(cancelled + [Advance(0, MISS)])
      && RecordOf(Run(c, INIT, cancelled), m.job) == Some(Cancelled)
      && RecordOf(Run(c, INIT, cancelled + [Advance(0, MISS)]), m.job) == Some(Processing)
  {
    hide HandlerStep, Apply, JobQueue, Run;
    var s3 := Apply(c, Apply(c, Apply(c, INIT, Record(m)), Publish(m.job)), CancelRead(m.job));
    CheckedJob(c, m);
    DeliverFirst(c, s3, m, w);
    var s4 := s3.(copies := [FirstHeld(c, m, w, ReadRecord)]);
    ReadFirst(c, s4, m, w);
    var s5 := s4.(copies := [FirstHeld(c, m, w, MarkProcessing)]);
    CancelWrite(c, s5, m);
    WriteFirst(c, Apply(c, s5, CancelStep(0)), m, w, MarkProcessing, Processing);
    RunSeven(c, INIT, [Record(m), Publish(m.job), CancelRead(m.job)], [Deliver(0, w), Advance(0, MISS), CancelStep(0)], Advance(0, MISS));
  }

  /** A fault after a cancel undoes it too: the catch block writes queued or failed without
      looking at the record. */
  lemma FaultUndoesCancel(c: Config, m: Message, w: string)
    requires ValidConfig(c) && AcceptableTarget(c, m) && MayProcess(c, m, w)
    ensures var cancelled := [Record(m), Publish(m.job), CancelRead(m.job)] + [CancelStep(0), Deliver(0, w), Fault(0)];
      && RecordOf(Run(c, INIT, cancelled), m.job) == Some(Cancelled)
      && RecordOf(Run(c, INIT, cancelled + [Advance(0, MISS)]), m.job)
        == Some(if c.maxDeliveryAttempts > 1 then Queued else Failed)
  {
    hide HandlerStep, Apply, JobQueue, Run;
    var s3 := Apply(c, Apply(c, Apply(c, INIT, Record(m)), Publish(m.job)), CancelRead(m.job));
    CheckedJob(c, m);
    CancelWrite(c, s3, m);
    var s4 := s3.(records := s3.records[m.job := Cancelled], cancels := [CancelCall(m.job, WriteResult)]);
    DeliverFirst(c, s4, m, w);
    var s5 := s4.(copies := [FirstHeld(c, m, w, ReadRecord)]);
    FaultFirst(c, s5, m, w);
    var s6 := s5.(copies := [FirstHeld(c, m, w, Catch(c, 1))]);
    WriteFirst(c, s6, m, w, Catch(c, 1), if c.maxDeliveryAttempts > 1 then Queued else Failed);
    RunSeven(c, INIT, [Record(m), Publish(m.job), CancelRead(m.job)], [CancelStep(0), Deliver(0, w), Fault(0)], Advance(0, MISS));
  }
}
