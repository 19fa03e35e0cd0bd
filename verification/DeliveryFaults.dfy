/** When a cancel is final even if workers die, steps throw and watchdogs expire: exactly
    when nothing is left of the job that a worker could still process. */
module DeliveryFaults {
  import opened Common
  import opened QueueNames
  import opened Delivery
  import opened DeliverySafety
  import opened DeliveryCancellation
  import R = RetryMachine

  ghost predicate Servable(c: Config, m: Message) {
    exists w :: MayProcess(c, m, w)
  }

  /** A copy of the job that a worker holds or may still get. */
  ghost predicate Unfinished(c: Config, s: State, i: int, j: JobId) {
    && 0 <= i < |s.copies| && s.copies[i].msg.job == j
    && (s.copies[i].place.Held?
        || s.copies[i].place == InQueue(JobQueue(c, s.copies[i].msg, Main))
        || s.copies[i].place == InQueue(JobQueue(c, s.copies[i].msg, Retry)))
  }

  /** What can still overwrite the status: an abandoned process call that is past its check,
      or, if some worker may process the job, a copy of it that is waiting or held, or a
      message that is yet to be published. */
  ghost predicate Undoable(c: Config, s: State, j: JobId)
    requires j in s.jobs
  {
    || (exists z :: StrayWriter(s, z, j))
    || (Servable(c, s.jobs[j]) && (j in s.pending || exists i :: Unfinished(c, s, i, j)))
  }

  /** The job stays cancelled whatever happens, faults included. */
  ghost predicate AlwaysCancelled(c: Config, s: State, j: JobId) {
    forall more {:trigger Run(c, s, more)} :: RecordOf(Run(c, s, more), j) == Some(Cancelled)
  }

  // ---------------------------------------------------------------------------
  // A job that cannot be undone stays cancelled
  // ---------------------------------------------------------------------------

  ghost predicate Over(c: Config, s: State, j: JobId) {
    && j in s.jobs && RecordOf(s, j) == Some(Cancelled)
    && !(exists z :: StrayWriter(s, z, j))
    && (forall i :: 0 <= i < |s.copies| && s.copies[i].msg.job == j ==> Idle(c, s.jobs[j], s.copies[i]))
    && (j in s.pending ==> !Servable(c, s.jobs[j]))
  }

  /** Nobody holds the copy, and nobody will. */
  ghost predicate Idle(c: Config, m: Message, copy: Copy) {
    && !copy.place.Held?
    && (Servable(c, m) ==> copy.place != InQueue(JobQueue(c, m, Main)) && copy.place != InQueue(JobQueue(c, m, Retry)))
  }

  lemma OverIff(c: Config, s: State, j: JobId)
    requires ValidConfig(c) && Inv(c, s) && j in s.jobs && RecordOf(s, j) == Some(Cancelled)
    ensures Over(c, s, j) <==> !Undoable(c, s, j)
  {
    forall i | 0 <= i < |s.copies| && s.copies[i].msg.job == j
      ensures Idle(c, s.jobs[j], s.copies[i]) <==> !(Servable(c, s.jobs[j]) && Unfinished(c, s, i, j))
    {
      assert CopyValid(c, s, s.copies[i]);
      if s.copies[i].place.Held? { assert MayProcess(c, s.jobs[j], s.copies[i].place.worker); }
    }
  }

  /** From s to t nothing happened that concerns the job, except for copies that are idle. */
  lemma StaysOver(c: Config, s: State, t: State, j: JobId)
    requires Over(c, s, j) && j in t.jobs && t.jobs[j] == s.jobs[j]
    requires RecordOf(t, j) == Some(Cancelled) && (j in t.pending ==> j in s.pending)
    requires forall i :: 0 <= i < |t.copies| && t.copies[i].msg.job == j ==>
      (i < |s.copies| && t.copies[i] == s.copies[i]) || Idle(c, s.jobs[j], t.copies[i])
    requires forall z :: 0 <= z < |t.strays| && t.strays[z].msg.job == j ==>
      (z < |s.strays| && t.strays[z] == s.strays[z]) || !StrayWritesLater(t.strays[z].pc)
    ensures Over(c, t, j)
  {
    forall z ensures !StrayWriter(t, z, j) {
      assert !StrayWriter(s, z, j);
    }
  }

  lemma OverAck(c: Config, s: State, i: nat, env: Env, j: JobId)
    requires Over(c, s, j) && Enabled(c, s, Advance(i, env))
    requires s.copies[i].place.pc.Returned? || s.copies[i].place.pc.Sent?
    ensures Over(c, Apply(c, s, Advance(i, env)), j)
  {
    hide HandlerStep, Apply, Servable;
    AckFrame(c, s, i, env);
    StaysOver(c, s, Apply(c, s, Advance(i, env)), j);
  }

  lemma OverAdvance(c: Config, s: State, i: nat, env: Env, j: JobId)
    requires Over(c, s, j) && Enabled(c, s, Advance(i, env))
    ensures Over(c, Apply(c, s, Advance(i, env)), j)
  {
    hide HandlerStep, Apply, Servable;
    if s.copies[i].place.pc.Returned? || s.copies[i].place.pc.Sent? {
      OverAck(c, s, i, env, j);
    } else {
      assert s.copies[i].msg.job != j;
      AdvanceFrame(c, s, i, env);
      StaysOver(c, s, Apply(c, s, Advance(i, env)), j);
    }
  }

  lemma OverStray(c: Config, s: State, z: nat, env: Env, j: JobId)
    requires Inv(c, s) && Over(c, s, j) && Enabled(c, s, StrayStep(z, env))
    ensures Over(c, Apply(c, s, StrayStep(z, env)), j)
  {
    hide HandlerStep, Apply;
    var stray := s.strays[z];
    StrayFrame(c, s, z, env);
    if stray.msg.job == j {
      assert !StrayWriter(s, z, j);
      StrayNonWriter(c, stray.msg, stray.attempt, c.workers[stray.worker], stray.pc, RecordOf(s, j), env);
    }
    StaysOver(c, s, Apply(c, s, StrayStep(z, env)), j);
  }

  /** A held copy is not one of the job's, so throwing, expiring or dropping it does no harm. */
  lemma OverHeld(c: Config, s: State, a: Action, j: JobId)
    requires Over(c, s, j) && Enabled(c, s, a) && (a.Fault? || a.Watchdog? || a.Requeue?)
    ensures Over(c, Apply(c, s, a), j)
  {
    hide HandlerStep, Apply, Catch, Servable;
    assert s.copies[a.i].msg.job != j;
    MoveFrame(c, s, a);
    StaysOver(c, s, Apply(c, s, a), j);
  }

  /** An idle copy is not delivered, and where it may expire nobody listens. */
  lemma OwnCopyQueued(c: Config, s: State, a: Action, j: JobId)
    requires ValidConfig(c) && Inv(c, s) && Over(c, s, j) && Enabled(c, s, a) && (a.Deliver? || a.Expire?)
    requires s.copies[a.i].msg.job == j
    ensures a.Expire? && !Servable(c, s.jobs[j])
  {
    hide HandlerStep, Apply;
    var copy := s.copies[a.i];
    assert CopyValid(c, s, copy) && JobValid(c, s, j);
    var role :| copy.place.queue == JobQueue(c, copy.msg, role);
    if a.Deliver? {
      ListenersMayProcess(c, copy.msg, role, a.w);
    } else {
      ExpiryLeadsHome(c, s, copy.msg, role);
    }
  }

  lemma OverQueued(c: Config, s: State, a: Action, j: JobId)
    requires ValidConfig(c) && Inv(c, s) && Over(c, s, j) && Enabled(c, s, a) && (a.Deliver? || a.Expire?)
    ensures Over(c, Apply(c, s, a), j)
  {
    hide HandlerStep, Apply, Inv, Listens, Servable;
    if s.copies[a.i].msg.job == j { OwnCopyQueued(c, s, a, j); }
    MoveFrame(c, s, a);
    StaysOver(c, s, Apply(c, s, a), j);
  }

  lemma PendingIsJob(c: Config, s: State, j: JobId)
    requires Inv(c, s) && j in s.pending
    ensures JobValid(c, s, j)
  {
  }

  lemma OverApi(c: Config, s: State, a: Action, j: JobId)
    requires Inv(c, s) && Over(c, s, j) && Enabled(c, s, a)
    requires a.Record? || a.AnswerCached? || a.Publish? || a.CancelRead? || a.CancelStep?
    ensures Over(c, Apply(c, s, a), j)
  {
    hide HandlerStep, Apply, Inv, Servable, JobQueue, AcceptableTarget, EventsFor;
    ApiActs(c, s, a);
    if a.Publish? { PendingIsJob(c, s, a.j); }
    StaysOver(c, s, Apply(c, s, a), j);
  }

  lemma {:induction false} OverRun(c: Config, s: State, more: seq<Action>, j: JobId)
    requires ValidConfig(c) && Inv(c, s) && Over(c, s, j)
    ensures RecordOf(Run(c, s, more), j) == Some(Cancelled)
    decreases |more|
  {
    hide Over, Inv, HandlerStep;
    if more != [] {
      var a := more[0];
      if Enabled(c, s, a) {
        match a
        case Advance(i, env) => OverAdvance(c, s, i, env, j);
        case StrayStep(z, env) => OverStray(c, s, z, env, j);
        case Fault(_) => OverHeld(c, s, a, j);
        case Watchdog(_) => OverHeld(c, s, a, j);
        case Requeue(_) => OverHeld(c, s, a, j);
        case Deliver(_, _) => OverQueued(c, s, a, j);
        case Expire(_) => OverQueued(c, s, a, j);
        case _ => OverApi(c, s, a, j);
      }
      InvStep(c, s, a);
      OverRun(c, Apply(c, s, a), more[1..], j);
    } else {
      OverIsCancelled(c, s, j);
    }
  }

  lemma OverIsCancelled(c: Config, s: State, j: JobId)
    requires Over(c, s, j)
    ensures RecordOf(s, j) == Some(Cancelled)
  {
  }

  // ---------------------------------------------------------------------------
  // Any other job can be undone
  // ---------------------------------------------------------------------------

  /** The retry queues of published jobs are declared. */
  ghost predicate RetriesDeclared(c: Config, s: State) {
    forall j :: j in s.published && j in s.jobs ==> JobQueue(c, s.jobs[j], Retry) in s.deadLetter
  }

  lemma DeclaredStep(c: Config, s: State, a: Action)
    requires Inv(c, s) && RetriesDeclared(c, s)
    ensures RetriesDeclared(c, Apply(c, s, a))
  {
    hide HandlerStep, Apply, JobQueue;
    Grows(c, s, a);
    if Enabled(c, s, a) { ApiActs(c, s, a); } else { CancelCallFrame(c, s, a); }
    var t := Apply(c, s, a);
    forall j | j in t.published && j in t.jobs ensures JobQueue(c, t.jobs[j], Retry) in t.deadLetter {
      if j in s.published {
        PublishedIsJob(c, s, j);
      }
    }
  }

  lemma PublishedIsJob(c: Config, s: State, j: JobId)
    requires Inv(c, s) && j in s.published
    ensures j in s.jobs
  {
    assert R.Known(Abs(c, s), j);
    var i :| 0 <= i < |Abs(c, s).copies| && Abs(c, s).copies[i].key == j;
    assert CopyValid(c, s, s.copies[i]);
  }

  lemma {:induction false} DeclaredRun(c: Config, s: State, acts: seq<Action>)
    requires ValidConfig(c) && Inv(c, s) && RetriesDeclared(c, s)
    ensures Inv(c, Run(c, s, acts)) && RetriesDeclared(c, Run(c, s, acts))
    decreases |acts|
  {
    if acts != [] {
      DeclaredStep(c, s, acts[0]);
      InvStep(c, s, acts[0]);
      DeclaredRun(c, Apply(c, s, acts[0]), acts[1..]);
    }
  }

  ghost predicate Undone(c: Config, s: State, more: seq<Action>, j: JobId) {
    RecordOf(Run(c, s, more), j) != Some(Cancelled)
  }

  lemma After(c: Config, s: State, a: Action, rest: seq<Action>, j: JobId)
    requires Undone(c, Apply(c, s, a), rest, j)
    ensures Undone(c, s, [a] + rest, j)
  {
    assert ([a] + rest)[1..] == rest;
  }

  /** Where copy i stands after an action that moves it. */
  ghost predicate MovedTo(s: State, t: State, i: nat, place: Place) {
    i < |s.copies| && i < |t.copies| && t.copies[i].msg == s.copies[i].msg && t.copies[i].place == place
  }

  lemma DeliverMoves(c: Config, s: State, i: nat, w: string)
    requires Enabled(c, s, Deliver(i, w))
    ensures MovedTo(s, Apply(c, s, Deliver(i, w)), i, Held(s.copies[i].place.queue, w, ReadRecord))
  {
    hide HandlerStep, Apply, Listens;
    MoveFrame(c, s, Deliver(i, w));
  }

  lemma FaultMoves(c: Config, s: State, i: nat)
    requires Enabled(c, s, Fault(i))
    ensures MovedTo(s, Apply(c, s, Fault(i)), i, s.copies[i].place.(pc := Catch(c, Attempt(s.copies[i]))))
  {
    hide HandlerStep, Apply, Catch;
    MoveFrame(c, s, Fault(i));
  }

  lemma ExpireMoves(c: Config, s: State, i: nat)
    requires Enabled(c, s, Expire(i))
    ensures MovedTo(s, Apply(c, s, Expire(i)), i, InQueue(s.deadLetter[s.copies[i].place.queue]))
  {
    hide HandlerStep, Apply;
    MoveFrame(c, s, Expire(i));
  }

  lemma RequeueMoves(c: Config, s: State, i: nat)
    requires Enabled(c, s, Requeue(i))
    ensures MovedTo(s, Apply(c, s, Requeue(i)), i, InQueue(s.copies[i].place.queue))
  {
    hide HandlerStep, Apply;
    MoveFrame(c, s, Requeue(i));
  }

  /** The process call of a copy just delivered throws, and the catch block writes the status. */
  lemma HeldAtStartUndoes(c: Config, s: State, i: nat, j: JobId) returns (more: seq<Action>)
    requires ValidConfig(c) && Inv(c, s) && i < |s.copies| && s.copies[i].msg.job == j
    requires s.copies[i].place.Held? && s.copies[i].place.pc == ReadRecord
    ensures Undone(c, s, more, j)
  {
    hide HandlerStep, Apply, Inv;
    var t := Apply(c, s, Fault(i));
    InvStep(c, s, Fault(i));
    FaultMoves(c, s, i);
    assert Writer(t, i, j);
    more := WriterOverwrites(c, t, i, j);
    After(c, s, Fault(i), more, j);
    more := [Fault(i)] + more;
  }

  lemma MainDelivers(c: Config, s: State, i: nat, w: string)
    requires ValidConfig(c) && Inv(c, s) && i < |s.copies|
    requires s.copies[i].place == InQueue(JobQueue(c, s.copies[i].msg, Main)) && MayProcess(c, s.copies[i].msg, w)
    ensures Enabled(c, s, Deliver(i, w))
  {
    hide HandlerStep, Inv, Subscribed, JobQueue, ValidMessage, PlaceValid;
    KnownMessage(c, s, i);
    ListenersMayProcess(c, s.copies[i].msg, Main, w);
  }

  lemma MainUndoes(c: Config, s: State, i: nat, w: string, j: JobId) returns (more: seq<Action>)
    requires ValidConfig(c) && Inv(c, s) && i < |s.copies| && s.copies[i].msg.job == j
    requires s.copies[i].place == InQueue(JobQueue(c, s.copies[i].msg, Main)) && MayProcess(c, s.copies[i].msg, w)
    ensures Undone(c, s, more, j)
  {
    hide HandlerStep, Apply, Enabled, Inv, MayProcess, JobQueue;
    MainDelivers(c, s, i, w);
    DeliverMoves(c, s, i, w);
    InvStep(c, s, Deliver(i, w));
    more := HeldAtStartUndoes(c, Apply(c, s, Deliver(i, w)), i, j);
    After(c, s, Deliver(i, w), more, j);
    more := [Deliver(i, w)] + more;
  }

  lemma RetryExpires(c: Config, s: State, i: nat)
    requires ValidConfig(c) && Inv(c, s) && RetriesDeclared(c, s) && i < |s.copies|
    requires s.copies[i].place == InQueue(JobQueue(c, s.copies[i].msg, Retry))
    ensures Enabled(c, s, Expire(i))
    ensures s.deadLetter[s.copies[i].place.queue] == JobQueue(c, s.copies[i].msg, Main)
  {
    hide HandlerStep, Apply, JobQueue, RouteValid, ValidMessage, PlaceValid, CopyValid, JobValid;
    KnownMessage(c, s, i);
    ExpiryLeadsHome(c, s, s.copies[i].msg, Retry);
  }

  lemma RetryUndoes(c: Config, s: State, i: nat, w: string, j: JobId) returns (more: seq<Action>)
    requires ValidConfig(c) && Inv(c, s) && RetriesDeclared(c, s) && i < |s.copies| && s.copies[i].msg.job == j
    requires s.copies[i].place == InQueue(JobQueue(c, s.copies[i].msg, Retry)) && MayProcess(c, s.copies[i].msg, w)
    ensures Undone(c, s, more, j)
  {
    hide HandlerStep, Apply, Enabled, Inv, RetriesDeclared, MayProcess, JobQueue;
    RetryExpires(c, s, i);
    ExpireMoves(c, s, i);
    InvStep(c, s, Expire(i));
    more := MainUndoes(c, Apply(c, s, Expire(i)), i, w, j);
    After(c, s, Expire(i), more, j);
    more := [Expire(i)] + more;
  }

  lemma HeldUndoes(c: Config, s: State, i: nat, j: JobId) returns (more: seq<Action>)
    requires ValidConfig(c) && Inv(c, s) && i < |s.copies| && s.copies[i].msg.job == j && s.copies[i].place.Held?
    ensures Undone(c, s, more, j)
  {
    hide HandlerStep, Apply, Inv, MayProcess, JobQueue;
    KnownHolder(c, s, i);
    RequeueMoves(c, s, i);
    InvStep(c, s, Requeue(i));
    more := MainUndoes(c, Apply(c, s, Requeue(i)), i, s.copies[i].place.worker, j);
    After(c, s, Requeue(i), more, j);
    more := [Requeue(i)] + more;
  }

  lemma PublishAdds(c: Config, s: State, j: JobId)
    requires Enabled(c, s, Publish(j))
    ensures Apply(c, s, Publish(j)).copies == s.copies + [NewCopy(s.jobs[j], None, JobQueue(c, s.jobs[j], Main))]
  {
    hide HandlerStep, Apply, JobQueue;
    ApiActs(c, s, Publish(j));
  }

  lemma PendingUndoes(c: Config, s: State, w: string, j: JobId) returns (more: seq<Action>)
    requires ValidConfig(c) && Inv(c, s) && j in s.jobs && j in s.pending && MayProcess(c, s.jobs[j], w)
    ensures Undone(c, s, more, j)
  {
    hide HandlerStep, Apply, Inv, MayProcess;
    PendingIsJob(c, s, j);
    PublishAdds(c, s, j);
    InvStep(c, s, Publish(j));
    more := MainUndoes(c, Apply(c, s, Publish(j)), |s.copies|, w, j);
    After(c, s, Publish(j), more, j);
    more := [Publish(j)] + more;
  }

  lemma CanBeUndone(c: Config, s: State, j: JobId) returns (more: seq<Action>)
    requires ValidConfig(c) && Inv(c, s) && RetriesDeclared(c, s) && j in s.jobs && Undoable(c, s, j)
    ensures Undone(c, s, more, j)
  {
    hide HandlerStep, Apply, Inv;
    if z :| StrayWriter(s, z, j) {
      more := StrayOverwrites(c, s, z, j);
    } else {
      var w :| MayProcess(c, s.jobs[j], w);
      if j in s.pending {
        more := PendingUndoes(c, s, w, j);
      } else {
        var i :| Unfinished(c, s, i, j);
        KnownMessage(c, s, i);
        if s.copies[i].place.Held? {
          more := HeldUndoes(c, s, i, j);
        } else if s.copies[i].place == InQueue(JobQueue(c, s.copies[i].msg, Main)) {
          more := MainUndoes(c, s, i, w, j);
        } else {
          more := RetryUndoes(c, s, i, w, j);
        }
      }
    }
  }

  // ---------------------------------------------------------------------------
  // Main result
  // ---------------------------------------------------------------------------

  lemma CancelFrame(c: Config, s: State, k: nat, j: JobId)
    requires Inv(c, s) && Cancelling(s, k, j)
    ensures var t := Apply(c, s, CancelStep(k));
      && t.jobs == s.jobs && t.copies == s.copies && t.strays == s.strays && t.pending == s.pending
      && RecordOf(t, j) == Some(Cancelled)
  {
    hide HandlerStep, Apply;
    ApiActs(c, s, CancelStep(k));
  }

  /** The status write of a cancel call, in any reachable state, is final for every
      continuation whatever, with deaths of workers, faults and watchdog expiries, exactly
      when nothing is left that can undo it. */
  lemma CancelIsFinalDespiteFaultsIff(c: Config, acts: seq<Action>, k: nat, j: JobId)
    requires ValidConfig(c) && Cancelling(Run(c, INIT, acts), k, j)
    ensures var s := Run(c, INIT, acts);
      AlwaysCancelled(c, Apply(c, s, CancelStep(k)), j) <==> !Undoable(c, s, j)
  {
    var s := Run(c, INIT, acts);
    InvInit(c);
    DeclaredRun(c, INIT, acts);
    var t := Apply(c, s, CancelStep(k));
    DeclaredStep(c, s, CancelStep(k));
    InvStep(c, s, CancelStep(k));
    CancelFrame(c, s, k, j);
    OverIff(c, t, j);
    SameUndoable(c, s, t, j);
    if Undoable(c, t, j) {
      var more := CanBeUndone(c, t, j);
      assert RecordOf(Run(c, t, more), j) != Some(Cancelled);
    } else {
      forall more ensures RecordOf(Run(c, t, more), j) == Some(Cancelled) {
        OverRun(c, t, more, j);
      }
    }
  }

  lemma SameUndoable(c: Config, s: State, t: State, j: JobId)
    requires j in s.jobs && t.jobs == s.jobs && t.copies == s.copies && t.strays == s.strays && t.pending == s.pending
    ensures Undoable(c, s, j) <==> Undoable(c, t, j)
  {
    assert forall z :: StrayWriter(s, z, j) <==> StrayWriter(t, z, j);
    assert forall i :: Unfinished(c, s, i, j) <==> Unfinished(c, t, i, j);
  }
}
