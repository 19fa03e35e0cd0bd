/** Delivery of webhook events: the second instance of the retry machine. The handler posts
    the event once per delivery; a failed post is retried or dead-lettered. */
module WebhookDelivery {
  import opened Common
  import opened QueueNames
  import D = Delivery
  import R = RetryMachine

  type EventId = string

  /** One POST request and whether its response was ok. */
  datatype Post = Post(event: EventId, ok: bool)

  datatype State = State(queue: R.State<EventId>, posts: seq<Post>)

  datatype Action =
    | Publish(e: EventId)
    | Deliver(i: nat)
    | Expire(i: nat)
    | Requeue(i: nat)
    | Request(i: nat, ok: bool)     // the handler posts the event
    | SendOn(i: nat)                // after a failed post: to the retry or dead-letter queue
    | Ack(i: nat)

  const INIT := State(R.State([], {}), [])

  /** The handler of a copy: one post (rank 1), then at most one send (rank 0). */
  function Params(max: nat): R.Params { R.Params(max, 1) }

  function MoveOf(a: Action): R.Move<EventId> {
    match a
    case Publish(e) => R.Publish(e)
    case Deliver(i) => R.Deliver(i, 1)
    case Expire(i) => R.Expire(i)
    case Requeue(i) => R.Requeue(i)
    case Request(i, ok) => if ok then R.Return(i) else R.Work(i, 0)
    case SendOn(i) => R.HandOver(i)
    case Ack(i) => R.Ack(i)
  }

  predicate StandsAt(s: State, i: nat, rank: nat) {
    i < |s.queue.copies| && s.queue.copies[i].place == R.Working(rank)
  }

  predicate Enabled(max: nat, s: State, a: Action) {
    && R.Legal(Params(max), s.queue, MoveOf(a))
    && (a.Request? ==> StandsAt(s, a.i, 1))
    && (a.SendOn? ==> StandsAt(s, a.i, 0))
  }

  function Apply(max: nat, s: State, a: Action): State {
    if !Enabled(max, s, a) then s
    else State(R.After(Params(max), s.queue, MoveOf(a)),
               if a.Request? then s.posts + [Post(s.queue.copies[a.i].key, a.ok)] else s.posts)
  }

  function Run(max: nat, s: State, acts: seq<Action>): State
    decreases |acts|
  {
    if acts == [] then s else Run(max, Apply(max, s, acts[0]), acts[1..])
  }

  // ---------------------------------------------------------------------------
  // Any run
  // ---------------------------------------------------------------------------

  lemma {:induction false} SafeRun(max: nat, s: State, acts: seq<Action>)
    requires max >= 1 && R.Safe(Params(max), s.queue)
    ensures R.Safe(Params(max), Run(max, s, acts).queue)
    decreases |acts|
  {
    if acts != [] {
      if Enabled(max, s, acts[0]) { R.SafeStep(Params(max), s.queue, MoveOf(acts[0])); }
      SafeRun(max, Apply(max, s, acts[0]), acts[1..]);
    }
  }

  /** No event is lost, whatever connections are lost on the way. */
  lemma NoEventLost(max: nat, acts: seq<Action>, e: EventId)
    requires max >= 1 && R.Known(Run(max, INIT, acts).queue, e)
    ensures var q := Run(max, INIT, acts).queue;
      e in q.settled || exists i :: 0 <= i < |q.copies| && q.copies[i].key == e && !q.copies[i].place.Acked?
  {
    SafeRun(max, INIT, acts);
    R.NoLoss(Params(max), Run(max, INIT, acts).queue, e);
  }

  /** Nor is any event stuck: from every state in which a copy of it waits, a few steps deliver
      it, if the receiver takes it. */
  lemma CanBeDelivered(max: nat, s: State, i: nat) returns (acts: seq<Action>)
    requires i < |s.queue.copies| && (s.queue.copies[i].place.Ready? || s.queue.copies[i].place.Delayed?)
    ensures s.queue.copies[i].key in Run(max, s, acts).queue.settled
    ensures i < |Run(max, s, acts).queue.copies| && Run(max, s, acts).queue.copies[i].place == R.Acked(R.Settled)
  {
    var e := s.queue.copies[i].key;
    var t := if s.queue.copies[i].place.Ready? then s else Apply(max, s, Expire(i));
    assert t.queue.copies[i].place.Ready? && t.queue.copies[i].key == e;
    var t1 := Apply(max, t, Deliver(i));
    assert StandsAt(t1, i, 1) && t1.queue.copies[i].key == e;
    var t2 := Apply(max, t1, Request(i, true));
    var t3 := Apply(max, t2, Ack(i));
    assert Run(max, t, [Deliver(i), Request(i, true), Ack(i)]) == t3 by {
      RunThree(max, t, Deliver(i), Request(i, true), Ack(i));
    }
    if s.queue.copies[i].place.Ready? {
      acts := [Deliver(i), Request(i, true), Ack(i)];
    } else {
      acts := [Expire(i)] + [Deliver(i), Request(i, true), Ack(i)];
      assert acts[1..] == [Deliver(i), Request(i, true), Ack(i)];
    }
  }

  // ---------------------------------------------------------------------------
  // Runs without lost connections
  // ---------------------------------------------------------------------------

  ghost predicate NoLostConnection(acts: seq<Action>) {
    forall k :: 0 <= k < |acts| ==> !acts[k].Requeue?
  }

  function PostsOf(posts: seq<Post>, e: EventId): seq<bool> {
    if posts == [] then []
    else
      var last := posts[|posts| - 1];
      PostsOf(posts[..|posts| - 1], e) + if last.event == e then [last.ok] else []
  }

  function Failures(n: nat): seq<bool> { seq(n, _ => false) }

  /** The answers an event's posts have had when its current copy stands at this place. */
  function ExpectedPosts(c: R.Copy<EventId>): seq<bool>
    requires c.attempt >= 1
  {
    match c.place
    case Working(rank) => Failures(if rank == 0 then c.attempt else c.attempt - 1)
    case Finishing(_) => Failures(c.attempt - 1) + [true]
    case Acked(_) => Failures(c.attempt - 1) + [true]
    case Parked => Failures(c.attempt)
    case _ => Failures(c.attempt - 1)
  }

  ghost predicate PostsMatchAt(s: State, i: int)
    requires 0 <= i < |s.queue.copies|
  {
    var c := s.queue.copies[i];
    c.attempt >= 1 && PostsOf(s.posts, c.key) == ExpectedPosts(c) && (c.place.Working? ==> c.place.rank <= 1)
  }

  ghost predicate PostsMatch(s: State) {
    && (forall i :: R.Current(s.queue, i) ==> PostsMatchAt(s, i))
    && (forall e :: !R.Known(s.queue, e) ==> PostsOf(s.posts, e) == [])
  }

  ghost predicate Inv(max: nat, s: State) {
    R.Safe(Params(max), s.queue) && R.Unique(s.queue) && R.Conserved(Params(max), s.queue) && PostsMatch(s)
  }

  lemma PostsAppend(posts: seq<Post>, p: Post, e: EventId)
    ensures PostsOf(posts + [p], e) == PostsOf(posts, e) + if p.event == e then [p.ok] else []
  {
    assert (posts + [p])[..|posts|] == posts;
  }

  /** How a move of a copy and the post it makes fit the expectation. */
  lemma ExpectedStep(max: nat, c: R.Copy<EventId>, a: Action)
    requires R.Allows(Params(max), c, MoveOf(a)) && !a.Requeue? && !a.SendOn? && !a.Publish? && c.attempt >= 1
    requires a.Request? ==> c.place == R.Working(1)
    requires c.place.Finishing? ==> c.place.how == R.Settled
    ensures var d := R.Changed(c, MoveOf(a));
      && d.key == c.key && d.attempt == c.attempt && (d.place.Working? ==> d.place.rank <= 1)
      && ExpectedPosts(d) == ExpectedPosts(c) + if a.Request? then [a.ok] else []
  {
    if a.Request? && !a.ok {
      assert Failures(c.attempt - 1) + [false] == Failures(c.attempt);
    }
  }

  lemma MovedMatches(max: nat, s: State, a: Action)
    requires max >= 1 && Inv(max, s) && Enabled(max, s, a) && !a.Publish? && !a.Requeue?
    requires R.Current(s.queue, a.i) && !a.SendOn?
    ensures a.i < |Apply(max, s, a).queue.copies| && PostsMatchAt(Apply(max, s, a), a.i)
  {
    var c := s.queue.copies[a.i];
    assert PostsMatchAt(s, a.i);
    if c.place.Finishing? && c.place.how == R.HandedOver {
      assert false;
    }
    ExpectedStep(max, c, a);
    assert Apply(max, s, a).queue.copies[a.i] == R.Changed(c, MoveOf(a));
    if a.Request? {
      PostsAppend(s.posts, Post(c.key, a.ok), c.key);
    }
  }

  lemma SentOnMatches(max: nat, s: State, i: nat)
    requires max >= 1 && Inv(max, s) && Enabled(max, s, SendOn(i))
    ensures var t := Apply(max, s, SendOn(i));
      |t.queue.copies| == |s.queue.copies| + 1 && PostsMatchAt(t, |s.queue.copies|)
  {
    assert R.Current(s.queue, i) && PostsMatchAt(s, i);
    assert R.SafeAt(Params(max), s.queue, i);
  }

  lemma OtherMatches(max: nat, s: State, a: Action, i: nat)
    requires max >= 1 && Inv(max, s) && Enabled(max, s, a) && !a.Requeue?
    requires R.Current(s.queue, i) && (a.Publish? || a.i != i)
    ensures i < |Apply(max, s, a).queue.copies| && PostsMatchAt(Apply(max, s, a), i)
  {
    R.Frame(Params(max), s.queue, MoveOf(a));
    assert PostsMatchAt(s, i);
    if a.Request? {
      assert R.Current(s.queue, a.i);
      PostsAppend(s.posts, Post(s.queue.copies[a.i].key, a.ok), s.queue.copies[i].key);
    }
  }

  lemma CurrentMatches(max: nat, s: State, a: Action, i: nat)
    requires max >= 1 && Inv(max, s) && Enabled(max, s, a) && !a.Requeue?
    requires R.Current(Apply(max, s, a).queue, i)
    ensures PostsMatchAt(Apply(max, s, a), i)
  {
    R.CurrentBefore(Params(max), s.queue, MoveOf(a), i);
    if i == |s.queue.copies| {
      if a.Publish? {
        assert PostsOf(s.posts, a.e) == [];
      } else {
        SentOnMatches(max, s, a.i);
      }
    } else if a.Publish? || a.i != i {
      OtherMatches(max, s, a, i);
    } else {
      MovedMatches(max, s, a);
    }
  }

  lemma UnknownHasNoPosts(max: nat, s: State, a: Action, e: EventId)
    requires Inv(max, s) && Enabled(max, s, a) && !R.Known(Apply(max, s, a).queue, e)
    ensures PostsOf(Apply(max, s, a).posts, e) == []
  {
    R.Frame(Params(max), s.queue, MoveOf(a));
    if R.Known(s.queue, e) { R.KnownSurvives(s.queue, Apply(max, s, a).queue, e); }
    if a.Request? {
      assert R.Known(s.queue, s.queue.copies[a.i].key);
      PostsAppend(s.posts, Post(s.queue.copies[a.i].key, a.ok), e);
    }
  }

  lemma InvStep(max: nat, s: State, a: Action)
    requires max >= 1 && Inv(max, s) && !a.Requeue?
    ensures Inv(max, Apply(max, s, a))
  {
    if Enabled(max, s, a) {
      var t := Apply(max, s, a);
      R.SafeStep(Params(max), s.queue, MoveOf(a));
      R.UniqueStep(Params(max), s.queue, MoveOf(a));
      R.ConservedStep(Params(max), s.queue, MoveOf(a));
      forall i | R.Current(t.queue, i) ensures PostsMatchAt(t, i) { CurrentMatches(max, s, a, i); }
      forall e | !R.Known(t.queue, e) ensures PostsOf(t.posts, e) == [] { UnknownHasNoPosts(max, s, a, e); }
    }
  }

  lemma {:induction false} InvRun(max: nat, s: State, acts: seq<Action>)
    requires max >= 1 && Inv(max, s) && NoLostConnection(acts)
    ensures Inv(max, Run(max, s, acts))
    decreases |acts|
  {
    if acts != [] {
      assert !acts[0].Requeue?;
      InvStep(max, s, acts[0]);
      InvRun(max, Apply(max, s, acts[0]), acts[1..]);
    }
  }

  /** While no connection is lost, the posts of a published event are some failures, at
      most max of them, followed by one success if and only if the event was delivered;
      an event in the dead-letter queue was refused exactly max times. */
  lemma PostHistory(max: nat, acts: seq<Action>, e: EventId) returns (n: nat)
    requires max >= 1 && NoLostConnection(acts) && R.Known(Run(max, INIT, acts).queue, e)
    ensures var s := Run(max, INIT, acts);
      && PostsOf(s.posts, e) == (if e in s.queue.settled then Failures(n) + [true] else Failures(n))
      && n <= max && (e in s.queue.settled ==> n < max)
      && (forall i :: 0 <= i < |s.queue.copies| && s.queue.copies[i].key == e && s.queue.copies[i].place.Parked? ==> n == max)
  {
    var s := Run(max, INIT, acts);
    InvRun(max, INIT, acts);
    var k := R.HasCurrent(Params(max), s.queue, e);
    assert PostsMatchAt(s, k);
    var c := s.queue.copies[k];
    assert R.SafeAt(Params(max), s.queue, k);
    n := if c.place.Parked? || c.place == R.Working(0) then c.attempt else c.attempt - 1;
    SettledIffEnded(max, s, k);
    ExpectedShape(c, n);
    forall i | 0 <= i < |s.queue.copies| && s.queue.copies[i].key == e && s.queue.copies[i].place.Parked? ensures n == max {
      assert R.Current(s.queue, i);
      assert i == k;
    }
  }

  lemma ExpectedShape(c: R.Copy<EventId>, n: nat)
    requires c.attempt >= 1 && !R.Ended(c, R.HandedOver) && (c.place.Working? ==> c.place.rank <= 1)
    requires n == if c.place.Parked? || c.place == R.Working(0) then c.attempt else c.attempt - 1
    ensures ExpectedPosts(c) == if R.Ended(c, R.Settled) then Failures(n) + [true] else Failures(n)
  {
    match c.place {
      case Finishing(HandedOver) => assert false;
      case Acked(HandedOver) => assert false;
      case _ =>
    }
  }

  /** The current copy of a key was settled exactly when the key was. */
  lemma SettledIffEnded(max: nat, s: State, k: nat)
    requires Inv(max, s) && R.Current(s.queue, k)
    ensures R.Ended(s.queue.copies[k], R.Settled) <==> s.queue.copies[k].key in s.queue.settled
  {
    var c := s.queue.copies[k];
    assert R.SafeAt(Params(max), s.queue, k);
    match c.place {
      case Finishing(HandedOver) => assert false;
      case Acked(HandedOver) => assert false;
      case Finishing(Settled) =>
      case Acked(Settled) =>
      case _ => AliveNotSettled(max, s, k);
    }
  }

  lemma AliveNotSettled(max: nat, s: State, k: nat)
    requires R.Conserved(Params(max), s.queue) && k < |s.queue.copies| && R.Alive(s.queue.copies[k])
    ensures s.queue.copies[k].key !in s.queue.settled
  {
    var e := s.queue.copies[k].key;
    assert R.Known(s.queue, e);
    assert R.Balance(s.queue, e) == 1;
    R.AliveCounts(s.queue, k);
  }

  // ---------------------------------------------------------------------------
  // Bounded work
  // ---------------------------------------------------------------------------

  /** Publications that happened, and all other actions that did. */
  ghost function Publications(max: nat, s: State, acts: seq<Action>): nat
    decreases |acts|
  {
    if acts == [] then 0
    else (if acts[0].Publish? && Enabled(max, s, acts[0]) then 1 else 0) + Publications(max, Apply(max, s, acts[0]), acts[1..])
  }

  ghost function Steps(max: nat, s: State, acts: seq<Action>): nat
    decreases |acts|
  {
    if acts == [] then 0
    else (if !acts[0].Publish? && Enabled(max, s, acts[0]) then 1 else 0) + Steps(max, Apply(max, s, acts[0]), acts[1..])
  }

  lemma {:induction false} StepsWithinMeasure(max: nat, s: State, acts: seq<Action>)
    requires max >= 1 && R.Safe(Params(max), s.queue) && NoLostConnection(acts)
    ensures Steps(max, s, acts) + R.Measure(Params(max), Run(max, s, acts).queue)
      <= R.Measure(Params(max), s.queue) + Publications(max, s, acts) * (max * 5)
    decreases |acts|
  {
    hide R.Measure, R.Safe, R.After, R.Legal;
    if acts != [] {
      var a, t := acts[0], Apply(max, s, acts[0]);
      if Enabled(max, s, a) {
        assert !a.Requeue?;
        R.SafeStep(Params(max), s.queue, MoveOf(a));
        R.MeasureAfter(Params(max), s.queue, MoveOf(a));
      }
      StepsWithinMeasure(max, t, acts[1..]);
      R.OneMoreUnit(Publications(max, t, acts[1..]), max * 5);
    }
  }

  /** While no connection is lost, an event is good for at most max * 5 further steps of the
      broker and the handler: five per attempt, in any interleaving. */
  lemma WorkIsBounded(max: nat, acts: seq<Action>)
    requires max >= 1 && NoLostConnection(acts)
    ensures Steps(max, INIT, acts) <= Publications(max, INIT, acts) * (max * 5)
  {
    StepsWithinMeasure(max, INIT, acts);
  }

  // ---------------------------------------------------------------------------
  // The handler
  // ---------------------------------------------------------------------------

  /** A copy as the broker stores it: header is the x-delivery-attempt header, body the
      deliveryAttempt field. */
  datatype Stored = Stored(event: EventId, name: D.EventName, header: Option<nat>, body: Option<nat>,
                           place: R.Place, deliveries: nat)

  function Abs(c: Stored): R.Copy<EventId> {
    R.Copy(c.event, D.CurrentAttempt(c.header, c.body), c.place, c.deliveries)
  }

  function AbsAll(copies: seq<Stored>): seq<R.Copy<EventId>> {
    seq(|copies|, i requires 0 <= i < |copies| => Abs(copies[i]))
  }

  class WebhookDispatcher {
    const max: nat
    var copies: seq<Stored>
    var settled: set<EventId>
    var posts: seq<Post>

    function View(): State
      reads this
    {
      State(R.State(AbsAll(copies), settled), posts)
    }

    constructor (max: nat)
      ensures this.max == max && View() == INIT
    {
      this.max := max;
      copies, settled, posts := [], {}, [];
    }

    /** Queues an event exactly when the job has a webhook and its status has an event; e is
        the fresh event id. */
    method EnqueueFromResult(e: EventId, webhookUrl: string, status: D.Status)
      requires !R.Known(View().queue, e)
      modifies this
      ensures webhookUrl == "" || status == D.Queued || status == D.Processing ==>
        View() == old(View()) && copies == old(copies)
      ensures webhookUrl != "" && status != D.Queued && status != D.Processing ==>
        && View() == Apply(max, old(View()), Publish(e))
        && |copies| == |old(copies)| + 1
        && copies == old(copies) + [Stored(e, copies[|old(copies)|].name, None, None, R.Ready, 0)]
      ensures webhookUrl != "" && status == D.Completed ==> copies[|old(copies)|].name == D.JobCompleted
      ensures webhookUrl != "" && status == D.Failed ==> copies[|old(copies)|].name == D.JobFailed
      ensures webhookUrl != "" && status == D.Cancelled ==> copies[|old(copies)|].name == D.JobCancelled
      ensures webhookUrl != "" && status == D.Timeout ==> copies[|old(copies)|].name == D.JobTimeout
    {
      if webhookUrl == "" {
        return;
      }
      var name := D.ResolveEventName(status);
      if name == None {
        return;
      }
      copies := copies + [Stored(e, name.value, None, None, R.Ready, 0)];
      assert AbsAll(copies) == AbsAll(old(copies)) + [R.Copy(e, 1, R.Ready, 0)];
    }

    /** Handles one delivered copy; ok is the answer of the receiver. */
    method HandleMessage(i: nat, ok: bool)
      requires StandsAt(View(), i, 1)
      modifies this
      ensures View() == Run(max, old(View()), if ok then [Request(i, true), Ack(i)] else [Request(i, false), SendOn(i), Ack(i)])
      ensures i < |copies| && copies[i] == old(copies)[i].(place := R.Acked(if ok then R.Settled else R.HandedOver))
      ensures forall k :: |old(copies)| <= k < |copies| ==>
        copies[k].event == old(copies)[i].event && copies[k].name == old(copies)[i].name && copies[k].header == copies[k].body
    {
      var c := copies[i];
      var attempt := D.CurrentAttempt(c.header, c.body);
      posts := posts + [Post(c.event, ok)];
      if ok {
        settled := settled + {c.event};
        copies := copies[i := c.(place := R.Acked(R.Settled))];
      } else {
        var next := if attempt < max then attempt + 1 else attempt;
        var place := if attempt < max then R.Delayed else R.Parked;
        copies := copies + [Stored(c.event, c.name, Some(next), Some(next), place, 0)];
        copies := copies[i := c.(place := R.Acked(R.HandedOver))];
      }
      HandledRun(max, old(View()), View(), i, ok);
    }
  }

  /** What handling a copy amounts to. */
  lemma HandledRun(max: nat, s: State, t: State, i: nat, ok: bool)
    requires StandsAt(s, i, 1)
    requires var c := s.queue.copies[i];
      && t.posts == s.posts + [Post(c.key, ok)]
      && t.queue.settled == (if ok then s.queue.settled + {c.key} else s.queue.settled)
      && t.queue.copies == s.queue.copies[i := c.(place := R.Acked(if ok then R.Settled else R.HandedOver))]
        + if ok then [] else [R.Successor(Params(max), c)]
    ensures t == Run(max, s, if ok then [Request(i, true), Ack(i)] else [Request(i, false), SendOn(i), Ack(i)])
  {
    hide Run;
    var c := s.queue.copies[i];
    if ok {
      var s1 := Apply(max, s, Request(i, true));
      RunTwo(max, s, Request(i, true), Ack(i));
      assert s1.queue.copies[i] == c.(place := R.Finishing(R.Settled));
      assert t.queue.copies == Apply(max, s1, Ack(i)).queue.copies;
    } else {
      RunThree(max, s, Request(i, false), SendOn(i), Ack(i));
      FailedRun(max, s, i);
    }
  }

  lemma FailedRun(max: nat, s: State, i: nat)
    requires StandsAt(s, i, 1)
    ensures var c := s.queue.copies[i];
      var t := Apply(max, Apply(max, Apply(max, s, Request(i, false)), SendOn(i)), Ack(i));
      && t.posts == s.posts + [Post(c.key, false)] && t.queue.settled == s.queue.settled
      && t.queue.copies == s.queue.copies[i := c.(place := R.Acked(R.HandedOver))] + [R.Successor(Params(max), c)]
  {
    hide Params;
    var c := s.queue.copies[i];
    var s1 := Apply(max, s, Request(i, false));
    var s2 := Apply(max, s1, SendOn(i));
    assert s1.queue.copies == s.queue.copies[i := c.(place := R.Working(0))];
    assert s2.queue.copies == s.queue.copies[i := c.(place := R.Finishing(R.HandedOver))] + [R.Successor(Params(max), c)];
  }

  lemma RunTwo(max: nat, s: State, a: Action, b: Action)
    ensures Run(max, s, [a, b]) == Apply(max, Apply(max, s, a), b)
  {
    assert [a, b][1..] == [b];
    assert [b][1..] == [];
    assert Run(max, Apply(max, s, a), [b]) == Apply(max, Apply(max, s, a), b);
  }

  lemma RunThree(max: nat, s: State, a: Action, b: Action, d: Action)
    ensures Run(max, s, [a, b, d]) == Apply(max, Apply(max, Apply(max, s, a), b), d)
  {
    assert [a, b, d][1..] == [b, d];
    RunTwo(max, Apply(max, s, a), b, d);
  }
}
