/** The broker side of at-least-once delivery, without any payload: copies of keyed
    messages move between a main queue, a delay queue, a consumer and a dead-letter
    queue. Scrape jobs (Delivery) and webhook events (WebhookDelivery) are both
    instances of this machine. */
module RetryMachine {
  import opened Sums

  /** How a consumer got rid of the copy it held. */
  datatype Ending = Settled | HandedOver

  datatype Place =
    | Ready                     // in the main queue
    | Delayed                   // in the retry queue, waiting for its expiration
    | Working(rank: nat)        // unacked, the handler still has up to rank steps to do
    | Finishing(how: Ending)    // unacked, only the ack is missing
    | Acked(how: Ending)        // gone from the broker
    | Parked                    // in the dead-letter queue

  datatype Copy<K> = Copy(key: K, attempt: nat, place: Place, deliveries: nat)

  /** copies is append-only: a copy is identified by its position. settled holds the
      keys of which some handler call returned normally. */
  datatype State<K> = State(copies: seq<Copy<K>>, settled: set<K>)

  /** max is the delivery limit; top bounds the steps of one handler call. */
  datatype Params = Params(max: nat, top: nat)

  datatype Move<K> =
    | Publish(key: K)
    | Expire(i: nat)
    | Deliver(i: nat, rank: nat)
    | Work(i: nat, rank: nat)
    | Return(i: nat)
    | HandOver(i: nat)
    | Ack(i: nat)
    | Requeue(i: nat)           // connection lost: an unacked copy is ready again
    | Idle

  predicate Known<K(==)>(r: State<K>, k: K) {
    exists i :: 0 <= i < |r.copies| && r.copies[i].key == k
  }

  /** What a move demands of the copy it works on. */
  predicate Allows<K>(p: Params, c: Copy<K>, m: Move<K>) {
    match m
    case Expire(_) => c.place.Delayed?
    case Deliver(_, rank) => c.place.Ready? && rank <= p.top
    case Work(_, rank) => c.place.Working? && rank < c.place.rank
    case Return(_) => c.place.Working?
    case HandOver(_) => c.place.Working?
    case Ack(_) => c.place.Finishing?
    case Requeue(_) => c.place.Working? || c.place.Finishing?
    case _ => false
  }

  /** The copy after the move. */
  function Changed<K>(c: Copy<K>, m: Move<K>): Copy<K> {
    match m
    case Expire(_) => c.(place := Ready)
    case Deliver(_, rank) => c.(place := Working(rank), deliveries := c.deliveries + 1)
    case Work(_, rank) => c.(place := Working(rank))
    case Return(_) => c.(place := Finishing(Settled))
    case HandOver(_) => c.(place := Finishing(HandedOver))
    case Ack(_) => if c.place.Finishing? then c.(place := Acked(c.place.how)) else c
    case Requeue(_) => c.(place := Ready)
    case _ => c
  }

  function Successor<K>(p: Params, c: Copy<K>): Copy<K> {
    if c.attempt < p.max then Copy(c.key, c.attempt + 1, Delayed, 0)
    else Copy(c.key, c.attempt, Parked, 0)
  }

  predicate Legal<K(==)>(p: Params, r: State<K>, m: Move<K>) {
    match m
    case Publish(k) => !Known(r, k)
    case Idle => true
    case _ => m.i < |r.copies| && Allows(p, r.copies[m.i], m)
  }

  function After<K(==)>(p: Params, r: State<K>, m: Move<K>): State<K>
    requires Legal(p, r, m)
  {
    match m
    case Publish(k) => r.(copies := r.copies + [Copy(k, 1, Ready, 0)])
    case Idle => r
    case _ =>
      var c := r.copies[m.i];
      State(r.copies[m.i := Changed(c, m)] + (if m.HandOver? then [Successor(p, c)] else []),
            if m.Return? then r.settled + {c.key} else r.settled)
  }

  // ---------------------------------------------------------------------------
  // Every run, with connection losses at any point
  // ---------------------------------------------------------------------------

  ghost predicate Later<K>(r: State<K>, i: int) {
    exists k :: i < k < |r.copies| && 0 <= i && r.copies[k].key == r.copies[i].key
  }

  /** Attempts stay in 1..max, only the last attempt is parked, and a copy that left or
      is about to leave has either a successor or a settled key. */
  ghost predicate SafeAt<K>(p: Params, r: State<K>, i: int)
    requires 0 <= i < |r.copies|
  {
    var c := r.copies[i];
    && 1 <= c.attempt <= p.max
    && (c.place.Parked? ==> c.attempt == p.max)
    && (Ended(c, HandedOver) ==> Later(r, i))
    && (Ended(c, Settled) ==> c.key in r.settled)
  }

  ghost predicate Safe<K>(p: Params, r: State<K>) {
    && (forall i :: 0 <= i < |r.copies| ==> SafeAt(p, r, i))
    && (forall k :: k in r.settled ==> Known(r, k))
  }

  predicate Ended<K>(c: Copy<K>, how: Ending) {
    c.place == Finishing(how) || c.place == Acked(how)
  }

  lemma LaterSurvives<K>(r: State<K>, q: State<K>, i: int)
    requires Later(r, i) && |r.copies| <= |q.copies|
    requires forall k :: 0 <= k < |r.copies| ==> q.copies[k].key == r.copies[k].key
    ensures Later(q, i)
  {
    var k :| i < k < |r.copies| && r.copies[k].key == r.copies[i].key;
    assert q.copies[k].key == q.copies[i].key;
  }

  lemma KnownSurvives<K>(r: State<K>, q: State<K>, k: K)
    requires Known(r, k) && |r.copies| <= |q.copies|
    requires forall i :: 0 <= i < |r.copies| ==> q.copies[i].key == r.copies[i].key
    ensures Known(q, k)
  {
    var i :| 0 <= i < |r.copies| && r.copies[i].key == k;
    assert q.copies[i].key == k;
  }

  /** Keys stay where they are, and nothing but the moved copy changes. */
  lemma Frame<K>(p: Params, r: State<K>, m: Move<K>)
    requires Legal(p, r, m)
    ensures var q := After(p, r, m);
      && |r.copies| <= |q.copies| <= |r.copies| + 1
      && (forall i :: 0 <= i < |r.copies| ==> q.copies[i].key == r.copies[i].key)
      && (forall i :: 0 <= i < |r.copies| && (m.Publish? || m.Idle? || i != m.i) ==> q.copies[i] == r.copies[i])
      && r.settled <= q.settled
  {
  }

  lemma SafeStep<K>(p: Params, r: State<K>, m: Move<K>)
    requires Safe(p, r) && Legal(p, r, m) && p.max >= 1
    ensures Safe(p, After(p, r, m))
  {
    var q := After(p, r, m);
    Frame(p, r, m);
    forall i | 0 <= i < |q.copies|
      ensures SafeAt(p, q, i)
    {
      if i < |r.copies| {
        assert SafeAt(p, r, i);
        SafeOld(p, r, m, i);
      } else if m.HandOver? {
        assert SafeAt(p, r, m.i);
      }
    }
    forall k | k in q.settled
      ensures Known(q, k)
    {
      if k in r.settled {
        KnownSurvives(r, q, k);
      } else {
        assert q.copies[m.i].key == k;
      }
    }
  }

  lemma SafeOld<K>(p: Params, r: State<K>, m: Move<K>, i: nat)
    requires Legal(p, r, m) && i < |r.copies| && SafeAt(p, r, i)
    ensures i < |After(p, r, m).copies| && SafeAt(p, After(p, r, m), i)
  {
    var q := After(p, r, m);
    Frame(p, r, m);
    if Later(r, i) { LaterSurvives(r, q, i); }
    if m.HandOver? && m.i == i {
      assert q.copies[|r.copies|].key == q.copies[i].key;
    }
  }

  /** No published message is lost: some copy of it is still at the broker, or a handler
      call for it returned normally. */
  lemma {:induction false} NoLoss<K>(p: Params, r: State<K>, k: K)
    requires Safe(p, r) && Known(r, k)
    ensures k in r.settled || exists i :: 0 <= i < |r.copies| && r.copies[i].key == k && !r.copies[i].place.Acked?
  {
    var i := LastOf(r, k, |r.copies|);
    var c := r.copies[i];
    assert SafeAt(p, r, i);
    match c.place {
      case Acked(Settled) => assert Ended(c, Settled);
      case Acked(HandedOver) => assert false;
      case _ =>
    }
  }

  /** The last position below n that holds a copy of k. */
  lemma {:induction false} LastOf<K>(r: State<K>, k: K, n: nat) returns (i: nat)
    requires n <= |r.copies|
    requires exists j :: 0 <= j < n && r.copies[j].key == k
    ensures i < n && r.copies[i].key == k
    ensures forall j :: i < j < n ==> r.copies[j].key != k
  {
    if r.copies[n - 1].key == k {
      i := n - 1;
    } else {
      i := LastOf(r, k, n - 1);
    }
  }

  // ---------------------------------------------------------------------------
  // Runs without connection losses
  // ---------------------------------------------------------------------------

  /** A copy that still owes a result for its key. */
  predicate Alive<K>(c: Copy<K>) {
    c.place.Ready? || c.place.Delayed? || c.place.Working? || c.place.Parked?
  }

  function AliveWeight<K(==)>(k: K): Copy<K> -> nat {
    (c: Copy<K>) => if c.key == k && Alive(c) then 1 else 0
  }

  /** Handler calls made for this copy, and those it can still cause. */
  function CallWeight<K(==)>(p: Params, k: K): Copy<K> -> nat {
    (c: Copy<K>) => if c.key == k then c.deliveries + CallsLeft(p, c) else 0
  }

  function CallsLeft<K>(p: Params, c: Copy<K>): nat {
    if (c.place.Ready? || c.place.Delayed?) && c.attempt <= p.max then p.max - c.attempt + 1
    else if c.place.Working? && c.attempt <= p.max then p.max - c.attempt
    else 0
  }

  function DeliveryWeight<K(==)>(k: K): Copy<K> -> nat {
    (c: Copy<K>) => if c.key == k then c.deliveries else 0
  }

  ghost function Balance<K>(r: State<K>, k: K): nat {
    Sum(r.copies, AliveWeight(k)) + if k in r.settled then 1 else 0
  }

  /** For every published key: copies that owe a result plus settled results are exactly
      one, and the handler calls made and still possible are at most max. */
  ghost predicate Conserved<K(!new)>(p: Params, r: State<K>) {
    && (forall k :: Known(r, k) ==> Balance(r, k) == 1)
    && (forall k :: Known(r, k) ==> Sum(r.copies, CallWeight(p, k)) <= p.max)
  }

  lemma Unknown<K>(p: Params, r: State<K>, k: K)
    requires !Known(r, k) && Safe(p, r)
    ensures Sum(r.copies, AliveWeight(k)) == 0 && Sum(r.copies, CallWeight(p, k)) == 0
    ensures k !in r.settled
  {
    SumZero(r.copies, AliveWeight(k));
    SumZero(r.copies, CallWeight(p, k));
  }

  lemma KnownBefore<K>(p: Params, r: State<K>, m: Move<K>, k: K)
    requires Legal(p, r, m) && Known(After(p, r, m), k)
    ensures Known(r, k) || m == Publish(k)
  {
    var q := After(p, r, m);
    var i :| 0 <= i < |q.copies| && q.copies[i].key == k;
    if i < |r.copies| {
      assert r.copies[i].key == k;
    } else if m.HandOver? {
      assert r.copies[m.i].key == k;
    }
  }

  lemma KnownAfter<K>(p: Params, r: State<K>, m: Move<K>, k: K)
    requires Legal(p, r, m)
    ensures Known(After(p, r, m), k) <==> Known(r, k) || m == Publish(k)
  {
    var q := After(p, r, m);
    Frame(p, r, m);
    if Known(q, k) { KnownBefore(p, r, m, k); }
    if Known(r, k) { KnownSurvives(r, q, k); }
    if m == Publish(k) { assert q.copies[|r.copies|].key == k; }
  }

  lemma ConservedStep<K(!new)>(p: Params, r: State<K>, m: Move<K>)
    requires p.max >= 1 && Safe(p, r) && Conserved(p, r) && Legal(p, r, m) && !m.Requeue?
    ensures Conserved(p, After(p, r, m))
  {
    forall k | Known(After(p, r, m), k)
      ensures Balance(After(p, r, m), k) == 1
      ensures Sum(After(p, r, m).copies, CallWeight(p, k)) <= p.max
    {
      KnownBefore(p, r, m, k);
      BalanceStep(p, r, m, k);
    }
  }

  /** How a move on copy i changes a sum over the copies. */
  lemma SumAfter<K>(p: Params, r: State<K>, m: Move<K>, weight: Copy<K> -> nat)
    requires Legal(p, r, m) && !m.Publish? && !m.Idle?
    ensures var c := r.copies[m.i];
      Sum(After(p, r, m).copies, weight) + weight(c)
        == Sum(r.copies, weight) + weight(Changed(c, m)) + if m.HandOver? then weight(Successor(p, c)) else 0
  {
    var c := r.copies[m.i];
    var kept := r.copies[m.i := Changed(c, m)];
    SumUpdate(r.copies, m.i, Changed(c, m), weight);
    if m.HandOver? {
      SumAppend(kept, Successor(p, c), weight);
    } else {
      assert After(p, r, m).copies == kept;
    }
  }

  lemma WeightsAfter<K>(p: Params, c: Copy<K>, m: Move<K>)
    requires Allows(p, c, m) && !m.Requeue? && 1 <= c.attempt <= p.max
    ensures var w := AliveWeight(c.key);
      w(Changed(c, m)) + (if m.HandOver? then w(Successor(p, c)) else 0) + (if m.Return? then 1 else 0) == w(c)
    ensures var w := CallWeight(p, c.key);
      w(Changed(c, m)) + (if m.HandOver? then w(Successor(p, c)) else 0) <= w(c)
  {
  }

  lemma BalanceStep<K(!new)>(p: Params, r: State<K>, m: Move<K>, k: K)
    requires p.max >= 1 && Safe(p, r) && Conserved(p, r) && Legal(p, r, m) && !m.Requeue?
    requires Known(r, k) || m == Publish(k)
    ensures Balance(After(p, r, m), k) == 1
    ensures Sum(After(p, r, m).copies, CallWeight(p, k)) <= p.max
  {
    if m.Publish? {
      SumAppend(r.copies, Copy(m.key, 1, Ready, 0), AliveWeight(k));
      SumAppend(r.copies, Copy(m.key, 1, Ready, 0), CallWeight(p, k));
      if m.key == k { Unknown(p, r, k); }
    } else if !m.Idle? {
      var c := r.copies[m.i];
      assert SafeAt(p, r, m.i);
      SumAfter(p, r, m, AliveWeight(k));
      SumAfter(p, r, m, CallWeight(p, k));
      if c.key == k {
        WeightsAfter(p, c, m);
        SumAtLeast(r.copies, m.i, AliveWeight(k));
      }
    }
  }

  lemma AliveCounts<K>(r: State<K>, i: nat)
    requires i < |r.copies| && Alive(r.copies[i])
    ensures Sum(r.copies, AliveWeight(r.copies[i].key)) >= 1
  {
    SumAtLeast(r.copies, i, AliveWeight(r.copies[i].key));
  }

  /** Two different copies of one key never both owe a result. */
  lemma OneAlive<K(!new)>(p: Params, r: State<K>, i: nat, k: nat)
    requires Conserved(p, r)
    requires i < |r.copies| && k < |r.copies| && i != k && r.copies[i].key == r.copies[k].key
    requires Alive(r.copies[i])
    ensures !Alive(r.copies[k])
    ensures r.copies[i].key !in r.settled
  {
    var key := r.copies[i].key;
    assert Known(r, key);
    SumAtLeast(r.copies, i, AliveWeight(key));
    if Alive(r.copies[k]) {
      SumAtLeastTwo(r.copies, if i < k then i else k, if i < k then k else i, AliveWeight(key));
    }
  }

  /** No two copies of one key that were not handed over. */
  ghost predicate Unique<K(!new)>(r: State<K>) {
    forall i, k :: Current(r, i) && Current(r, k) && r.copies[i].key == r.copies[k].key ==> i == k
  }

  ghost predicate Current<K>(r: State<K>, i: int) {
    0 <= i < |r.copies| && !Ended(r.copies[i], HandedOver)
  }

  /** A current copy was current before, or is the new copy of this move. */
  lemma CurrentBefore<K(!new)>(p: Params, r: State<K>, m: Move<K>, i: int)
    requires Legal(p, r, m) && !m.Requeue? && Current(After(p, r, m), i)
    ensures Current(r, i) || (i == |r.copies| && m.Publish?) || (i == |r.copies| && m.HandOver? && Current(r, m.i))
    ensures m.HandOver? ==> i != m.i
  {
  }

  lemma UniqueStep<K(!new)>(p: Params, r: State<K>, m: Move<K>)
    requires Unique(r) && Legal(p, r, m) && !m.Requeue?
    ensures Unique(After(p, r, m))
  {
    var q := After(p, r, m);
    forall i, k | Current(q, i) && Current(q, k) && q.copies[i].key == q.copies[k].key ensures i == k {
      CurrentBefore(p, r, m, i);
      CurrentBefore(p, r, m, k);
      Frame(p, r, m);
    }
  }

  /** A known key has a current copy. */
  lemma HasCurrent<K>(p: Params, r: State<K>, k: K) returns (i: nat)
    requires Safe(p, r) && Known(r, k)
    ensures Current(r, i) && r.copies[i].key == k
  {
    i := LastOf(r, k, |r.copies|);
    assert SafeAt(p, r, i);
  }

  /** At most max handler calls per key. */
  lemma CallsBounded<K(!new)>(p: Params, r: State<K>, k: K)
    requires Conserved(p, r)
    ensures Sum(r.copies, DeliveryWeight(k)) <= p.max
  {
    if Known(r, k) {
      SumMonotone(r.copies, DeliveryWeight(k), CallWeight(p, k));
    } else {
      SumZero(r.copies, DeliveryWeight(k));
    }
  }

  // ---------------------------------------------------------------------------
  // Termination
  // ---------------------------------------------------------------------------

  /** What a copy can still cost: remaining attempts first, then its place. */
  function Potential<K>(p: Params, c: Copy<K>): nat {
    var rest := if c.attempt <= p.max then (p.max - c.attempt) * (p.top + 4) else 0;
    match c.place
    case Delayed => rest + p.top + 4
    case Ready => rest + p.top + 3
    case Working(rank) => rest + rank + 2
    case Finishing(_) => 1
    case Acked(_) => 0
    case Parked => 0
  }

  function PotentialWeight<K>(p: Params): Copy<K> -> nat {
    (c: Copy<K>) => Potential(p, c)
  }

  ghost function Measure<K>(p: Params, r: State<K>): nat {
    Sum(r.copies, PotentialWeight(p))
  }

  lemma SuccessorCost<K>(p: Params, c: Copy<K>)
    requires 1 <= c.attempt <= p.max && c.place.Working?
    ensures Potential(p, Successor(p, c)) + 1 < Potential(p, c)
  {
    if c.attempt < p.max {
      var n := p.max - c.attempt;
      assert (n - 1) * (p.top + 4) + p.top + 4 == n * (p.top + 4);
    }
  }

  lemma PotentialFalls<K>(p: Params, c: Copy<K>, m: Move<K>)
    requires Allows(p, c, m) && !m.Requeue? && 1 <= c.attempt <= p.max
    ensures Potential(p, Changed(c, m)) + (if m.HandOver? then Potential(p, Successor(p, c)) else 0) < Potential(p, c)
  {
    if m.HandOver? {
      SuccessorCost(p, c);
    }
  }

  /** Every move other than a publish or a connection loss makes the measure smaller. */
  lemma MeasureFalls<K>(p: Params, r: State<K>, m: Move<K>)
    requires Safe(p, r) && Legal(p, r, m)
    requires !m.Publish? && !m.Requeue? && !m.Idle?
    ensures Measure(p, After(p, r, m)) < Measure(p, r)
  {
    assert SafeAt(p, r, m.i);
    SumAfter(p, r, m, PotentialWeight(p));
    PotentialFalls(p, r.copies[m.i], m);
  }

  lemma MeasureOfPublish<K>(p: Params, r: State<K>, k: K)
    requires p.max >= 1 && Legal(p, r, Publish(k))
    ensures Measure(p, After(p, r, Publish(k))) == Measure(p, r) + p.max * (p.top + 4) - 1
  {
    var c := Copy(k, 1, Ready, 0);
    SumAppend(r.copies, c, PotentialWeight(p));
    assert (p.max - 1) * (p.top + 4) + p.top + 4 == p.max * (p.top + 4);
  }

  ghost predicate LegalRun<K>(p: Params, r: State<K>, ms: seq<Move<K>>)
    decreases |ms|
  {
    ms == [] || (Legal(p, r, ms[0]) && LegalRun(p, After(p, r, ms[0]), ms[1..]))
  }

  ghost function Exec<K>(p: Params, r: State<K>, ms: seq<Move<K>>): State<K>
    requires LegalRun(p, r, ms)
    decreases |ms|
  {
    if ms == [] then r else Exec(p, After(p, r, ms[0]), ms[1..])
  }

  function Publishes<K>(ms: seq<Move<K>>): nat {
    if ms == [] then 0 else (if ms[0].Publish? then 1 else 0) + Publishes(ms[1..])
  }

  function Busy<K>(ms: seq<Move<K>>): nat {
    if ms == [] then 0 else (if ms[0].Publish? || ms[0].Idle? then 0 else 1) + Busy(ms[1..])
  }

  lemma OneMoreUnit(n: nat, unit: int)
    ensures (n + 1) * unit == n * unit + unit
  {
  }

  /** Bounded work: without connection losses, n publishes are followed by at most
      n * max * (top + 4) further moves, whatever the order of the moves. */
  lemma {:induction false} BoundedWork<K>(p: Params, r: State<K>, ms: seq<Move<K>>)
    requires p.max >= 1 && Safe(p, r) && LegalRun(p, r, ms)
    requires forall i :: 0 <= i < |ms| ==> !ms[i].Requeue?
    ensures Busy(ms) + Measure(p, Exec(p, r, ms)) <= Measure(p, r) + Publishes(ms) * (p.max * (p.top + 4))
    decreases |ms|
  {
    hide Measure, Safe, Legal, After;
    if ms != [] {
      SafeStep(p, r, ms[0]);
      BoundedWork(p, After(p, r, ms[0]), ms[1..]);
      MeasureAfter(p, r, ms[0]);
      OneMoreUnit(Publishes(ms[1..]), p.max * (p.top + 4));
    }
  }

  lemma MeasureAfter<K>(p: Params, r: State<K>, m: Move<K>)
    requires p.max >= 1 && Safe(p, r) && Legal(p, r, m) && !m.Requeue?
    ensures Measure(p, After(p, r, m)) + (if m.Publish? || m.Idle? then 0 else 1)
      <= Measure(p, r) + if m.Publish? then p.max * (p.top + 4) else 0
  {
    if m.Publish? {
      MeasureOfPublish(p, r, m.key);
    } else if !m.Idle? {
      MeasureFalls(p, r, m);
    }
  }
}
