/** Round robin over workers and over proxies: one shared counter per rotation key, taken
    modulo the number of members. From any counter, a list that stays the same and has its
    key to itself is served evenly. */
module RoundRobin {
  import opened Common
  import opened QueueNames
  import opened StableText

  type Counters = map<string, nat>

  function CounterOf(counters: Counters, key: string): nat {
    if key in counters then counters[key] else 0
  }

  /** Whose turn it is among n members. A single member is chosen without counting. */
  function Turn(counters: Counters, key: string, n: nat): (r: nat)
    requires n >= 1
    ensures r < n
  {
    if n == 1 then 0 else CounterOf(counters, key) % n
  }

  function Advance(counters: Counters, key: string, n: nat): Counters {
    if n <= 1 then counters else counters[key := CounterOf(counters, key) + 1]
  }

  /** The stored counters. */
  class Rotation {
    var counters: Counters

    constructor ()
      ensures counters == map[]
    {
      counters := map[];
    }

    /** The counter's new value. */
    method Incr(key: string) returns (next: nat)
      modifies this
      ensures next == CounterOf(old(counters), key) + 1 && counters == old(counters)[key := next]
    {
      next := CounterOf(counters, key) + 1;
      counters := counters[key := next];
    }
  }

  // ---------------------------------------------------------------------------
  // Workers
  // ---------------------------------------------------------------------------

  datatype Heartbeat = Heartbeat(serviceName: string, hostname: string, allowed: seq<Routing>)

  /** The key is the worker id. */
  type Worker = Keyed<Heartbeat>

  datatype Wanted = Service(name: string) | Host(name: string)

  /** A request without a strategy accepts every worker. */
  predicate Eligible(w: Worker, wanted: Wanted, strategy: Option<Strategy>) {
    && (match wanted case Service(name) => w.value.serviceName == name case Host(name) => w.value.hostname == name)
    && (strategy.Some? ==> SupportsStrategy(w.value.allowed, strategy.value))
  }

  function Filter(live: seq<Worker>, wanted: Wanted, strategy: Option<Strategy>): seq<Worker> {
    if live == [] then []
    else (if Eligible(live[0], wanted, strategy) then [live[0]] else []) + Filter(live[1..], wanted, strategy)
  }

  lemma {:induction false} FilterExact(live: seq<Worker>, wanted: Wanted, strategy: Option<Strategy>)
    ensures forall w :: w in Filter(live, wanted, strategy) <==> w in live && Eligible(w, wanted, strategy)
  {
    if live != [] {
      FilterExact(live[1..], wanted, strategy);
      assert live == [live[0]] + live[1..];
    }
  }

  lemma {:induction false} FilterDistinct(live: seq<Worker>, wanted: Wanted, strategy: Option<Strategy>)
    requires DistinctKeys(live)
    ensures DistinctKeys(Filter(live, wanted, strategy))
  {
    if live != [] {
      var rest := Filter(live[1..], wanted, strategy);
      FilterDistinct(live[1..], wanted, strategy);
      FilterExact(live[1..], wanted, strategy);
      forall i | 0 <= i < |rest| ensures rest[i].key != live[0].key {
        assert rest[i] in rest;
        assert rest[i] in live[1..];
      }
    }
  }

  /** Who takes which turn does not depend on the order in which the workers were found. */
  lemma SameArrangement(less: KeyOrder, a: seq<Worker>, b: seq<Worker>, wanted: Wanted, strategy: Option<Strategy>)
    requires StrictTotal(less) && DistinctKeys(a) && DistinctKeys(b)
    requires forall w :: w in a <==> w in b
    ensures Sort(less, Filter(a, wanted, strategy)) == Sort(less, Filter(b, wanted, strategy))
  {
    var x, y := Filter(a, wanted, strategy), Filter(b, wanted, strategy);
    FilterExact(a, wanted, strategy);
    FilterExact(b, wanted, strategy);
    FilterDistinct(a, wanted, strategy);
    FilterDistinct(b, wanted, strategy);
    SortSorted(less, x);
    SortSorted(less, y);
    SortElements(less, x);
    SortElements(less, y);
    SortedUnique(less, Sort(less, x), Sort(less, y));
  }

  /** A worker may be given a request if it has the name asked for and supports the strategy,
      if there is one. */
  lemma EligibleIff(w: Worker, wanted: Wanted, strategy: Option<Strategy>)
    ensures Eligible(w, wanted, strategy) <==>
      && (wanted.Service? ==> w.value.serviceName == wanted.name)
      && (wanted.Host? ==> w.value.hostname == wanted.name)
      && (strategy == None || strategy == Some(Auto) || w.value.allowed == []
          || (strategy.value.Fixed? && strategy.value.routing in w.value.allowed)
          || (strategy == Some(Cloudscraper) && Http in w.value.allowed))
  {
    if strategy.Some? { SupportsIff(w.value.allowed, strategy.value); }
  }

  lemma SameMiddle(head: string, x: string, y: string, tail: string)
    requires head + x + tail == head + y + tail
    ensures x == y
  {
    assert |x| == |y|;
    assert x == (head + x + tail)[|head|..|head| + |x|];
    assert y == (head + y + tail)[|head|..|head| + |y|];
  }

  class WorkerRegistry {
    const less: KeyOrder
    const prefix: string
    const rotation: Rotation

    constructor (less: KeyOrder, prefix: string, rotation: Rotation)
      ensures this.less == less && this.prefix == prefix && this.rotation == rotation
    {
      this.less := less;
      this.prefix := prefix;
      this.rotation := rotation;
    }

    method ResolveWorkerWithRoundRobin(workers: seq<Worker>, key: string) returns (w: Option<Worker>)
      modifies rotation
      ensures workers == [] ==> w == None && rotation.counters == old(rotation.counters)
      ensures workers != [] ==>
        && |Sort(less, workers)| == |workers|
        && w == Some(Sort(less, workers)[Turn(old(rotation.counters), key, |workers|)])
        && rotation.counters == Advance(old(rotation.counters), key, |workers|)
    {
      var sorted := Sort(less, workers);
      SortElements(less, workers);
      if |sorted| == 0 {
        return None;
      }
      if |sorted| == 1 {
        return Some(sorted[0]);
      }
      var next := rotation.Incr(key);
      return Some(sorted[(next - 1) % |sorted|]);
    }

    function RotationKey(wanted: Wanted): string {
      match wanted
      case Service(name) => prefix + ":worker-service:" + name + ":rr"
      case Host(name) => prefix + ":worker-hostname:" + SanitizeSegment(name) + ":rr"
    }

    /** Services have a counter each, and so have host names that stay different as segments. */
    lemma RotationKeys(a: Wanted, b: Wanted)
      ensures RotationKey(a) == RotationKey(b) <==>
        (a.Service? && a == b) || (a.Host? && b.Host? && SanitizeSegment(a.name) == SanitizeSegment(b.name))
    {
      var n := |prefix| + 8;
      assert RotationKey(a)[n] == if a.Service? then 's' else 'h';
      assert RotationKey(b)[n] == if b.Service? then 's' else 'h';
      if RotationKey(a) == RotationKey(b) {
        var head := if a.Service? then prefix + ":worker-service:" else prefix + ":worker-hostname:";
        var x := if a.Service? then a.name else SanitizeSegment(a.name);
        var y := if a.Service? then b.name else SanitizeSegment(b.name);
        SameMiddle(head, x, y, ":rr");
      }
    }

    /** Finds a live worker exactly when one is eligible, and only an eligible one. */
    method ResolveWorker(live: seq<Worker>, wanted: Wanted, strategy: Option<Strategy>) returns (w: Option<Worker>)
      modifies rotation
      ensures w == None <==> wanted.name == "" || forall x :: x in live ==> !Eligible(x, wanted, strategy)
      ensures w.Some? ==> w.value in live && Eligible(w.value, wanted, strategy)
      ensures wanted.name == "" ==> rotation.counters == old(rotation.counters)
      ensures wanted.name != "" ==>
        rotation.counters == Advance(old(rotation.counters), RotationKey(wanted), |Filter(live, wanted, strategy)|)
      ensures w.Some? ==>
        var turns := Sort(less, Filter(live, wanted, strategy));
        turns != [] && w.value == turns[Turn(old(rotation.counters), RotationKey(wanted), |turns|)]
    {
      if wanted.name == "" {
        return None;
      }
      var workers := Filter(live, wanted, strategy);
      FilterExact(live, wanted, strategy);
      w := ResolveWorkerWithRoundRobin(workers, RotationKey(wanted));
      if workers == [] {
        forall x | x in live ensures !Eligible(x, wanted, strategy) {
          assert x !in workers;
        }
      } else {
        SortElements(less, workers);
        assert w.value in Sort(less, workers);
        assert w.value in workers;
      }
    }
  }

  // ---------------------------------------------------------------------------
  // Proxies
  // ---------------------------------------------------------------------------

  datatype Source = Env | WorkerService | Global | Job

  datatype Policy = Policy(enabled: bool, proxies: seq<string>)

  datatype Resolved = Direct | Proxy(url: string, source: Source, poolSize: nat, index: nat)

  /** What decides about a job's proxy. A missing policy counts as a disabled one. */
  datatype Facts = Facts(forceProxy: bool, env: seq<string>, serviceName: string, service: Policy, global: Policy,
                         request: string, useProxy: bool)

  datatype Pool = Pool(source: Source, proxies: seq<string>)

  /** Everything a job could use, the most binding first. */
  function Pools(f: Facts): seq<Pool> {
    (if f.forceProxy && f.env != [] then [Pool(Env, f.env)] else [])
    + (if f.service.enabled && f.service.proxies != [] then [Pool(WorkerService, f.service.proxies)] else [])
    + (if f.global.enabled && f.global.proxies != [] then [Pool(Global, f.global.proxies)] else [])
    + (if f.request != "" then [Pool(Job, [f.request])] else [])
    + (if f.useProxy && f.env != [] then [Pool(Env, f.env)] else [])
  }

  predicate Usable(p: Policy) {
    p.enabled && p.proxies != []
  }

  class ProxyPolicy {
    const prefix: string
    const rotation: Rotation

    constructor (prefix: string, rotation: Rotation)
      ensures this.prefix == prefix && this.rotation == rotation
    {
      this.prefix := prefix;
      this.rotation := rotation;
    }

    function PoolKey(source: Source, serviceName: string): string {
      match source
      case Env => prefix + ":proxy-pool:env:rr"
      case Global => prefix + ":proxy-pool:global:rr"
      case Job => prefix + ":proxy-pool:job:rr"
      case WorkerService => prefix + ":proxy-pool:worker-service:" + SanitizeSegment(serviceName) + ":rr"
    }

    /** The pools have a counter each, and so have services that stay different as segments. */
    lemma PoolKeys(a: Source, x: string, b: Source, y: string)
      ensures PoolKey(a, x) == PoolKey(b, y) <==>
        a == b && (a == WorkerService ==> SanitizeSegment(x) == SanitizeSegment(y))
    {
      var n := |prefix| + 12;
      assert PoolKey(a, x)[n] == Initial(a) && PoolKey(b, y)[n] == Initial(b);
      if PoolKey(a, x) == PoolKey(b, y) && a == WorkerService {
        SameMiddle(prefix + ":proxy-pool:worker-service:", SanitizeSegment(x), SanitizeSegment(y), ":rr");
      }
    }

    function Initial(source: Source): char {
      match source
      case Env => 'e'
      case Global => 'g'
      case Job => 'j'
      case WorkerService => 'w'
    }

    method SelectProxy(proxies: seq<string>, key: string) returns (url: string, index: nat)
      requires proxies != []
      modifies rotation
      ensures index == Turn(old(rotation.counters), key, |proxies|) && url == proxies[index]
      ensures rotation.counters == Advance(old(rotation.counters), key, |proxies|)
    {
      if |proxies| == 1 {
        return proxies[0], 0;
      }
      var next := rotation.Incr(key);
      index := (next - 1) % |proxies|;
      url := proxies[index];
    }

    method ResolveFromPool(proxies: seq<string>, source: Source, serviceName: string) returns (r: Resolved)
      modifies rotation
      ensures proxies == [] ==> r == Direct && rotation.counters == old(rotation.counters)
      ensures proxies != [] ==> Serves(r, Pool(source, proxies), serviceName, old(rotation.counters), rotation.counters)
    {
      if proxies == [] {
        return Direct;
      }
      var url, index := SelectProxy(proxies, PoolKey(source, serviceName));
      r := Proxy(url, source, |proxies|, index);
    }

    /** The member of the pool whose turn it is. */
    predicate Serves(r: Resolved, pool: Pool, serviceName: string, before: Counters, after: Counters)
      requires pool.proxies != []
    {
      var key, n := PoolKey(pool.source, serviceName), |pool.proxies|;
      && r == Proxy(pool.proxies[Turn(before, key, n)], pool.source, n, Turn(before, key, n))
      && after == Advance(before, key, n)
    }

    /** A job is served from the first of its pools, and directly only when it has none: a
        forced environment pool comes first, then the service's, the global one, the job's own
        proxy, and the environment pool if the job asks for a proxy. */
    method ResolveForJob(f: Facts) returns (r: Resolved)
      modifies rotation
      ensures f.forceProxy && f.env != [] ==> r.Proxy? && r.source == Env && r.url in f.env
      ensures !(f.forceProxy && f.env != []) && Usable(f.service) ==>
        r.Proxy? && r.source == WorkerService && r.url in f.service.proxies
      ensures !(f.forceProxy && f.env != []) && !Usable(f.service) && Usable(f.global) ==>
        r.Proxy? && r.source == Global && r.url in f.global.proxies
      ensures !(f.forceProxy && f.env != []) && !Usable(f.service) && !Usable(f.global) ==>
        (if f.request != "" then r == Proxy(f.request, Job, 1, 0)
         else if f.useProxy && f.env != [] then r.Proxy? && r.source == Env && r.url in f.env
         else r == Direct)
      ensures Pools(f) == [] ==> r == Direct && rotation.counters == old(rotation.counters)
      ensures Pools(f) != [] ==> Pools(f)[0].proxies != []
      ensures Pools(f) != [] ==> Serves(r, Pools(f)[0], f.serviceName, old(rotation.counters), rotation.counters)
    {
      if f.forceProxy && |f.env| > 0 {
        r := ResolveFromPool(f.env, Env, f.serviceName);
        return;
      }
      if f.service.enabled && |f.service.proxies| > 0 {
        r := ResolveFromPool(f.service.proxies, WorkerService, f.serviceName);
        return;
      }
      if f.global.enabled && |f.global.proxies| > 0 {
        r := ResolveFromPool(f.global.proxies, Global, f.serviceName);
        return;
      }
      if f.request != "" {
        return Proxy(f.request, Job, 1, 0);
      }
      if f.useProxy && |f.env| > 0 {
        r := ResolveFromPool(f.env, Env, f.serviceName);
        return;
      }
      return Direct;
    }
  }

  // ---------------------------------------------------------------------------
  // Fairness
  // ---------------------------------------------------------------------------

  /** One selection: the rotation key and the list it chooses from, as arranged. */
  datatype Call<T> = Call(key: string, members: seq<T>)

  function CountersAfter<T>(counters: Counters, calls: seq<Call<T>>): Counters {
    if calls == [] then counters
    else
      var last := calls[|calls| - 1];
      Advance(CountersAfter(counters, calls[..|calls| - 1]), last.key, |last.members|)
  }

  /** Whom the calls on a key that chose from this list were given, in order. */
  function Served<T(==)>(counters: Counters, calls: seq<Call<T>>, key: string, members: seq<T>): seq<T> {
    if calls == [] then []
    else
      var last, before := calls[|calls| - 1], calls[..|calls| - 1];
      Served(counters, before, key, members)
        + if last == Call(key, members) && members != []
          then [members[Turn(CountersAfter(counters, before), key, |members|)]]
          else []
  }

  function CallsOn<T(==)>(calls: seq<Call<T>>, key: string, members: seq<T>): nat {
    if calls == [] then 0
    else CallsOn(calls[..|calls| - 1], key, members) + if calls[|calls| - 1] == Call(key, members) then 1 else 0
  }

  function Count<T(==)>(s: seq<T>, x: T): nat {
    if s == [] then 0 else Count(s[..|s| - 1], x) + if s[|s| - 1] == x then 1 else 0
  }

  /** A list that does not disturb another one on the same key: the same list, or one too
      short to be counted. */
  predicate Harmless<T(==)>(list: seq<T>, members: seq<T>) {
    list == members || |list| < 2
  }

  /** All calls on the key choose from this list or from a harmless one; calls on other keys
      are arbitrary. */
  ghost predicate Undisturbed<T>(calls: seq<Call<T>>, key: string, members: seq<T>) {
    forall i :: 0 <= i < |calls| && calls[i].key == key ==> Harmless(calls[i].members, members)
  }

  lemma {:induction false} ServedInTurn<T>(counters: Counters, calls: seq<Call<T>>, key: string, members: seq<T>)
    requires |members| >= 2 && Undisturbed(calls, key, members)
    ensures CounterOf(CountersAfter(counters, calls), key) == CounterOf(counters, key) + |Served(counters, calls, key, members)|
    ensures |Served(counters, calls, key, members)| == CallsOn(calls, key, members)
    ensures forall i :: 0 <= i < |Served(counters, calls, key, members)| ==>
      Served(counters, calls, key, members)[i] == members[(CounterOf(counters, key) + i) % |members|]
  {
    if calls != [] {
      ServedInTurn(counters, calls[..|calls| - 1], key, members);
    }
  }

  /** How far ahead of the counter c the next turn of position k lies. */
  function Distance(c: nat, k: nat, n: nat): (d: nat)
    requires k < n
    ensures d < n
  {
    (k - c) % n
  }

  lemma TurnOf(c: nat, m: nat, k: nat, n: nat)
    requires k < n
    ensures (c + m) % n == k <==> m % n == Distance(c, k, n)
  {
    var d: int := Distance(c, k, n);
    var q, p, a := (k - c) / n, m / n, (c + m) / n;
    assert k - c == q * n + d && m == p * n + m % n && c + m == a * n + (c + m) % n;
    if m % n == d {
      assert c + m == (p - q) * n + k;
      Remainder(c + m, p - q, k, n);
    } else if (c + m) % n == k {
      assert m == (a + q) * n + d;
      Remainder(m, a + q, d, n);
    }
  }

  lemma AtLeast(d: int, n: nat)
    ensures d >= 1 ==> d * n >= n
    ensures d <= -1 ==> d * n <= 0 - n
  {
    if d >= 1 {
      Product(d - 1, n);
    } else if d <= -1 {
      Product(0 - d - 1, n);
      assert (0 - d - 1) * n == 0 - d * n - n;
    }
  }

  lemma SmallMultiple(d: int, n: int)
    requires 0 - n < d * n < n
    ensures d == 0
  {
    AtLeast(d, n);
  }

  lemma Remainder(x: int, q: int, r: nat, n: nat)
    requires r < n && x == q * n + r
    ensures x % n == r && x / n == q
  {
    var p, y := x / n, x % n;
    assert x == p * n + y && 0 <= y < n;
    assert (p - q) * n == p * n - q * n;
    SmallMultiple(p - q, n);
  }

  /** The number of turns position d has had after m calls, counting from its first turn. */
  lemma OneMoreTurn(m: nat, d: nat, n: nat)
    requires d < n
    ensures (m + 1 + n - 1 - d) / n == (m + n - 1 - d) / n + if m % n == d then 1 else 0
  {
    var q, r := m / n, m % n;
    assert m == q * n + r;
    if r >= d {
      if r == d {
        assert (q + 1) * n == q * n + n;
        Remainder(m + n - d, q + 1, 0, n);
        Remainder(m + n - 1 - d, q, n - 1, n);
      } else {
        assert (q + 1) * n == q * n + n;
        Remainder(m + n - d, q + 1, r - d, n);
        Remainder(m + n - 1 - d, q + 1, r - d - 1, n);
      }
    } else {
      Remainder(m + n - d, q, r + n - d, n);
      Remainder(m + n - 1 - d, q, r + n - 1 - d, n);
    }
  }

  /** The exact share of a member in a list served in turn from the counter c. */
  lemma {:induction false} ExactShare<T>(s: seq<T>, members: seq<T>, c: nat, k: nat)
    requires k < |members| && forall i, j :: 0 <= i < j < |members| ==> members[i] != members[j]
    requires forall i :: 0 <= i < |s| ==> s[i] == members[(c + i) % |members|]
    ensures Count(s, members[k]) == (|s| + |members| - 1 - Distance(c, k, |members|)) / |members|
  {
    var n := |members|;
    if s == [] {
      Remainder(n - 1 - Distance(c, k, n), 0, n - 1 - Distance(c, k, n), n);
    } else {
      var m := |s| - 1;
      ExactShare(s[..m], members, c, k);
      TurnOf(c, m, k, n);
      OneMoreTurn(m, Distance(c, k, n), n);
    }
  }

  lemma ShareRange(m: nat, d: nat, n: nat)
    requires d < n
    ensures m / n <= (m + n - 1 - d) / n <= m / n + 1
    ensures m % n == 0 ==> (m + n - 1 - d) / n == m / n
  {
    var q, r := m / n, m % n;
    assert m == q * n + r;
    if r + n - 1 - d < n {
      Remainder(m + n - 1 - d, q, r + n - 1 - d, n);
    } else {
      assert (q + 1) * n == q * n + n;
      Remainder(m + n - 1 - d, q + 1, r - 1 - d, n);
    }
  }

  lemma MemberShare<T>(counters: Counters, calls: seq<Call<T>>, key: string, members: seq<T>, k: nat)
    requires |members| >= 2 && Distinct(members) && Undisturbed(calls, key, members) && k < |members|
    ensures var m, n := CallsOn(calls, key, members), |members|;
      && m / n <= Count(Served(counters, calls, key, members), members[k]) <= m / n + 1
      && (m % n == 0 ==> Count(Served(counters, calls, key, members), members[k]) == m / n)
  {
    hide Served, CountersAfter, Count, CallsOn, Distance, CounterOf;
    var c, served := CounterOf(counters, key), Served(counters, calls, key, members);
    ServedInTurn(counters, calls, key, members);
    ExactShare(served, members, c, k);
    ShareRange(|served|, Distance(c, k, |members|), |members|);
  }

  /** From any counters and between any other calls, the calls with an undisturbed list serve
      any two of its members equally often, up to one; and when their number is a multiple
      of the list's size, exactly equally often. */
  lemma Fairness<T>(counters: Counters, calls: seq<Call<T>>, key: string, members: seq<T>, a: nat, b: nat)
    requires |members| >= 2 && Distinct(members) && Undisturbed(calls, key, members)
    requires a < |members| && b < |members|
    ensures var served, m := Served(counters, calls, key, members), CallsOn(calls, key, members);
      && |served| == m
      && Count(served, members[a]) <= Count(served, members[b]) + 1
      && (m % |members| == 0 ==> Count(served, members[a]) == m / |members|)
  {
    hide Served, CountersAfter, Count, CallsOn;
    ServedInTurn(counters, calls, key, members);
    MemberShare(counters, calls, key, members, a);
    MemberShare(counters, calls, key, members, b);
  }

  // ---------------------------------------------------------------------------
  // Lists that share a key
  // ---------------------------------------------------------------------------

  lemma OneMoreCall<T>(counters: Counters, calls: seq<Call<T>>, call: Call<T>, members: seq<T>)
    requires |call.members| >= 2
    ensures CounterOf(CountersAfter(counters, calls + [call]), call.key)
            == CounterOf(CountersAfter(counters, calls), call.key) + 1
    ensures Served(counters, calls + [call], call.key, members) == Served(counters, calls, call.key, members)
      + if call.members == members
        then [members[CounterOf(CountersAfter(counters, calls), call.key) % |members|]] else []
  {
    assert (calls + [call])[..|calls|] == calls;
  }

  function Times<T>(call: Call<T>, n: nat): seq<Call<T>> {
    if n == 0 then [] else Times(call, n - 1) + [call]
  }

  lemma {:induction false} TimesServed<T>(counters: Counters, calls: seq<Call<T>>, call: Call<T>, n: nat, members: seq<T>)
    requires |call.members| >= 2 && call.members != members
    ensures CounterOf(CountersAfter(counters, calls + Times(call, n)), call.key)
            == CounterOf(CountersAfter(counters, calls), call.key) + n
    ensures Served(counters, calls + Times(call, n), call.key, members) == Served(counters, calls, call.key, members)
  {
    hide Served, CountersAfter;
    if n == 0 {
      assert calls + Times(call, n) == calls;
    } else {
      TimesServed(counters, calls, call, n - 1, members);
      OneMoreCall(counters, calls + Times(call, n - 1), call, members);
      assert calls + Times(call, n) == calls + Times(call, n - 1) + [call];
    }
  }

  /** One call with list a, and as many with list b as complete a turn of a; m times. */
  function TakingTurns<T>(key: string, a: seq<T>, b: seq<T>, m: nat): seq<Call<T>>
    requires a != []
  {
    if m == 0 then [] else TakingTurns(key, a, b, m - 1) + [Call(key, a)] + Times(Call(key, b), |a| - 1)
  }

  function Repeated<T>(x: T, m: nat): seq<T> {
    if m == 0 then [] else Repeated(x, m - 1) + [x]
  }

  lemma SameTurn(c: nat, m: nat, n: nat)
    requires n >= 1
    ensures c + m * n >= 0 && (c + m * n) % n == c % n
    ensures (m + 1) * n == m * n + n
  {
    Product(m, n);
    assert c == (c / n) * n + c % n;
    assert (c / n + m) * n == (c / n) * n + m * n;
    Remainder(c + m * n, c / n + m, c % n, n);
  }

  /** From any counters, a list that takes turns with another long list in this way always
      gives the turn to the same member, however long it goes on. */
  lemma {:induction false} SharedKeyStarves<T>(counters: Counters, key: string, a: seq<T>, b: seq<T>, m: nat)
    requires |a| >= 2 && |b| >= 2 && a != b
    ensures var c := CounterOf(counters, key);
      && CounterOf(CountersAfter(counters, TakingTurns(key, a, b, m)), key) == c + m * |a|
      && Served(counters, TakingTurns(key, a, b, m), key, a) == Repeated(a[c % |a|], m)
  {
    hide Times, CounterOf;
    if m > 0 {
      SharedKeyStarves(counters, key, a, b, m - 1);
      StarvingRound(counters, TakingTurns(key, a, b, m - 1), key, a, b, m - 1);
    }
  }

  lemma StarvingRound<T>(counters: Counters, calls: seq<Call<T>>, key: string, a: seq<T>, b: seq<T>, m: nat)
    requires |a| >= 2 && |b| >= 2 && a != b
    requires CounterOf(CountersAfter(counters, calls), key) == CounterOf(counters, key) + m * |a|
    ensures var c, more := CounterOf(counters, key), calls + [Call(key, a)] + Times(Call(key, b), |a| - 1);
      && CounterOf(CountersAfter(counters, more), key) == c + (m + 1) * |a|
      && Served(counters, more, key, a) == Served(counters, calls, key, a) + [a[c % |a|]]
  {
    hide Served, CountersAfter, Times, CounterOf;
    SameTurn(CounterOf(counters, key), m, |a|);
    OneMoreCall(counters, calls, Call(key, a), a);
    TimesServed(counters, calls + [Call(key, a)], Call(key, b), |a| - 1, a);
  }

  lemma {:induction false} RepeatedCount<T>(x: T, m: nat, y: T)
    ensures Count(Repeated(x, m), y) == if x == y then m else 0
  {
    if m > 0 {
      RepeatedCount(x, m - 1, y);
      assert (Repeated(x, m - 1) + [x])[..|Repeated(x, m - 1)|] == Repeated(x, m - 1);
    }
  }

  /** Calls that choose, on this key, from the list or from one of the others. */
  ghost predicate Uses<T>(calls: seq<Call<T>>, key: string, members: seq<T>, others: seq<seq<T>>) {
    forall i :: 0 <= i < |calls| && calls[i].key == key ==> calls[i].members == members || calls[i].members in others
  }

  /** Two members of the list are served equally often, up to one. */
  predicate Even<T(==)>(counters: Counters, calls: seq<Call<T>>, key: string, members: seq<T>, a: nat, b: nat)
    requires a < |members| && b < |members|
  {
    var served := Served(counters, calls, key, members);
    Count(served, members[a]) <= Count(served, members[b]) + 1
  }

  /** However calls with the list and with the others follow each other, the list is served
      evenly. */
  ghost predicate AlwaysFair<T(!new)>(key: string, members: seq<T>, others: seq<seq<T>>) {
    forall counters, calls, a: nat, b: nat :: Uses(calls, key, members, others) && a < |members| && b < |members| ==>
      Even(counters, calls, key, members, a, b)
  }

  lemma {:induction false} TimesUses<T>(call: Call<T>, n: nat, members: seq<T>, others: seq<seq<T>>)
    requires call.members == members || call.members in others
    ensures Uses(Times(call, n), call.key, members, others)
  {
    if n > 0 { TimesUses(call, n - 1, members, others); }
  }

  lemma {:induction false} TakingTurnsUses<T>(key: string, a: seq<T>, b: seq<T>, m: nat, others: seq<seq<T>>)
    requires a != [] && b in others
    ensures Uses(TakingTurns(key, a, b, m), key, a, others)
  {
    if m > 0 {
      TakingTurnsUses(key, a, b, m - 1, others);
      TimesUses(Call(key, b), |a| - 1, a, others);
    }
  }

  /** A long list among the others that differs makes some schedule unfair. */
  lemma StarvedMember<T(!new)>(key: string, members: seq<T>, others: seq<seq<T>>, b: seq<T>)
    requires |members| >= 2 && Distinct(members) && b in others && |b| >= 2 && b != members
    ensures !AlwaysFair(key, members, others)
  {
    hide Served, CountersAfter, TakingTurns, Count, Repeated, AlwaysFair, Uses;
    var calls := TakingTurns(key, members, b, 2);
    SharedKeyStarves(map[], key, members, b, 2);
    TakingTurnsUses(key, members, b, 2, others);
    SameTurn(0, 0, |members|);
    RepeatedCount(members[0], 2, members[0]);
    RepeatedCount(members[0], 2, members[1]);
    Unfair(map[], calls, key, members, others, 0, 1);
  }

  lemma Unfair<T(!new)>(counters: Counters, calls: seq<Call<T>>, key: string, members: seq<T>, others: seq<seq<T>>, a: nat, b: nat)
    requires Uses(calls, key, members, others) && a < |members| && b < |members|
    requires !Even(counters, calls, key, members, a, b)
    ensures !AlwaysFair(key, members, others)
  {
  }

  /** Main result: a list is served evenly in every schedule if and only if every other list
      on its key has fewer than two members. */
  lemma FairIff<T(!new)>(key: string, members: seq<T>, others: seq<seq<T>>)
    requires |members| >= 2 && Distinct(members)
    ensures AlwaysFair(key, members, others) <==> forall b :: b in others ==> Harmless(b, members)
  {
    if b :| b in others && !Harmless(b, members) {
      StarvedMember(key, members, others, b);
    } else {
      forall counters, calls: seq<Call<T>>, a: nat, b: nat
        | Uses(calls, key, members, others) && a < |members| && b < |members|
        ensures Even(counters, calls, key, members, a, b)
      {
        Fairness(counters, calls, key, members, a, b);
      }
    }
  }
}
