/** Queue naming and routing: which queue a job is published to, retried through and
    dead-lettered in, and which queues a worker consumes from. */
module QueueNames {
  import opened Common

  /** Strategies a queue and a worker know about. */
  datatype Routing = Http | Playwright

  /** Strategies a job can ask for. */
  datatype Strategy = Fixed(routing: Routing) | Auto | Cloudscraper

  datatype Role = Main | Retry | DeadLetter

  function ResolveRouting(s: Strategy): Routing {
    match s
    case Fixed(r) => r
    case Auto => Http
    case Cloudscraper => Http
  }

  function RoutingText(r: Routing): string {
    match r
    case Http => "http"
    case Playwright => "playwright"
  }

  /** The characters a queue segment keeps. */
  predicate SafeChar(c: char) {
    'a' <= c <= 'z' || 'A' <= c <= 'Z' || IsDigit(c) || c == '.' || c == '_' || c == '-'
  }

  function SanitizeSegment(value: string): (r: string)
    ensures |r| == |value|
    ensures forall i :: 0 <= i < |r| ==> r[i] == if SafeChar(value[i]) then value[i] else '-'
  {
    seq(|value|, i requires 0 <= i < |value| => if SafeChar(value[i]) then value[i] else '-')
  }

  function StrategyQueue(base: string, r: Routing): string {
    base + "." + RoutingText(r)
  }

  function TargetedQueue(base: string, r: Routing, workerId: string): string {
    StrategyQueue(base, r) + ".worker." + SanitizeSegment(workerId)
  }

  function RoleSuffix(role: Role): string {
    match role
    case Main => ""
    case Retry => ".retry"
    case DeadLetter => ".dlq"
  }

  /** A missing or empty target means the shared queues. */
  predicate Targets(target: Option<string>) {
    target.Some? && target.value != ""
  }

  function QueueName(base: string, r: Routing, target: Option<string>, role: Role): string {
    (if Targets(target) then TargetedQueue(base, r, target.value) else StrategyQueue(base, r)) + RoleSuffix(role)
  }

  /** Worker ids are a host name, a dash and a process id; the host name can be anything. */
  ghost predicate WorkerId(id: string) {
    exists k :: 0 <= k < |id| - 1 && id[k] == '-' && forall i :: k < i < |id| ==> IsDigit(id[i])
  }

  ghost predicate ValidTarget(target: Option<string>) {
    target.Some? ==> WorkerId(target.value)
  }

  /** Targets with the same queues: both none, or ids that sanitize alike. */
  predicate SameTarget(t1: Option<string>, t2: Option<string>) {
    if Targets(t1) && Targets(t2) then SanitizeSegment(t1.value) == SanitizeSegment(t2.value)
    else !Targets(t1) && !Targets(t2)
  }

  lemma Assoc(a: string, b: string, c: string)
    ensures (a + b) + c == a + (b + c)
  {
  }

  lemma CancelPrefix(a: string, x: string, y: string)
    requires a + x == a + y
    ensures x == y
  {
    assert x == (a + x)[|a|..];
    assert y == (a + y)[|a|..];
  }

  lemma CancelSuffix(x: string, y: string, a: string)
    requires x + a == y + a
    ensures x == y
  {
    assert x == (x + a)[..|x|];
    assert y == (y + a)[..|y|];
  }

  /** What follows ".http" or ".playwright" in a name. */
  function Tail(target: Option<string>, role: Role): string {
    (if Targets(target) then ".worker." + SanitizeSegment(target.value) else "") + RoleSuffix(role)
  }

  lemma NameParts(base: string, r: Routing, target: Option<string>, role: Role)
    ensures QueueName(base, r, target, role) == base + ("." + RoutingText(r) + Tail(target, role))
  {
    var head, end := "." + RoutingText(r), RoleSuffix(role);
    Assoc(base, ".", RoutingText(r));
    if Targets(target) {
      var segment := SanitizeSegment(target.value);
      Assoc(base + head, ".worker.", segment);
      Assoc(base + head, ".worker." + segment, end);
    }
    Assoc(base, head, Tail(target, role));
  }

  /** What distinguishes the names of one base and routing strategy. */
  predicate SameTail(t1: Option<string>, role1: Role, t2: Option<string>, role2: Role) {
    if Targets(t1) && Targets(t2)
    then SanitizeSegment(t1.value) + RoleSuffix(role1) == SanitizeSegment(t2.value) + RoleSuffix(role2)
    else !Targets(t1) && !Targets(t2) && role1 == role2
  }

  lemma TargetedTail(target: Option<string>, role: Role)
    requires Targets(target)
    ensures Tail(target, role) == ".worker." + (SanitizeSegment(target.value) + RoleSuffix(role))
    ensures Tail(target, role)[1] == 'w'
  {
    Assoc(".worker.", SanitizeSegment(target.value), RoleSuffix(role));
  }

  lemma SharedTail(target: Option<string>, role: Role)
    requires !Targets(target)
    ensures Tail(target, role) == RoleSuffix(role)
    ensures role == Main ==> |Tail(target, role)| == 0
    ensures role != Main ==> Tail(target, role)[1] == if role == Retry then 'r' else 'd'
  {
  }

  lemma TailsEqual(t1: Option<string>, role1: Role, t2: Option<string>, role2: Role)
    ensures Tail(t1, role1) == Tail(t2, role2) <==> SameTail(t1, role1, t2, role2)
  {
    if Targets(t1) { TargetedTail(t1, role1); } else { SharedTail(t1, role1); }
    if Targets(t2) { TargetedTail(t2, role2); } else { SharedTail(t2, role2); }
    if Targets(t1) && Targets(t2) && Tail(t1, role1) == Tail(t2, role2) {
      CancelPrefix(".worker.", SanitizeSegment(t1.value) + RoleSuffix(role1), SanitizeSegment(t2.value) + RoleSuffix(role2));
    }
  }

  /** Exactly when two names coincide, for any base and any targets whatever: the routing
      strategies agree, and either both are shared and the roles agree, or both are targeted
      and the sanitized ids followed by the role suffixes are the same text. */
  lemma NamesCoincide(base: string, r1: Routing, t1: Option<string>, role1: Role,
                      r2: Routing, t2: Option<string>, role2: Role)
    ensures QueueName(base, r1, t1, role1) == QueueName(base, r2, t2, role2)
      <==> r1 == r2 && SameTail(t1, role1, t2, role2)
  {
    NameParts(base, r1, t1, role1);
    NameParts(base, r2, t2, role2);
    TailsEqual(t1, role1, t2, role2);
    var x1, x2 := "." + RoutingText(r1) + Tail(t1, role1), "." + RoutingText(r2) + Tail(t2, role2);
    if base + x1 == base + x2 {
      CancelPrefix(base, x1, x2);
      assert x1[1] == if r1 == Http then 'h' else 'p';
      assert x2[1] == if r2 == Http then 'h' else 'p';
      CancelPrefix("." + RoutingText(r1), Tail(t1, role1), Tail(t2, role2));
    }
  }

  /** A worker id ends in a digit, which sanitizing keeps and no role suffix ends in. */
  lemma SplitIdAndRole(id1: string, role1: Role, id2: string, role2: Role)
    requires WorkerId(id1) && WorkerId(id2)
    ensures SanitizeSegment(id1) + RoleSuffix(role1) == SanitizeSegment(id2) + RoleSuffix(role2)
      <==> SanitizeSegment(id1) == SanitizeSegment(id2) && role1 == role2
  {
    var x1, x2 := SanitizeSegment(id1), SanitizeSegment(id2);
    var s1, s2 := x1 + RoleSuffix(role1), x2 + RoleSuffix(role2);
    assert IsDigit(x1[|x1| - 1]) && IsDigit(x2[|x2| - 1]);
    assert s1[|s1| - 1] == if role1 == Main then x1[|x1| - 1] else if role1 == Retry then 'y' else 'q';
    assert s2[|s2| - 1] == if role2 == Main then x2[|x2| - 1] else if role2 == Retry then 'y' else 'q';
    if s1 == s2 {
      assert role1 == role2;
      CancelSuffix(x1, x2, RoleSuffix(role1));
    }
  }

  /** For the ids that workers have, with any host name: the (strategy, target, role) triples
      have different queues, except for targets that sanitize alike. */
  lemma NamesDistinct(base: string, r1: Routing, t1: Option<string>, role1: Role,
                      r2: Routing, t2: Option<string>, role2: Role)
    requires ValidTarget(t1) && ValidTarget(t2)
    ensures QueueName(base, r1, t1, role1) == QueueName(base, r2, t2, role2)
      <==> r1 == r2 && role1 == role2 && SameTarget(t1, t2)
  {
    NamesCoincide(base, r1, t1, role1, r2, t2, role2);
    if Targets(t1) && Targets(t2) {
      SplitIdAndRole(t1.value, role1, t2.value, role2);
    }
  }

  /** Without the digit at the end a worker's main queue can be another worker's retry or
      dead-letter queue: for any id, the id with the role's suffix appended is such a name. */
  lemma SuffixedIdCollides(base: string, r: Routing, id: string, role: Role)
    requires id != ""
    ensures QueueName(base, r, Some(id + RoleSuffix(role)), Main) == QueueName(base, r, Some(id), role)
  {
    var all := id + RoleSuffix(role);
    assert SanitizeSegment(all) == SanitizeSegment(id) + RoleSuffix(role);
    assert SanitizeSegment(all) + RoleSuffix(Main) == SanitizeSegment(all);
    NamesCoincide(base, r, Some(all), Main, r, Some(id), role);
  }

  // ---------------------------------------------------------------------------
  // Subscriptions
  // ---------------------------------------------------------------------------

  function Subscribed(base: string, id: string, allowed: seq<Routing>): seq<string> {
    if allowed == [] then []
    else
      var r := allowed[|allowed| - 1];
      Subscribed(base, id, allowed[..|allowed| - 1]) + [QueueName(base, r, None, Main), QueueName(base, r, Some(id), Main)]
  }

  /** The subscription loop of a starting worker. */
  method SubscribeAll(base: string, id: string, allowed: seq<Routing>) returns (queues: seq<string>)
    ensures queues == Subscribed(base, id, allowed)
  {
    queues := [];
    for n := 0 to |allowed|
      invariant queues == Subscribed(base, id, allowed[..n])
    {
      queues := queues + [QueueName(base, allowed[n], None, Main), QueueName(base, allowed[n], Some(id), Main)];
      assert allowed[..n + 1][..n] == allowed[..n];
    }
    assert allowed[..|allowed|] == allowed;
  }

  lemma {:induction false} InSubscribed(base: string, id: string, allowed: seq<Routing>, q: string)
    ensures q in Subscribed(base, id, allowed) <==>
      exists r :: r in allowed && (q == QueueName(base, r, None, Main) || q == QueueName(base, r, Some(id), Main))
  {
    hide QueueName;
    if allowed != [] {
      InSubscribed(base, id, allowed[..|allowed| - 1], q);
      assert allowed == allowed[..|allowed| - 1] + [allowed[|allowed| - 1]];
    }
  }

  /** A worker consumes exactly the main queues of its strategies that are shared or named
      like its own; never a retry queue, a dead-letter queue or the queue of a worker whose
      id sanitizes differently. */
  lemma SubscriptionExact(base: string, id: string, allowed: seq<Routing>, r: Routing, target: Option<string>, role: Role)
    requires WorkerId(id) && ValidTarget(target)
    ensures QueueName(base, r, target, role) in Subscribed(base, id, allowed) <==>
      role == Main && r in allowed && (target == None || SameTarget(target, Some(id)))
  {
    var q := QueueName(base, r, target, role);
    InSubscribed(base, id, allowed, q);
    forall x ensures q == QueueName(base, x, None, Main) <==> r == x && role == Main && SameTarget(target, None) {
      NamesDistinct(base, r, target, role, x, None, Main);
    }
    forall x ensures q == QueueName(base, x, Some(id), Main) <==> r == x && role == Main && SameTarget(target, Some(id)) {
      NamesDistinct(base, r, target, role, x, Some(id), Main);
    }
  }

  /** A worker's own segment of a queue name: its id with all characters replaced but ASCII
      letters and digits, the hyphen, the full stop and the low line. */
  predicate Segment(id: string, segment: string) {
    |segment| == |id| && forall i :: 0 <= i < |id| ==> segment[i] == if SafeCode(id[i] as int) then id[i] else '-'
  }

  predicate SafeCode(code: int) {
    97 <= code <= 122 || 65 <= code <= 90 || 48 <= code <= 57 || code in {45, 46, 95}
  }

  /** How the names are spelled; everybody who talks to the broker must agree on it. */
  lemma QueueTexts(base: string, r: Routing, t: Option<string>) returns (segment: string)
    ensures QueueName(base, Http, None, Main) == base + ".http"
    ensures QueueName(base, Playwright, None, Main) == base + ".playwright"
    ensures t == Some("") ==> QueueName(base, r, t, Main) == QueueName(base, r, None, Main)
    ensures t.Some? && t.value != "" ==>
      Segment(t.value, segment) && QueueName(base, r, t, Main) == QueueName(base, r, None, Main) + ".worker." + segment
    ensures QueueName(base, r, t, Retry) == QueueName(base, r, t, Main) + ".retry"
    ensures QueueName(base, r, t, DeadLetter) == QueueName(base, r, t, Main) + ".dlq"
  {
    hide SanitizeSegment;
    segment := if t.Some? then SanitizeSegment(t.value) else "";
    SharedTexts(base);
    RoleTexts(base, r, t);
    RoleTexts(base, r, None);
    if Targets(t) { TargetText(base, r, t.value); }
  }

  lemma RoleTexts(base: string, r: Routing, t: Option<string>)
    ensures var name := if Targets(t) then TargetedQueue(base, r, t.value) else StrategyQueue(base, r);
      && QueueName(base, r, t, Main) == name
      && QueueName(base, r, t, Retry) == name + ".retry" && QueueName(base, r, t, DeadLetter) == name + ".dlq"
  {
    hide TargetedQueue, StrategyQueue;
    var name := if Targets(t) then TargetedQueue(base, r, t.value) else StrategyQueue(base, r);
    assert name + "" == name;
  }

  lemma SharedTexts(base: string)
    ensures QueueName(base, Http, None, Main) == base + ".http"
    ensures QueueName(base, Playwright, None, Main) == base + ".playwright"
  {
    RoleTexts(base, Http, None);
    RoleTexts(base, Playwright, None);
    assert StrategyQueue(base, Http) == base + ".http";
    assert StrategyQueue(base, Playwright) == base + ".playwright";
  }

  lemma TargetText(base: string, r: Routing, id: string)
    ensures Segment(id, SanitizeSegment(id))
    ensures TargetedQueue(base, r, id) == StrategyQueue(base, r) + ".worker." + SanitizeSegment(id)
  {
  }

  // ---------------------------------------------------------------------------
  // Strategy checks made by the API and by the worker
  // ---------------------------------------------------------------------------

  /** A cloudscraper request counts as an http request, and auto is always allowed. */
  predicate StrategyAllowed(s: Strategy, allowed: seq<Routing>) {
    s == Auto || (if s == Cloudscraper then Http else s.routing) in allowed
  }

  /** A heartbeat without strategies counts as all strategies. */
  function AdvertisedStrategies(heartbeat: seq<Routing>): seq<Routing> {
    if heartbeat == [] then [Http, Playwright] else heartbeat
  }

  predicate SupportsStrategy(heartbeat: seq<Routing>, s: Strategy) {
    StrategyAllowed(s, AdvertisedStrategies(heartbeat))
  }

  /** What a worker is taken to support: everything if its heartbeat says nothing. */
  lemma SupportsIff(heartbeat: seq<Routing>, s: Strategy)
    ensures SupportsStrategy(heartbeat, s) <==>
      heartbeat == [] || s == Auto || (s.Fixed? && s.routing in heartbeat) || (s == Cloudscraper && Http in heartbeat)
  {
    if heartbeat == [] && s.Fixed? {
      match s.routing case Http => case Playwright =>
    }
  }

  /** A worker the API accepted as a target consumes the queue the job is published to,
      exactly when it allows http or the job is not auto. */
  lemma AcceptedTargetListens(base: string, id: string, allowed: seq<Routing>, s: Strategy)
    requires WorkerId(id) && allowed != [] && SupportsStrategy(allowed, s)
    ensures QueueName(base, ResolveRouting(s), Some(id), Main) in Subscribed(base, id, allowed) <==>
      (s == Auto ==> Http in allowed)
  {
    SubscriptionExact(base, id, allowed, ResolveRouting(s), Some(id), Main);
  }
}
