/** The strategy plan of a scrape and the retry loop that executes it: one or two strategy
    executions a round, exponential back-off between rounds. */
module ScrapeLoop {
  import opened Common
  import opened QueueNames

  datatype Plan = NoPlan | Plan(primary: Routing, fallback: Option<Routing>)

  function ResolveAutoPrimary(default: Strategy, allowed: seq<Routing>): Routing {
    if default != Auto && StrategyAllowed(default, allowed) then ResolveRouting(default)
    else if Http in allowed then Http
    else Playwright
  }

  /** Which strategy an automatic request tries first: the default if it is one and allowed,
      else http if it is allowed. */
  predicate FirstChoice(primary: Routing, default: Strategy, allowed: seq<Routing>) {
    if default == Fixed(Playwright) && Playwright in allowed then primary == Playwright
    else if Http in allowed then primary == Http
    else primary == Playwright
  }

  function ResolvePlan(requested: Strategy, default: Strategy, allowed: seq<Routing>): (p: Plan)
    ensures p.NoPlan? <==>
      allowed == [] || (requested.Fixed? && requested.routing !in allowed) || (requested == Cloudscraper && Http !in allowed)
    ensures p.Plan? ==> p.primary in allowed && (p.fallback.Some? ==> p.fallback.value in allowed)
    ensures p.Plan? && requested.Fixed? ==> p == Plan(requested.routing, None)
    ensures p.Plan? && requested == Cloudscraper ==> p == Plan(Http, None)
    ensures p.Plan? && requested == Auto ==> FirstChoice(p.primary, default, allowed)
    ensures p.Plan? && requested == Auto ==>
      p.fallback == if p.primary == Http && Playwright in allowed then Some(Playwright) else None
  {
    if allowed == [] || !StrategyAllowed(requested, allowed) then NoPlan
    else if requested != Auto then Plan(ResolveRouting(requested), None)
    else
      var primary := ResolveAutoPrimary(default, allowed);
      assert primary in allowed by { SomeStrategy(allowed); }
      Plan(primary, if primary == Http && Playwright in allowed then Some(Playwright) else None)
  }

  lemma SomeStrategy(allowed: seq<Routing>)
    requires allowed != []
    ensures Http in allowed || Playwright in allowed
  {
    match allowed[0] {
      case Http => assert Http in allowed;
      case Playwright => assert Playwright in allowed;
    }
  }

  /** What the strategies would answer in one round. */
  datatype Round = Round(primaryOk: bool, fallbackOk: bool)

  datatype Failure = StrategyRestriction | LastRoundFailed | MaxRetriesExceeded

  datatype Verdict = Completed | Failed(reason: Failure)

  datatype Outcome = Outcome(verdict: Verdict, retries: int, executed: seq<Routing>, waited: nat)

  function RoundAt(rounds: seq<Round>, k: nat): Round {
    if k < |rounds| then rounds[k] else Round(false, false)
  }

  predicate RoundSucceeds(plan: Plan, round: Round)
    requires plan.Plan?
  {
    round.primaryOk || (plan.fallback.Some? && round.fallbackOk)
  }

  function RoundExecutes(plan: Plan, round: Round): seq<Routing>
    requires plan.Plan?
  {
    if round.primaryOk || plan.fallback.None? then [plan.primary] else [plan.primary, plan.fallback.value]
  }

  function Pow2(n: nat): nat {
    if n == 0 then 1 else 2 * Pow2(n - 1)
  }

  predicate AllFail(plan: Plan, rounds: seq<Round>, from: nat, to: nat)
    requires plan.Plan?
  {
    forall k :: from <= k < to ==> !RoundSucceeds(plan, RoundAt(rounds, k))
  }

  /** Everything the first n rounds execute. */
  function Executions(plan: Plan, rounds: seq<Round>, n: nat): (r: seq<Routing>)
    requires plan.Plan?
  {
    if n == 0 then [] else Executions(plan, rounds, n - 1) + RoundExecutes(plan, RoundAt(rounds, n - 1))
  }

  /** The retry loop. maxRetries is whatever the job options hold, even a negative number. */
  method Execute(requested: Strategy, default: Strategy, allowed: seq<Routing>, maxRetries: int, retryDelayMs: nat,
                 rounds: seq<Round>)
    returns (r: Outcome)
    ensures Meets(ResolvePlan(requested, default, allowed), maxRetries, retryDelayMs, rounds, r)
  {
    var plan := ResolvePlan(requested, default, allowed);
    if plan.NoPlan? {
      return Outcome(Failed(StrategyRestriction), 0, [], 0);
    }
    var attempt := 0;
    var executed := [];
    var waited: nat := 0;
    while attempt <= maxRetries
      invariant attempt == 0 || attempt <= maxRetries
      invariant AllFail(plan, rounds, 0, attempt)
      invariant executed == Executions(plan, rounds, attempt)
      invariant 0 <= waited == retryDelayMs * (Pow2(attempt) - 1)
    {
      var round := RoundAt(rounds, attempt);
      ghost var before := executed;
      executed := executed + [plan.primary];
      if round.primaryOk {
        return Outcome(Completed, attempt, executed, waited);
      }
      if plan.fallback.Some? {
        executed := executed + [plan.fallback.value];
        if round.fallbackOk {
          assert executed == before + RoundExecutes(plan, round);
          return Outcome(Completed, attempt, executed, waited);
        }
      }
      assert executed == before + RoundExecutes(plan, round);
      if attempt == maxRetries {
        return Outcome(Failed(LastRoundFailed), attempt, executed, waited);
      }
      BackOffSum(retryDelayMs, attempt);
      waited := waited + retryDelayMs * Pow2(attempt);
      attempt := attempt + 1;
    }
    return Outcome(Failed(MaxRetriesExceeded), maxRetries, executed, waited);
  }

  lemma BackOffSum(delay: nat, k: nat)
    ensures delay * (Pow2(k) - 1) + delay * Pow2(k) == delay * (Pow2(k + 1) - 1)
  {
    assert Pow2(k + 1) == 2 * Pow2(k);
    assert delay * (2 * Pow2(k) - 1) == delay * (Pow2(k) - 1) + delay * Pow2(k);
  }

  /** What the loop promises: a success at round k comes after exactly k failed rounds and
      a wait of delay * (2^k - 1); a failed plan ran all rounds 0..maxRetries and waited
      delay * (2^maxRetries - 1); falling through the loop needs a negative maxRetries. */
  ghost predicate Meets(plan: Plan, maxRetries: int, delay: nat, rounds: seq<Round>, r: Outcome) {
    if plan.NoPlan? then r == Outcome(Failed(StrategyRestriction), 0, [], 0)
    else if maxRetries < 0 then r == Outcome(Failed(MaxRetriesExceeded), maxRetries, [], 0)
    else
      && 0 <= r.retries <= maxRetries
      && AllFail(plan, rounds, 0, r.retries)
      && r.executed == Executions(plan, rounds, r.retries + 1)
      && r.waited == delay * (Pow2(r.retries) - 1)
      && (r.verdict == Completed || (r.verdict == Failed(LastRoundFailed) && r.retries == maxRetries))
      && (r.verdict == Completed <==> RoundSucceeds(plan, RoundAt(rounds, r.retries)))
  }

  /** Those promises determine the outcome. */
  lemma MeetsUnique(plan: Plan, maxRetries: int, delay: nat, rounds: seq<Round>, r: Outcome, q: Outcome)
    requires Meets(plan, maxRetries, delay, rounds, r) && Meets(plan, maxRetries, delay, rounds, q)
    ensures r == q
  {
  }

  /** The first round in 0..maxRetries that succeeds, or maxRetries. */
  function LastRound(plan: Plan, rounds: seq<Round>, from: nat, maxRetries: nat): (k: nat)
    requires plan.Plan? && from <= maxRetries
    ensures from <= k <= maxRetries && AllFail(plan, rounds, from, k)
    ensures k < maxRetries ==> RoundSucceeds(plan, RoundAt(rounds, k))
    decreases maxRetries - from
  {
    if from == maxRetries || RoundSucceeds(plan, RoundAt(rounds, from)) then from
    else LastRound(plan, rounds, from + 1, maxRetries)
  }

  /** The outcome as a function, for the delivery protocol. */
  function Scrape(plan: Plan, maxRetries: nat, delay: nat, rounds: seq<Round>): (r: Outcome)
    ensures Meets(plan, maxRetries, delay, rounds, r)
  {
    if plan.NoPlan? then Outcome(Failed(StrategyRestriction), 0, [], 0)
    else
      var k := LastRound(plan, rounds, 0, maxRetries);
      assert Pow2(k) >= 1 by { Pow2Positive(k); }
      Outcome(if RoundSucceeds(plan, RoundAt(rounds, k)) then Completed else Failed(LastRoundFailed), k,
              Executions(plan, rounds, k + 1), delay * (Pow2(k) - 1))
  }

  lemma Pow2Positive(n: nat)
    ensures Pow2(n) >= 1
  {
  }

  /** A scrape completes exactly when one of its rounds would succeed. */
  lemma CompletesIff(plan: Plan, maxRetries: nat, delay: nat, rounds: seq<Round>)
    requires plan.Plan?
    ensures Scrape(plan, maxRetries, delay, rounds).verdict == Completed <==>
      exists k :: 0 <= k <= maxRetries && RoundSucceeds(plan, RoundAt(rounds, k))
  {
    var r := Scrape(plan, maxRetries, delay, rounds);
    assert Meets(plan, maxRetries, delay, rounds, r);
  }

  /** Whether a worker scrapes a request at all, and whether it tries both strategies. */
  predicate Scrapes(requested: Strategy, allowed: seq<Routing>) {
    match requested
    case Fixed(r) => r in allowed
    case Cloudscraper => Http in allowed
    case Auto => allowed != []
  }

  predicate TriesBoth(requested: Strategy, default: Strategy, allowed: seq<Routing>) {
    requested == Auto && default != Fixed(Playwright) && Http in allowed && Playwright in allowed
  }

  predicate Succeeds(requested: Strategy, default: Strategy, allowed: seq<Routing>, round: Round) {
    round.primaryOk || (TriesBoth(requested, default, allowed) && round.fallbackOk)
  }

  /** Main result: a request completes exactly when its worker scrapes it and in some round
      the first strategy succeeds, or the second one where both are tried. */
  lemma CompletesExactly(requested: Strategy, default: Strategy, allowed: seq<Routing>, maxRetries: nat, delay: nat,
                         rounds: seq<Round>)
    ensures Scrape(ResolvePlan(requested, default, allowed), maxRetries, delay, rounds).verdict == Completed <==>
      && Scrapes(requested, allowed)
      && exists k :: 0 <= k < |rounds| && k <= maxRetries && Succeeds(requested, default, allowed, rounds[k])
  {
    var plan := ResolvePlan(requested, default, allowed);
    if plan.Plan? {
      CompletesIff(plan, maxRetries, delay, rounds);
      assert forall k :: 0 <= k < |rounds| ==>
        (RoundSucceeds(plan, RoundAt(rounds, k)) <==> Succeeds(requested, default, allowed, rounds[k]));
    }
  }

  /** And a failed request has executed, in each round, the first strategy and then the
      second one where both are tried. */
  lemma {:induction false} FailedRounds(plan: Plan, rounds: seq<Round>, n: nat)
    requires plan.Plan? && AllFail(plan, rounds, 0, n)
    ensures Executions(plan, rounds, n) == Repeat(if plan.fallback.Some? then [plan.primary, plan.fallback.value] else [plan.primary], n)
  {
    if n > 0 {
      FailedRounds(plan, rounds, n - 1);
      assert !RoundSucceeds(plan, RoundAt(rounds, n - 1));
    }
  }

  function Repeat(s: seq<Routing>, n: nat): seq<Routing> {
    if n == 0 then [] else Repeat(s, n - 1) + s
  }

  lemma {:induction false} ExecutionsBounded(plan: Plan, rounds: seq<Round>, n: nat)
    requires plan.Plan?
    ensures n <= |Executions(plan, rounds, n)| <= 2 * n
    ensures forall x :: x in Executions(plan, rounds, n) ==> x == plan.primary || plan.fallback == Some(x)
  {
    if n > 0 {
      ExecutionsBounded(plan, rounds, n - 1);
    }
  }

  /** Only allowed strategies are executed, at most two a round. */
  lemma OnlyAllowed(requested: Strategy, default: Strategy, allowed: seq<Routing>, maxRetries: nat, delay: nat, rounds: seq<Round>)
    ensures var r := Scrape(ResolvePlan(requested, default, allowed), maxRetries, delay, rounds);
      && |r.executed| <= 2 * (maxRetries + 1)
      && forall x :: x in r.executed ==> x in allowed
  {
    var plan := ResolvePlan(requested, default, allowed);
    if plan.Plan? {
      ExecutionsBounded(plan, rounds, Scrape(plan, maxRetries, delay, rounds).retries + 1);
    }
  }
}
