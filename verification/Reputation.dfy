// Agent reputation: outcome recording, the composite score, the lifecycle it drives, and the
// policy engine that reads status and permissions. Scores are exact reals rounded to cents.
module Reputation {
  import opened Ledger

  datatype Status = Active | Probation | Restricted | Suspended | Retired

  datatype Action =
    | InternalAnalysis | DataFetch | ExternalApiCall | SimulatedAllocation | Replan | BlockchainTransaction
    | OrbioKeyLifecycle | ExternalInference | OrbioCreditPurchase | OrbioCreditActivation | ExecuteWorkOrder
    | CollectRevenue | ProposeCapabilityExpansion | PublishMarketplaceOrder | ClaimMarketplaceOrder
    | ReleaseMarketplaceEscrow

  // The prefix of a history entry; `Unmarked` has none of the three prefixes.
  datatype Mark = Succeeded | Failed | Violated | Unmarked

  datatype Agent = Agent(reputation: real, ceiling: int, allowed: seq<Action>, status: Status, successes: int,
                         failures: int, violations: int, performance: real, risk: real, efficiency: real,
                         reliability: real, history: seq<Mark>)

  // The part of a performance record that feeds back into scores and authority.
  datatype Perf = Perf(completed: int, failed: int, violations: int, consumed: int, produced: real,
                       execSuccesses: int, execFailures: int, level: int, evaluations: int)

  function Max(a: int, b: int): int { if a < b then b else a }

  function Min(a: int, b: int): int { if a < b then a else b }

  function MaxR(a: real, b: real): real { if a < b then b else a }

  function MinR(a: real, b: real): real { if a < b then a else b }

  function Clamp(x: real): real { MaxR(0.0, MinR(100.0, x)) }

  // ---------- rounding to two decimals, ties to even ----------

  function RoundInt(y: real): int {
    var f := y.Floor;
    var d := y - f as real;
    if d < 0.5 || (d == 0.5 && f % 2 == 0) then f else f + 1
  }

  function Round2(x: real): real { RoundInt(x * 100.0) as real / 100.0 }

  ghost predicate Cents(x: real) { Round2(x) == x }

  lemma RoundIntMonotone(y: real, z: real)
    requires y <= z
    ensures RoundInt(y) <= RoundInt(z)
  {
    if y.Floor < z.Floor { assert RoundInt(y) <= y.Floor + 1; }
  }

  lemma Round2Monotone(x: real, y: real)
    requires x <= y
    ensures Round2(x) <= Round2(y)
  {
    RoundIntMonotone(x * 100.0, y * 100.0);
  }

  lemma Round2IsCents(x: real)
    ensures Cents(Round2(x))
  {
    CentsOf(Round2(x), RoundInt(x * 100.0));
  }

  lemma CentsOf(x: real, k: int)
    requires x * 100.0 == k as real
    ensures Cents(x)
  {
    assert RoundInt(k as real) == k;
  }

  lemma Round2Within(x: real, lo: int, hi: int)
    requires lo as real <= x <= hi as real
    ensures lo as real <= Round2(x) <= hi as real
  {
    CentsOf(lo as real, 100 * lo);
    CentsOf(hi as real, 100 * hi);
    Round2Monotone(lo as real, x);
    Round2Monotone(x, hi as real);
  }

  // ---------- scores ----------

  function Rate(part: int, whole: int): real
    requires whole != 0
  {
    part as real / whole as real
  }

  function Compliance(violations: int): real { MaxR(0.0, 100.0 - 10.0 * violations as real) }

  function TaskReliability(rate: real, compliance: real): real { rate * (compliance / 100.0) * 100.0 }

  function Reliability(rate: real, compliance: real, p: Option<Perf>): real {
    var base := TaskReliability(rate, compliance);
    var tot := if p.Some? then p.value.execSuccesses + p.value.execFailures else 0;
    Round2(Clamp(if tot > 0 then base * 0.6 + Rate(p.value.execSuccesses, tot) * 40.0 else base))
  }

  function EfficiencyRatio(efficiency: real, p: Option<Perf>): real {
    if p.Some? && p.value.consumed > 0 then p.value.produced / p.value.consumed as real else efficiency
  }

  function Composite(rate: real, reliability: real, ratio: real, compliance: real): real {
    Round2(Clamp(0.35 * (rate * 100.0) + 0.25 * reliability + 0.20 * Clamp(ratio * 100.0) + 0.20 * compliance))
  }

  function UpdateMetrics(a: Agent, p: Option<Perf>): Agent {
    var total := a.successes + a.failures;
    if total == 0 then a.(reliability := 100.0, performance := 100.0)
    else
      var rate := Rate(a.successes, total);
      var compliance := Compliance(a.violations);
      var reliability := Reliability(rate, compliance, p);
      a.(reliability := reliability,
         performance := Composite(rate, reliability, EfficiencyRatio(a.efficiency, p), compliance),
         reputation := Round2(Clamp(a.reputation)),
         risk := Round2(Clamp(a.risk)))
  }

  // ---------- lifecycle ----------

  predicate Bad(m: Mark) { m == Failed || m == Violated }

  // Bad outcomes after the last success.
  function FailStreak(h: seq<Mark>): nat {
    if h == [] then 0
    else
      var last := h[|h| - 1];
      if last == Succeeded then 0 else (if Bad(last) then 1 else 0) + FailStreak(h[..|h| - 1])
  }

  predicate External(x: Action) { x == ExternalApiCall || x == SimulatedAllocation || x == BlockchainTransaction }

  function WithoutExternal(s: seq<Action>): seq<Action> {
    if s == [] then []
    else if External(s[0]) then WithoutExternal(s[1..])
    else [s[0]] + WithoutExternal(s[1..])
  }

  function Classify(score: real, composite: real, streak: nat): Status {
    if score < 15.0 || composite < 15.0 || streak >= 15 then Retired
    else if score < 30.0 || composite < 30.0 || streak >= 10 then Suspended
    else if score < 50.0 || composite < 50.0 || streak >= 6 then Restricted
    else if score < 75.0 || composite < 70.0 || streak >= 3 then Probation
    else Active
  }

  function Placed(a: Agent): Agent {
    match Classify(a.reputation, a.performance, FailStreak(a.history))
    case Retired => a.(status := Retired, ceiling := 0, allowed := [])
    case Suspended => a.(status := Suspended, ceiling := 0, allowed := [])
    case Restricted => a.(status := Restricted, ceiling := 0, allowed := WithoutExternal(a.allowed))
    case Probation => a.(status := Probation, ceiling := Min(a.ceiling, 12))
    case Active => a.(status := Active, ceiling := Max(a.ceiling, 25))
  }

  datatype Ruling = Ruling(agent: Agent, perf: Option<Perf>)

  function Lifecycle(a: Agent, p: Option<Perf>): Ruling {
    if a.status == Retired then
      Ruling(a.(ceiling := 0, allowed := []), if p.Some? then Some(p.value.(level := 0)) else None)
    else
      var b := Placed(a);
      if p.None? then Ruling(b, None)
      else if b.status == Active && b.performance >= 90.0 && p.value.evaluations >= 5 then
        var level := Min(5, p.value.level + 1);
        Ruling(b.(ceiling := Min(50, 25 + level * 5)), Some(p.value.(level := level)))
      else if b.performance < 60.0 && b.status != Retired then
        Ruling(b.(ceiling := Max(5, b.ceiling - 5)), Some(p.value.(level := Max(1, p.value.level - 1))))
      else Ruling(b, p)
  }

  // ---------- events ----------

  datatype Event =
    | Success(granted: int, used: int, value: real)
    | Failure(granted: int, used: int)
    | Violation
    | ProposalOutcome(approved: bool)
    | ExecutionOutcome(succeeded: bool)
    | Evaluation(completed: int, failed: int, consumed: int, produced: real, violations: int)

  function Used(e: real, granted: int, used: int, value: real): real {
    if granted > 0 && used >= 0 then
      var ratio := (granted as real / Max(1, used) as real) * MaxR(0.1, value);
      Round2(0.7 * e + 0.3 * MinR(2.0, MaxR(0.0, ratio)))
    else e
  }

  function Wasted(e: real, used: int): real {
    if used > 0 then Round2(MaxR(0.1, e * 0.85)) else e
  }

  function Recorded(a: Agent, e: Event): Agent {
    match e
    case Success(granted, used, value) =>
      a.(successes := a.successes + 1, history := a.history + [Succeeded],
         efficiency := Used(a.efficiency, granted, used, value),
         reputation := MinR(100.0, Round2(a.reputation + 3.0)))
    case Failure(_, used) =>
      a.(failures := a.failures + 1, history := a.history + [Failed], efficiency := Wasted(a.efficiency, used),
         reputation := Clamp(Round2(Clamp(a.reputation) - 5.0)))
    case Violation =>
      a.(violations := a.violations + 1, history := a.history + [Violated],
         reputation := Clamp(Round2(Clamp(a.reputation) - 10.0)), risk := MinR(100.0, Round2(a.risk + 15.0)))
    case _ => a
  }

  function Noted(p: Perf, e: Event): Perf {
    match e
    case Success(_, used, value) =>
      p.(completed := p.completed + 1, consumed := p.consumed + used, produced := p.produced + value,
         evaluations := p.evaluations + 1)
    case Failure(_, used) =>
      p.(failed := p.failed + 1, consumed := p.consumed + used, evaluations := p.evaluations + 1)
    case Violation => p.(violations := p.violations + 1, evaluations := p.evaluations + 1)
    case ProposalOutcome(_) => p
    case ExecutionOutcome(ok) =>
      if ok then p.(execSuccesses := p.execSuccesses + 1) else p.(execFailures := p.execFailures + 1)
    case Evaluation(completed, failed, consumed, produced, violations) =>
      p.(completed := p.completed + completed, failed := p.failed + failed, consumed := p.consumed + consumed,
         produced := p.produced + produced, violations := p.violations + violations, evaluations := p.evaluations + 1)
  }

  function Fresh(): Perf { Perf(0, 0, 0, 0, 0.0, 0, 0, 1, 0) }

  function NotedOption(p: Option<Perf>, e: Event): Option<Perf> {
    if p.Some? then Some(Noted(p.value, e)) else None
  }

  // One engine call. An evaluation without a stored record starts a fresh one and takes its
  // counters over into the agent.
  function Handle(a: Agent, p: Option<Perf>, e: Event): Ruling {
    match e
    case Success(_, _, _) => Lifecycle(UpdateMetrics(Recorded(a, e), NotedOption(p, e)), NotedOption(p, e))
    case Failure(_, _) => Lifecycle(UpdateMetrics(Recorded(a, e), NotedOption(p, e)), NotedOption(p, e))
    case Violation => Lifecycle(UpdateMetrics(Recorded(a, e), NotedOption(p, e)), NotedOption(p, e))
    case ProposalOutcome(_) => Ruling(if p.Some? then UpdateMetrics(a, NotedOption(p, e)) else a, NotedOption(p, e))
    case ExecutionOutcome(_) => Ruling(if p.Some? then UpdateMetrics(a, NotedOption(p, e)) else a, NotedOption(p, e))
    case Evaluation(_, _, _, _, _) =>
      var q := Noted(if p.Some? then p.value else Fresh(), e);
      Lifecycle(UpdateMetrics(a.(successes := q.completed, failures := q.failed, violations := q.violations), Some(q)), Some(q))
  }

  // A run: each call may come with any performance record or none.
  datatype Call = Call(event: Event, perf: Option<Perf>)

  function Run(a: Agent, calls: seq<Call>): Agent
    decreases |calls|
  {
    if calls == [] then a else Run(Handle(a, calls[0].perf, calls[0].event).agent, calls[1..])
  }

  // ---------- permissions only shrink, retirement is final ----------

  ghost predicate Within(s: seq<Action>, t: seq<Action>) { forall x :: x in s ==> x in t }

  lemma WithinNothing(s: seq<Action>)
    ensures Within(s, []) ==> s == []
  {
    if s != [] { assert s[0] in s; }
  }

  lemma {:induction false} WithoutExternalIs(s: seq<Action>)
    ensures forall x :: x in WithoutExternal(s) <==> x in s && !External(x)
  {
    if s != [] { WithoutExternalIs(s[1..]); }
  }

  lemma LifecycleShrinks(a: Agent, p: Option<Perf>)
    ensures var b := Lifecycle(a, p).agent;
            Within(b.allowed, a.allowed) && (a.status == Retired ==> b.status == Retired)
    ensures var b := Lifecycle(a, p).agent;
            b.status == Suspended || b.status == Retired ==> b.allowed == []
  {
    WithoutExternalIs(a.allowed);
  }

  lemma HandleShrinks(a: Agent, p: Option<Perf>, e: Event)
    ensures var b := Handle(a, p, e).agent;
            Within(b.allowed, a.allowed) && (a.status == Retired ==> b.status == Retired)
    ensures var b := Handle(a, p, e).agent;
            (a.status == Suspended || a.status == Retired ==> a.allowed == []) ==>
              (b.status == Suspended || b.status == Retired ==> b.allowed == [])
  {
    hide Lifecycle, Composite, Reliability, Round2, Clamp, Used, Wasted;
    var q := if e.Evaluation? then Some(Noted(if p.Some? then p.value else Fresh(), e)) else NotedOption(p, e);
    var b := if e.Evaluation? then a.(successes := q.value.completed, failures := q.value.failed, violations := q.value.violations)
             else Recorded(a, e);
    LifecycleShrinks(UpdateMetrics(b, q), q);
  }

  lemma {:induction false} PermissionsOnlyShrink(a: Agent, calls: seq<Call>)
    ensures Within(Run(a, calls).allowed, a.allowed)
    ensures a.status == Retired ==> Run(a, calls).status == Retired
    decreases |calls|
  {
    hide Handle;
    if calls != [] {
      HandleShrinks(a, calls[0].perf, calls[0].event);
      PermissionsOnlyShrink(Handle(a, calls[0].perf, calls[0].event).agent, calls[1..]);
    }
  }

  // The demotion branch lifts a zeroed ceiling: after a lifecycle evaluation a suspended or
  // restricted agent has ceiling 5 exactly when a record was passed and the composite is below 60.
  lemma SidelinedCeiling(a: Agent, p: Option<Perf>)
    requires a.status != Retired
    ensures var b := Lifecycle(a, p).agent;
            b.status == Suspended || b.status == Restricted ==>
              b.ceiling == (if p.Some? && a.performance < 60.0 then 5 else 0)
    ensures var b := Lifecycle(a, p).agent; b.status == Retired ==> b.ceiling == 0
    ensures var b := Lifecycle(a, p).agent; a.ceiling <= 50 ==> b.ceiling <= 50
  {}

  // ---------- the policy engine ----------

  datatype Proposal = Proposal(action: Action, credits: nat)

  // The rules modelled here, and any other rule by the answer it gives.
  datatype Rule =
    | OrgPauseRule | AgentStatusRule | TreasuryBalanceRule | SpendLimitRule | RolePermissionRule
    | OtherRule(name: string, violated: bool)

  datatype Decision =
    | Rejected(rule: Option<Rule>, evaluated: seq<Rule>)
    | Escalated(evaluated: seq<Rule>)
    | Approved(evaluated: seq<Rule>)

  predicate Violates(r: Rule, x: Proposal, a: Agent, paused: bool, treasury: int) {
    match r
    case OrgPauseRule => paused
    case AgentStatusRule =>
      || a.status == Suspended || a.status == Retired
      || (a.status == Restricted && (x.action != InternalAnalysis || x.credits > 0))
    case TreasuryBalanceRule => x.credits > treasury
    case SpendLimitRule => x.credits > a.ceiling
    case RolePermissionRule => x.action !in a.allowed
    case OtherRule(_, violated) => violated
  }

  // The default list: five rules above in this order, then seven specialised ones.
  function DefaultRules(others: seq<Rule>): seq<Rule> {
    [OrgPauseRule, AgentStatusRule, TreasuryBalanceRule, SpendLimitRule, RolePermissionRule] + others
  }

  method EvaluateProposal(rules: seq<Rule>, x: Proposal, agent: Option<Agent>, paused: bool, treasury: int, threshold: int)
    returns (d: Decision)
    ensures d.Approved? <==>
              && agent.Some? && x.credits < threshold
              && forall r :: r in rules ==> !Violates(r, x, agent.value, paused, treasury)
    ensures d.Escalated? <==>
              && agent.Some? && x.credits >= threshold
              && forall r :: r in rules ==> !Violates(r, x, agent.value, paused, treasury)
    ensures d.evaluated <= rules
    ensures d.Rejected? && agent.Some? ==>
              && |d.evaluated| > 0 && d.rule == Some(d.evaluated[|d.evaluated| - 1])
              && Violates(d.rule.value, x, agent.value, paused, treasury)
              && forall r :: r in d.evaluated[..|d.evaluated| - 1] ==> !Violates(r, x, agent.value, paused, treasury)
  {
    if agent.None? { return Rejected(None, []); }
    var evaluated: seq<Rule> := [];
    for i := 0 to |rules|
      invariant evaluated == rules[..i]
      invariant forall r :: r in evaluated ==> !Violates(r, x, agent.value, paused, treasury)
    {
      evaluated := evaluated + [rules[i]];
      if Violates(rules[i], x, agent.value, paused, treasury) {
        assert evaluated[..i] == rules[..i];
        return Rejected(Some(rules[i]), evaluated);
      }
    }
    assert evaluated == rules;
    if x.credits >= threshold { return Escalated(evaluated); }
    return Approved(evaluated);
  }

  ghost predicate Passes(rules: seq<Rule>, x: Proposal, a: Agent, paused: bool, treasury: int) {
    forall r :: r in rules ==> !Violates(r, x, a, paused, treasury)
  }

  // Suspension is for ever as far as the default engine is concerned: whatever outcomes are
  // recorded afterwards, no proposal of the agent passes the rules again.
  lemma OnceSuspendedNeverApproved(a: Agent, p: Option<Perf>, e: Event, later: seq<Call>,
                                   others: seq<Rule>, x: Proposal, paused: bool, treasury: int)
    requires Handle(a, p, e).agent.status == Suspended && a.status != Suspended
    ensures !Passes(DefaultRules(others), x, Run(Handle(a, p, e).agent, later), paused, treasury)
  {
    hide Handle;
    SuspensionEmpties(a, p, e);
    PermissionsOnlyShrink(Handle(a, p, e).agent, later);
    assert RolePermissionRule in DefaultRules(others);
  }

  lemma SuspensionEmpties(a: Agent, p: Option<Perf>, e: Event)
    requires Handle(a, p, e).agent.status == Suspended && a.status != Suspended
    ensures Handle(a, p, e).agent.allowed == []
  {
    hide Lifecycle, Composite, Reliability, Round2, Clamp, Used, Wasted;
    var q := if e.Evaluation? then Some(Noted(if p.Some? then p.value else Fresh(), e)) else NotedOption(p, e);
    var b := if e.Evaluation? then a.(successes := q.value.completed, failures := q.value.failed, violations := q.value.violations)
             else Recorded(a, e);
    LifecycleShrinks(UpdateMetrics(b, q), q);
  }

  // ---------- without a performance record ----------

  // A new agent record, with any role's permissions.
  function NewAgent(allowed: seq<Action>): Agent {
    Agent(100.0, 25, allowed, Active, 0, 0, 0, 100.0, 0.0, 1.0, 100.0, [])
  }

  function CompositeOf(successes: int, failures: int, violations: int, efficiency: real): real {
    if successes + failures == 0 then 100.0
    else
      var rate := Rate(successes, successes + failures);
      Composite(rate, Reliability(rate, Compliance(violations), None), efficiency, Compliance(violations))
  }

  predicate Percent(x: real) { 0.0 <= x <= 100.0 }

  ghost predicate Coherent(a: Agent) {
    && a.successes >= 0 && a.failures >= 0 && a.violations >= 0
    && Percent(a.reputation) && Percent(a.performance) && Percent(a.reliability) && Percent(a.risk)
    && Cents(a.reputation) && Cents(a.efficiency)
    && a.performance == CompositeOf(a.successes, a.failures, a.violations, a.efficiency)
    && (a.status == Retired || a.status == Classify(a.reputation, a.performance, FailStreak(a.history)))
  }

  lemma PercentRounds(x: real)
    ensures Percent(Round2(Clamp(x)))
  {
    Round2Within(Clamp(x), 0, 100);
  }

  lemma ClampedCents(x: real)
    requires Cents(x)
    ensures Cents(Clamp(x)) && Cents(MinR(100.0, x)) && Round2(Clamp(x)) == Clamp(x)
  {
    CentsOf(0.0, 0);
    CentsOf(100.0, 10000);
  }

  lemma RecordedScores(a: Agent, e: Event)
    requires Coherent(a) && (e.Success? || e.Failure? || e.Violation?)
    ensures var b := Recorded(a, e);
            && Percent(b.reputation) && Cents(b.reputation) && Cents(b.efficiency) && Percent(b.risk)
            && b.successes >= 0 && b.failures >= 0 && b.violations >= 0 && b.successes + b.failures + b.violations > 0
            && b.status == a.status
  {
    hide Coherent, CompositeOf, Cents;
    ScoresOf(a);
    match e
    case Success(granted, used, value) =>
      Round2IsCents(a.reputation + 3.0);
      Round2Within(a.reputation + 3.0, 0, 103);
      ClampedCents(Round2(a.reputation + 3.0));
      EfficiencyCents(a.efficiency, granted, used, value);
    case Failure(_, used) =>
      Round2IsCents(Clamp(a.reputation) - 5.0);
      ClampedCents(Round2(Clamp(a.reputation) - 5.0));
      EfficiencyCents(a.efficiency, 0, used, 0.0);
    case Violation =>
      Round2IsCents(Clamp(a.reputation) - 10.0);
      ClampedCents(Round2(Clamp(a.reputation) - 10.0));
      Round2Within(a.risk + 15.0, 0, 115);
  }

  lemma ScoresOf(a: Agent)
    requires Coherent(a)
    ensures Percent(a.reputation) && Percent(a.risk) && Cents(a.reputation) && Cents(a.efficiency)
    ensures a.successes >= 0 && a.failures >= 0 && a.violations >= 0
  {}

  lemma EfficiencyCents(e: real, granted: int, used: int, value: real)
    requires Cents(e)
    ensures Cents(Used(e, granted, used, value)) && Cents(Wasted(e, used))
  {
    UsedIs(e, granted, used, value);
    WastedIs(e, used);
  }

  lemma UsedIs(e: real, granted: int, used: int, value: real)
    ensures Used(e, granted, used, value) == e || Cents(Used(e, granted, used, value))
  {
    hide Cents, Round2, MaxR, MinR;
    if granted > 0 && used >= 0 {
      var ratio := (granted as real / Max(1, used) as real) * MaxR(0.1, value);
      Round2IsCents(0.7 * e + 0.3 * MinR(2.0, MaxR(0.0, ratio)));
    }
  }

  lemma WastedIs(e: real, used: int)
    ensures Wasted(e, used) == e || Cents(Wasted(e, used))
  {
    hide Cents, Round2, MaxR;
    Round2IsCents(MaxR(0.1, e * 0.85));
  }

  // Every recorded outcome keeps the scores within bounds and the status what the scores say.
  lemma HandleKeepsCoherent(a: Agent, e: Event)
    requires Coherent(a) && (e.Success? || e.Failure? || e.Violation?)
    ensures Coherent(Handle(a, None, e).agent)
  {
    hide Coherent, Round2, Composite, Reliability, Recorded, FailStreak, Classify, Compliance;
    RecordedScores(a, e);
    var b := Recorded(a, e);
    MetricsCoherent(b);
    var m := UpdateMetrics(b, None);
    LifecycleCoherent(m);
  }

  ghost predicate Measured(m: Agent) {
    && m.successes >= 0 && m.failures >= 0 && m.violations >= 0
    && Percent(m.reputation) && Percent(m.performance) && Percent(m.reliability) && Percent(m.risk)
    && Cents(m.reputation) && Cents(m.efficiency)
    && m.performance == CompositeOf(m.successes, m.failures, m.violations, m.efficiency)
  }

  lemma MetricsCoherent(b: Agent)
    requires b.successes >= 0 && b.failures >= 0 && b.violations >= 0
    requires Percent(b.reputation) && Cents(b.reputation) && Cents(b.efficiency) && Percent(b.risk)
    ensures Measured(UpdateMetrics(b, None))
  {
    hide Round2, Cents, Composite, Reliability, Compliance, Rate;
    ClampedCents(b.reputation);
    PercentRounds(b.risk);
    CompositeAtMost100(b.successes, b.failures, b.violations, b.efficiency);
    if b.successes + b.failures != 0 {
      ReliabilityPercent(Rate(b.successes, b.successes + b.failures), Compliance(b.violations), None);
    }
  }

  lemma ReliabilityPercent(rate: real, compliance: real, p: Option<Perf>)
    ensures Percent(Reliability(rate, compliance, p))
  {
    var base := TaskReliability(rate, compliance);
    var tot := if p.Some? then p.value.execSuccesses + p.value.execFailures else 0;
    PercentRounds(if tot > 0 then base * 0.6 + Rate(p.value.execSuccesses, tot) * 40.0 else base);
  }

  lemma LifecycleCoherent(m: Agent)
    requires Measured(m)
    ensures Coherent(Lifecycle(m, None).agent)
  {
    hide CompositeOf, Cents;
  }

  // ---------- a bad outcome never helps ----------

  function Severity(s: Status): nat {
    match s
    case Active => 0
    case Probation => 1
    case Restricted => 2
    case Suspended => 3
    case Retired => 4
  }

  lemma ClassifyMonotone(s: real, c: real, k: nat, s': real, c': real, k': nat)
    requires s' <= s && c' <= c && k <= k'
    ensures Severity(Classify(s, c, k)) <= Severity(Classify(s', c', k'))
  {}

  lemma RateBounds(part: int, whole: int)
    requires 0 <= part <= whole && 0 < whole
    ensures 0.0 <= Rate(part, whole) <= 1.0
    ensures Rate(part, whole) * whole as real == part as real
  {}

  lemma RateFalls(part: int, whole: int)
    requires 0 <= part <= whole && 0 < whole
    ensures Rate(part, whole + 1) <= Rate(part, whole)
  {
    RateBounds(part, whole);
    RateBounds(part, whole + 1);
    var q, r := Rate(part, whole), Rate(part, whole + 1);
    assert r * (whole + 1) as real == r * whole as real + r;
    if q < r { Scaled(q, r, whole as real); }
  }

  lemma Scaled(q: real, r: real, w: real)
    requires q <= r && w >= 0.0
    ensures q * w <= r * w
    ensures q < r && w > 0.0 ==> q * w < r * w
  {}

  lemma ProductMonotone(x: real, y: real, x': real, y': real)
    requires 0.0 <= x' <= x && 0.0 <= y' <= y
    ensures x' * y' <= x * y
  {
    Scaled(x', x, y');
    Scaled(y', y, x);
    assert y' * x == x * y' && y * x == x * y;
  }

  lemma BaseIsProduct(rate: real, comp: real)
    ensures rate * (comp / 100.0) * 100.0 == rate * comp
  {
    var q := comp / 100.0;
    assert comp == q * 100.0;
    assert rate * q * 100.0 == rate * (q * 100.0);
  }

  lemma CompositeMonotone(rate: real, comp: real, eff: real, rate': real, comp': real, eff': real)
    requires 0.0 <= rate' <= rate && 0.0 <= comp' <= comp && eff' <= eff
    ensures Composite(rate', Reliability(rate', comp', None), eff', comp') <=
            Composite(rate, Reliability(rate, comp, None), eff, comp)
  {
    hide Round2;
    ProductMonotone(rate, comp, rate', comp');
    var base, base' := rate * (comp / 100.0) * 100.0, rate' * (comp' / 100.0) * 100.0;
    BaseIsProduct(rate, comp);
    BaseIsProduct(rate', comp');
    Round2Monotone(Clamp(base'), Clamp(base));
    var rel, rel' := Reliability(rate, comp, None), Reliability(rate', comp', None);
    var x := 0.35 * (rate * 100.0) + 0.25 * rel + 0.20 * Clamp(eff * 100.0) + 0.20 * comp;
    var x' := 0.35 * (rate' * 100.0) + 0.25 * rel' + 0.20 * Clamp(eff' * 100.0) + 0.20 * comp';
    Round2Monotone(Clamp(x'), Clamp(x));
  }

  lemma CompositeAtMost100(s: int, f: int, v: int, e: real)
    ensures Percent(CompositeOf(s, f, v, e))
  {
    hide Round2;
    if s + f != 0 {
      var rate := Rate(s, s + f);
      PercentRounds(0.35 * (rate * 100.0) + 0.25 * Reliability(rate, Compliance(v), None)
                    + 0.20 * Clamp(e * 100.0) + 0.20 * Compliance(v));
    }
  }

  lemma FailureLowersComposite(s: nat, f: nat, v: nat, e: real, e': real)
    requires e' <= e
    ensures CompositeOf(s, f + 1, v, e') <= CompositeOf(s, f, v, e)
  {
    hide Composite, Reliability;
    CompositeAtMost100(s, f + 1, v, e');
    if s + f > 0 {
      RateBounds(s, s + f);
      RateBounds(s, s + f + 1);
      RateFalls(s, s + f);
      CompositeMonotone(Rate(s, s + f), Compliance(v), e, Rate(s, s + f + 1), Compliance(v), e');
    }
  }

  lemma ViolationLowersComposite(s: nat, f: nat, v: nat, e: real)
    ensures CompositeOf(s, f, v + 1, e) <= CompositeOf(s, f, v, e)
  {
    hide Composite, Reliability;
    if s + f > 0 {
      RateBounds(s, s + f);
      CompositeMonotone(Rate(s, s + f), Compliance(v), e, Rate(s, s + f), Compliance(v + 1), e);
    }
  }

  // A charged failure can only lower the efficiency of an agent that has at least 0.1 of it ...
  lemma WastedNotAbove(e: real, used: int)
    requires Cents(e) && e >= 0.1
    ensures Wasted(e, used) <= e
  {
    Round2Monotone(MaxR(0.1, e * 0.85), e);
  }

  // ... and raises it otherwise, up to 0.1.
  lemma WastedRaisesIff(e: real, used: int)
    requires Cents(e)
    ensures Wasted(e, used) > e <==> used > 0 && e < 0.1
  {
    if e >= 0.1 { WastedNotAbove(e, used); }
    else if used > 0 {
      CentsOf(0.1, 10);
      Round2Monotone(0.1, MaxR(0.1, e * 0.85));
    }
  }

  lemma StreakGrows(h: seq<Mark>, m: Mark)
    requires Bad(m)
    ensures FailStreak(h + [m]) == FailStreak(h) + 1
  {
    assert (h + [m])[..|h|] == h;
  }

  lemma PenaltyLowers(x: real, penalty: real)
    requires Percent(x) && Cents(x) && penalty >= 0.0
    ensures Clamp(Round2(Clamp(x) - penalty)) <= x
  {
    Round2Monotone(x - penalty, x);
  }

  // With efficiency at least 0.1, a failure or violation never leads to a less severe status.
  lemma BadOutcomeNeverHelps(a: Agent, e: Event)
    requires Coherent(a) && (e.Failure? || e.Violation?) && (e.Failure? && e.used > 0 ==> a.efficiency >= 0.1)
    ensures Severity(a.status) <= Severity(Handle(a, None, e).agent.status)
  {
    hide Coherent, UpdateMetrics, Recorded, Classify, FailStreak;
    var b := Recorded(a, e);
    var m := UpdateMetrics(b, None);
    StatusIs(a);
    MetricsKeepHistory(b, None);
    if a.status == Retired {
      HandleShrinks(a, None, e);
    } else {
      RecordedScores(a, e);
      BadOutcomeLowersScores(a, e);
      ClassifyMonotone(a.reputation, a.performance, FailStreak(a.history), m.reputation, m.performance, FailStreak(m.history));
      PlacedStatus(m);
    }
  }

  lemma StatusIs(a: Agent)
    requires Coherent(a)
    ensures a.status == Retired || a.status == Classify(a.reputation, a.performance, FailStreak(a.history))
  {}

  lemma PlacedStatus(m: Agent)
    requires m.status != Retired
    ensures Lifecycle(m, None).agent.status == Classify(m.reputation, m.performance, FailStreak(m.history))
  {}

  lemma BadOutcomeLowersScores(a: Agent, e: Event)
    requires Coherent(a) && (e.Failure? || e.Violation?) && (e.Failure? && e.used > 0 ==> a.efficiency >= 0.1)
    ensures var m := UpdateMetrics(Recorded(a, e), None);
            && m.reputation <= a.reputation && m.performance <= a.performance
            && FailStreak(m.history) == FailStreak(a.history) + 1
  {
    hide Composite, Reliability, Round2, Classify, Compliance, FailStreak, CompositeOf, Cents;
    var b := Recorded(a, e);
    var m := UpdateMetrics(b, None);
    RecordedScores(a, e);
    MetricsCoherent(b);
    ClampedCents(b.reputation);
    StreakGrows(a.history, if e.Failure? then Failed else Violated);
    PenaltyLowers(a.reputation, if e.Failure? then 5.0 else 10.0);
    if e.Failure? {
      if e.used > 0 { WastedNotAbove(a.efficiency, e.used); }
      FailureLowersComposite(a.successes, a.failures, a.violations, a.efficiency, b.efficiency);
    } else {
      ViolationLowersComposite(a.successes, a.failures, a.violations, a.efficiency);
    }
  }

  lemma CompositeDefined(b: Agent)
    ensures UpdateMetrics(b, None).performance == CompositeOf(b.successes, b.failures, b.violations, b.efficiency)
  {
    hide Composite, Reliability, Round2;
  }

  // ---------- runs without a performance record ----------

  function Bare(events: seq<Event>): seq<Call> {
    seq(|events|, i requires 0 <= i < |events| => Call(events[i], None))
  }

  predicate Outcome(e: Event) { e.Success? || e.Failure? || e.Violation? }

  lemma {:induction false} EveryAgentIsCoherent(a: Agent, events: seq<Event>)
    requires Coherent(a) && forall i :: 0 <= i < |events| ==> Outcome(events[i])
    ensures Coherent(Run(a, Bare(events)))
    decreases |events|
  {
    hide Coherent, Handle;
    if events != [] {
      HandleKeepsCoherent(a, events[0]);
      assert Bare(events)[1..] == Bare(events[1..]);
      EveryAgentIsCoherent(Handle(a, None, events[0]).agent, events[1..]);
    }
  }

  lemma NewAgentIsCoherent(permissions: seq<Action>)
    ensures Coherent(NewAgent(permissions))
  {
    CentsOf(100.0, 10000);
    CentsOf(1.0, 100);
  }

  // From a new agent: over any outcomes, all scores stay in range, status is what the scores say,
  // and a bad outcome that follows never improves it while efficiency is at least 0.1.
  lemma NewAgentRuns(permissions: seq<Action>, events: seq<Event>, e: Event)
    requires forall i :: 0 <= i < |events| ==> Outcome(events[i])
    requires e.Failure? || e.Violation?
    ensures var a := Run(NewAgent(permissions), Bare(events));
            && Coherent(a)
            && (a.efficiency >= 0.1 ==> Severity(a.status) <= Severity(Handle(a, None, e).agent.status))
  {
    NewAgentIsCoherent(permissions);
    EveryAgentIsCoherent(NewAgent(permissions), events);
    var a := Run(NewAgent(permissions), Bare(events));
    if a.efficiency >= 0.1 { BadOutcomeNeverHelps(a, e); }
  }

  // ---------- fifteen in a row ----------

  predicate BadCall(c: Call) { c.event.Failure? || c.event.Violation? }

  // A bad outcome lengthens the streak, and a streak of fifteen retires.
  lemma BadCallCounts(a: Agent, c: Call)
    requires BadCall(c)
    ensures var b := Handle(a, c.perf, c.event).agent;
            && FailStreak(b.history) == FailStreak(a.history) + 1
            && (FailStreak(b.history) >= 15 ==> b.status == Retired)
  {
    hide UpdateMetrics, Round2, Clamp, Wasted;
    StreakGrows(a.history, if c.event.Failure? then Failed else Violated);
    var q := NotedOption(c.perf, c.event);
    var b := Recorded(a, c.event);
    MetricsKeepHistory(b, q);
  }

  lemma MetricsKeepHistory(a: Agent, p: Option<Perf>)
    ensures var m := UpdateMetrics(a, p); m.history == a.history && m.status == a.status && m.allowed == a.allowed
  {}

  lemma {:induction false} StreakRetires(a: Agent, calls: seq<Call>)
    requires forall i :: 0 <= i < |calls| ==> BadCall(calls[i])
    requires FailStreak(a.history) + |calls| >= 15 && (|calls| == 0 ==> a.status == Retired)
    requires FailStreak(a.history) >= 15 ==> a.status == Retired
    ensures Run(a, calls).status == Retired
    decreases |calls|
  {
    hide Handle, FailStreak;
    if calls != [] {
      BadCallCounts(a, calls[0]);
      StreakRetires(Handle(a, calls[0].perf, calls[0].event).agent, calls[1..]);
    }
  }

  // Any agent, with or without performance records: fifteen bad outcomes in a row retire it.
  lemma FifteenBadOutcomesRetire(a: Agent, before: seq<Call>, calls: seq<Call>)
    requires |calls| >= 15 && forall i :: 0 <= i < |calls| ==> BadCall(calls[i])
    ensures Run(Run(a, before), calls).status == Retired
  {
    hide Handle, FailStreak;
    var b := Run(a, before);
    BadCallCounts(b, calls[0]);
    var c := Handle(b, calls[0].perf, calls[0].event).agent;
    StreakRetires(c, calls[1..]);
  }

  // ---------- recovery of status, not of permissions ----------

  lemma {:induction false} RunLast(a: Agent, calls: seq<Call>, c: Call)
    ensures Run(a, calls + [c]) == Handle(Run(a, calls), c.perf, c.event).agent
    decreases |calls|
  {
    hide Handle;
    if calls == [] {
      assert [c][1..] == [];
      assert ([] + [c]) == [c];
    } else {
      assert (calls + [c])[1..] == calls[1..] + [c];
      RunLast(Handle(a, calls[0].perf, calls[0].event).agent, calls[1..], c);
    }
  }

  ghost predicate Struggling(a: Agent, successes: nat, failures: nat) {
    && a.successes == successes && a.failures == failures && a.violations == 0
    && a.efficiency == 1.0 && a.status != Retired
  }

  // With full compliance and efficiency the composite is at least 40.
  lemma CompositeFloor(s: nat, f: nat)
    requires s + f > 0
    ensures CompositeOf(s, f, 0, 1.0) >= 40.0
  {
    hide Round2, Rate;
    var rate := Rate(s, s + f);
    RateBounds(s, s + f);
    ReliabilityPercent(rate, 100.0, None);
    var x := 0.35 * (rate * 100.0) + 0.25 * Reliability(rate, 100.0, None) + 0.20 * Clamp(1.0 * 100.0) + 0.20 * 100.0;
    Round2Within(Clamp(x), 40, 100);
  }

  // What scoring and placing make of an agent whose outcome has just been recorded.
  lemma ScoredAndPlaced(r: Agent)
    requires r.status != Retired && r.successes + r.failures != 0 && Percent(r.reputation) && Cents(r.reputation)
    ensures var b := Lifecycle(UpdateMetrics(r, None), None).agent;
            && b.reputation == r.reputation && b.efficiency == r.efficiency && b.history == r.history
            && b.successes == r.successes && b.failures == r.failures && b.violations == r.violations
            && b.performance == CompositeOf(r.successes, r.failures, r.violations, r.efficiency)
            && b.status == Classify(r.reputation, b.performance, FailStreak(r.history))
  {
    ClampedCents(r.reputation);
    CompositeDefined(r);
    var m := UpdateMetrics(r, None);
    assert m.reputation == r.reputation by { hide CompositeOf, Composite, Reliability, Cents; }
    hide CompositeOf, Composite, Reliability, Round2, Cents, FailStreak, Classify;
    PlacedStatus(m);
  }

  lemma RecordedSuccess(a: Agent, granted: int, used: int, value: real)
    requires Percent(a.reputation) && Cents(a.reputation)
    ensures var r := Recorded(a, Success(granted, used, value));
            && r == a.(successes := a.successes + 1, history := a.history + [Succeeded],
                       efficiency := Used(a.efficiency, granted, used, value), reputation := MinR(100.0, a.reputation + 3.0))
            && Percent(r.reputation) && Cents(r.reputation) && FailStreak(r.history) == 0
            && (granted <= 0 ==> r.efficiency == a.efficiency)
  {
    CentsShift(a.reputation, 3);
    hide Round2, Used;
    ClampedCents(a.reputation + 3.0);
  }

  lemma RecordedFailure(a: Agent, granted: int, used: int)
    requires Percent(a.reputation) && Cents(a.reputation) && a.reputation >= 5.0
    ensures var r := Recorded(a, Failure(granted, used));
            && r == a.(failures := a.failures + 1, history := a.history + [Failed],
                       efficiency := Wasted(a.efficiency, used), reputation := a.reputation - 5.0)
            && Percent(r.reputation) && Cents(r.reputation) && FailStreak(r.history) == FailStreak(a.history) + 1
            && (used <= 0 ==> r.efficiency == a.efficiency)
  {
    CentsShift(a.reputation, -5);
    StreakGrows(a.history, Failed);
    hide Round2, Wasted, FailStreak;
    ClampedCents(a.reputation - 5.0);
  }

  lemma OneMoreSuccess(a: Agent, s: nat, f: nat)
    requires Struggling(a, s, f) && Percent(a.reputation) && Cents(a.reputation) && a.reputation >= 15.0
    ensures var b := Handle(a, None, Success(0, 0, 1.0)).agent;
            && Struggling(b, s + 1, f) && FailStreak(b.history) == 0
            && b.reputation == MinR(100.0, a.reputation + 3.0) && Cents(b.reputation)
            && b.performance == CompositeOf(s + 1, f, 0, 1.0)
            && b.status == Classify(b.reputation, b.performance, 0)
  {
    hide Recorded, CompositeOf, FailStreak, UpdateMetrics, Lifecycle, Cents, Used;
    RecordedSuccess(a, 0, 0, 1.0);
    ScoredAndPlaced(Recorded(a, Success(0, 0, 1.0)));
    CompositeFloor(s + 1, f);
  }

  lemma CentsShift(x: real, d: int)
    requires Cents(x)
    ensures Cents(x + d as real)
  {
    var k := RoundInt(x * 100.0);
    CentsOf(x + d as real, k + 100 * d);
  }

  lemma OneMoreFailure(a: Agent, s: nat, f: nat)
    requires Struggling(a, s, f) && Percent(a.reputation) && Cents(a.reputation) && a.reputation >= 20.0
    requires FailStreak(a.history) < 14
    ensures var b := Handle(a, None, Failure(0, 0)).agent;
            && Struggling(b, s, f + 1) && FailStreak(b.history) == FailStreak(a.history) + 1
            && b.reputation == a.reputation - 5.0 && Cents(b.reputation)
            && b.status == Classify(b.reputation, b.performance, FailStreak(b.history))
            && b.performance == CompositeOf(s, f + 1, 0, 1.0)
  {
    hide Recorded, CompositeOf, FailStreak, UpdateMetrics, Lifecycle, Cents, Wasted;
    RecordedFailure(a, 0, 0);
    ScoredAndPlaced(Recorded(a, Failure(0, 0)));
    CompositeFloor(s, f + 1);
  }

  function Repeat(e: Event, n: nat): seq<Call> { seq(n, _ => Call(e, None)) }

  lemma {:induction false} AfterFailures(start: Agent, k: nat)
    requires k <= 10 && Struggling(start, 2, 0) && start.reputation == 100.0
    requires FailStreak(start.history) == 0
    ensures var a := Run(start, Repeat(Failure(0, 0), k));
            && Struggling(a, 2, k) && FailStreak(a.history) == k
            && a.reputation == 100.0 - 5.0 * k as real && Cents(a.reputation)
            && (k > 0 ==> a.status == Classify(a.reputation, a.performance, k) && a.performance == CompositeOf(2, k, 0, 1.0))
  {
    hide Handle, CompositeOf, Classify, FailStreak;
    if k == 0 {
      CentsOf(100.0, 10000);
    } else {
      AfterFailures(start, k - 1);
      var a := Run(start, Repeat(Failure(0, 0), k - 1));
      OneMoreFailure(a, 2, k - 1);
      RunLast(start, Repeat(Failure(0, 0), k - 1), Call(Failure(0, 0), None));
      assert Repeat(Failure(0, 0), k) == Repeat(Failure(0, 0), k - 1) + [Call(Failure(0, 0), None)];
    }
  }

  lemma ThreeOfThirteen()
    ensures 50.0 <= CompositeOf(3, 10, 0, 1.0) < 70.0
  {
    hide Round2;
    var rate := Rate(3, 13);
    RateBounds(3, 13);
    var base := rate * (100.0 / 100.0) * 100.0;
    Round2Within(base, 23, 24);
    var x := 0.35 * (rate * 100.0) + 0.25 * Reliability(rate, 100.0, None) + 0.20 * Clamp(1.0 * 100.0) + 0.20 * 100.0;
    Round2Within(x, 50, 69);
  }

  // Two successes, ten failures, one success: a new agent is suspended and then on probation
  // again, with nothing it is permitted to do.
  lemma StatusRecoversPermissionsDoNot(permissions: seq<Action>)
    ensures exists calls, more :: var a := Run(NewAgent(permissions), calls);
              a.status == Suspended && Run(a, more).status == Probation && Run(a, more).allowed == []
  {
    hide Handle, CompositeOf, FailStreak, Struggling, Cents;
    var ok := Call(Success(0, 0, 1.0), None);
    var ten := Repeat(Failure(0, 0), 10);
    var two := Run(NewAgent(permissions), [ok, ok]);
    TwoSuccesses(permissions);
    TenFailures(two);
    RunJoin(NewAgent(permissions), [ok, ok], ten);
    var a := Run(NewAgent(permissions), [ok, ok] + ten);
    OneMoreSuccess(a, 2, 10);
    ThreeOfThirteen();
    RunLast(a, [], ok);
    assert [] + [ok] == [ok];
    PermissionsOnlyShrink(a, [ok]);
    var b := Run(a, [ok]);
    WithinNothing(b.allowed);
    assert b.status == Probation;
  }

  lemma TwoSuccesses(permissions: seq<Action>)
    ensures var ok := Call(Success(0, 0, 1.0), None); var two := Run(NewAgent(permissions), [ok, ok]);
            && Struggling(two, 2, 0) && two.reputation == 100.0 && FailStreak(two.history) == 0
  {
    hide Handle, CompositeOf, FailStreak;
    var ok := Call(Success(0, 0, 1.0), None);
    var new_ := NewAgent(permissions);
    CentsOf(100.0, 10000);
    OneMoreSuccess(new_, 0, 0);
    var one := Handle(new_, None, ok.event).agent;
    OneMoreSuccess(one, 1, 0);
    RunLast(new_, [], ok);
    RunLast(new_, [ok], ok);
    assert [] + [ok] == [ok] && [ok] + [ok] == [ok, ok];
  }

  lemma TenFailures(two: Agent)
    requires Struggling(two, 2, 0) && two.reputation == 100.0 && FailStreak(two.history) == 0
    ensures var a := Run(two, Repeat(Failure(0, 0), 10));
            && Struggling(a, 2, 10) && a.reputation == 50.0 && Cents(a.reputation)
            && a.status == Suspended && a.allowed == []
  {
    hide Handle, CompositeOf, FailStreak;
    var nine, fail := Repeat(Failure(0, 0), 9), Call(Failure(0, 0), None);
    AfterFailures(two, 9);
    AfterFailures(two, 10);
    CompositeFloor(2, 9);
    CompositeFloor(2, 10);
    assert Repeat(Failure(0, 0), 10) == nine + [fail];
    RunLast(two, nine, fail);
    SuspensionEmpties(Run(two, nine), None, fail.event);
  }

  lemma {:induction false} RunJoin(a: Agent, x: seq<Call>, y: seq<Call>)
    ensures Run(a, x + y) == Run(Run(a, x), y)
    decreases |x|
  {
    hide Handle;
    if x == [] { assert x + y == y; }
    else {
      assert (x + y)[1..] == x[1..] + y;
      RunJoin(Handle(a, x[0].perf, x[0].event).agent, x[1..], y);
    }
  }

  // ---------- where a bad outcome does help ----------

  // 803 successes, 197 failures, 10 violations: at this record 0.1 of efficiency decides between
  // suspended and restricted.
  ghost predicate Wasteful(a: Agent, e: real) {
    && a.successes == 803 && a.failures == 197 && a.violations == 10 && a.efficiency == e
    && a.reputation == 100.0 && FailStreak(a.history) == 0 && a.status == Suspended
  }

  lemma CentsBelow(e: real)
    requires Cents(e) && e < 0.1
    ensures e <= 0.09
  {}

  lemma WastefulComposite(e: real)
    requires e <= 0.09
    ensures 15.0 <= CompositeOf(803, 197, 10, e) < 30.0
  {
    CentsOf(0.0, 0);
    CentsOf(28.0, 2800);
    CentsOf(29.91, 2991);
    var x := 0.35 * (0.803 * 100.0) + 0.20 * Clamp(e * 100.0);
    assert Rate(803, 1000) == 0.803 && Reliability(0.803, 0.0, None) == 0.0;
    Round2Monotone(28.0, Clamp(x));
    Round2Monotone(Clamp(x), 29.91);
    hide Round2;
    assert CompositeOf(803, 197, 10, e) == Round2(Clamp(x));
  }

  lemma WastefulAfter()
    ensures 30.0 <= CompositeOf(803, 198, 10, 0.1) < 50.0
  {
    CentsOf(0.0, 0);
    RateBounds(803, 1001);
    var rate := Rate(803, 1001);
    assert Reliability(rate, 0.0, None) == 0.0;
    var x := 0.35 * (rate * 100.0) + 0.20 * Clamp(0.1 * 100.0);
    Round2Within(Clamp(x), 30, 31);
    hide Round2;
    assert CompositeOf(803, 198, 10, 0.1) == Round2(Clamp(x));
  }

  lemma WastedLifts(e: real)
    requires e < 0.1
    ensures Wasted(e, 1) == 0.1
  {
    CentsOf(0.1, 10);
  }

  // A charged failure makes the status of such an agent less severe.
  lemma WastefulImproves(a: Agent, e: real)
    requires Wasteful(a, e) && Cents(e) && e < 0.1
    ensures Handle(a, None, Failure(1, 1)).agent.status == Restricted
  {
    CentsOf(100.0, 10000);
    RecordedFailure(a, 1, 1);
    WastedLifts(e);
    WastefulAfter();
    hide Recorded, CompositeOf, FailStreak, UpdateMetrics, Lifecycle, Cents, Wasted;
    ScoredAndPlaced(Recorded(a, Failure(1, 1)));
  }

  function Spendthrift(e: real): Agent {
    UpdateMetrics(Agent(100.0, 0, [], Suspended, 803, 197, 10, 0.0, 100.0, e, 0.0, [Succeeded]), None)
  }

  lemma SpendthriftIsWasteful(e: real)
    requires Cents(e) && e < 0.1
    ensures Wasteful(Spendthrift(e), e) && Coherent(Spendthrift(e))
  {
    var a := Agent(100.0, 0, [], Suspended, 803, 197, 10, 0.0, 100.0, e, 0.0, [Succeeded]);
    CentsOf(100.0, 10000);
    MetricsCoherent(a);
    CompositeDefined(a);
    CentsBelow(e);
    WastefulComposite(e);
    hide Cents, Round2, Composite, Reliability, CompositeOf;
    ClampedCents(100.0);
    assert Spendthrift(e).reputation == 100.0;
  }

  // Of the agents with efficiency e none is helped by a charged failure exactly when e is at least 0.1.
  lemma BadOutcomeNeverHelpsIff(e: real)
    requires Cents(e)
    ensures (forall a, granted, used :: Coherent(a) && a.efficiency == e && used > 0 ==>
              Severity(a.status) <= Severity(Handle(a, None, Failure(granted, used)).agent.status))
            <==> e >= 0.1
  {
    hide Handle, Coherent, Cents;
    if e >= 0.1 {
      forall a, granted, used | Coherent(a) && a.efficiency == e && used > 0
        ensures Severity(a.status) <= Severity(Handle(a, None, Failure(granted, used)).agent.status)
      {
        BadOutcomeNeverHelps(a, Failure(granted, used));
      }
    } else {
      SpendthriftIsWasteful(e);
      WastefulImproves(Spendthrift(e), e);
    }
  }

  // ---------- ... and how a new agent gets there ----------

  // Efficiency after k successes that used a thousand credits of one granted.
  function LowEfficiency(k: nat): real {
    if k == 0 then 1.0 else Used(LowEfficiency(k - 1), 1, 1000, 0.1)
  }

  lemma RoundsTo(y: real, n: int)
    requires n as real - 0.5 < y < n as real + 0.5
    ensures RoundInt(y) == n
  {}

  lemma LowUsed(e: real, n: nat)
    requires n as real - 0.5 < 70.0 * e + 0.003 < n as real + 0.5
    ensures Used(e, 1, 1000, 0.1) == n as real / 100.0
  {
    var x := 0.7 * e + 0.3 * MinR(2.0, MaxR(0.0, (1.0 / 1000.0) * MaxR(0.1, 0.1)));
    assert x * 100.0 == 70.0 * e + 0.003;
    RoundsTo(x * 100.0, n);
    hide RoundInt;
    assert Used(e, 1, 1000, 0.1) == Round2(x);
  }

  lemma EfficiencyBottoms(k: nat)
    requires k >= 12
    ensures LowEfficiency(k) == 0.01
  {
    hide Used;
    if k > 12 {
      EfficiencyBottoms(k - 1);
      LowUsed(0.01, 1);
    } else {
      TwelveLow();
    }
  }

  lemma SixLow()
    ensures LowEfficiency(6) == 0.12
  {
    LowUsed(1.0, 70);
    LowUsed(0.7, 49);
    LowUsed(0.49, 34);
    LowUsed(0.34, 24);
    LowUsed(0.24, 17);
    LowUsed(0.17, 12);
    hide Used;
    assert LowEfficiency(3) == 0.34;
  }

  lemma TwelveLow()
    ensures LowEfficiency(12) == 0.01
  {
    SixLow();
    LowUsed(0.12, 8);
    LowUsed(0.08, 6);
    LowUsed(0.06, 4);
    LowUsed(0.04, 3);
    LowUsed(0.03, 2);
    LowUsed(0.02, 1);
    hide Used;
    assert LowEfficiency(9) == 0.04;
  }

  // An agent after s wasteful successes, f failures and v violations, the last k outcomes bad.
  ghost predicate Tally(a: Agent, s: nat, f: nat, v: nat, reputation: real, k: nat) {
    && a.successes == s && a.failures == f && a.violations == v && a.efficiency == LowEfficiency(s)
    && a.reputation == reputation && Percent(reputation) && Cents(reputation) && FailStreak(a.history) == k
    && a.status != Retired
  }

  // At four fifths of successes or more the composite stays above the retirement line.
  lemma MostlySuccessful(s: nat, f: nat, v: nat, e: real)
    requires s + f > 0 && 5 * s >= 4 * (s + f)
    ensures CompositeOf(s, f, v, e) >= 28.0
  {
    hide Round2, Rate;
    var rate := Rate(s, s + f);
    RateBounds(s, s + f);
    FourFifths(s, s + f);
    ReliabilityPercent(rate, Compliance(v), None);
    var x := 0.35 * (rate * 100.0) + 0.25 * Reliability(rate, Compliance(v), None) + 0.20 * Clamp(e * 100.0) + 0.20 * Compliance(v);
    Round2Within(Clamp(x), 28, 100);
  }

  lemma RateProduct(part: int, whole: int)
    requires whole != 0
    ensures Rate(part, whole) * whole as real == part as real
  {}

  lemma FourFifths(s: nat, n: nat)
    requires n > 0 && 5 * s >= 4 * n
    ensures Rate(s, n) >= 0.8
  {
    var r, w := Rate(s, n), n as real;
    RateProduct(s, n);
    hide Rate;
    if r < 0.8 { Scaled(r, 0.8, w); }
  }

  function LowSuccess(): Event { Success(1, 1000, 0.1) }

  lemma TallySuccess(a: Agent, s: nat, f: nat, v: nat, reputation: real, k: nat)
    requires Tally(a, s, f, v, reputation, k) && reputation >= 12.0 && 5 * (s + 1) >= 4 * (s + 1 + f)
    ensures Tally(Handle(a, None, LowSuccess()).agent, s + 1, f, v, MinR(100.0, reputation + 3.0), 0)
  {
    hide Recorded, CompositeOf, FailStreak, UpdateMetrics, Lifecycle, Cents, Used, LowEfficiency;
    RecordedSuccess(a, 1, 1000, 0.1);
    NextEfficiency(s);
    MostlySuccessful(s + 1, f, v, LowEfficiency(s + 1));
    ScoredAndPlaced(Recorded(a, LowSuccess()));
  }

  lemma NextEfficiency(k: nat)
    ensures LowEfficiency(k + 1) == Used(LowEfficiency(k), 1, 1000, 0.1)
  {}

  lemma TallyFailure(a: Agent, s: nat, f: nat, v: nat, reputation: real, k: nat)
    requires Tally(a, s, f, v, reputation, k) && reputation >= 20.0 && k < 14 && 5 * s >= 4 * (s + f + 1)
    ensures Tally(Handle(a, None, Failure(0, 0)).agent, s, f + 1, v, reputation - 5.0, k + 1)
  {
    hide Recorded, CompositeOf, FailStreak, UpdateMetrics, Lifecycle, Cents, Wasted, LowEfficiency;
    RecordedFailure(a, 0, 0);
    MostlySuccessful(s, f + 1, v, LowEfficiency(s));
    ScoredAndPlaced(Recorded(a, Failure(0, 0)));
  }

  lemma RecordedViolation(a: Agent)
    requires Percent(a.reputation) && Cents(a.reputation) && a.reputation >= 10.0
    ensures var r := Recorded(a, Violation);
            && r == a.(violations := a.violations + 1, history := a.history + [Violated], reputation := a.reputation - 10.0, risk := r.risk)
            && Percent(r.reputation) && Cents(r.reputation) && FailStreak(r.history) == FailStreak(a.history) + 1
  {
    CentsShift(a.reputation, -10);
    StreakGrows(a.history, Violated);
    hide Round2, FailStreak;
    ClampedCents(a.reputation - 10.0);
  }

  lemma TallyViolation(a: Agent, s: nat, f: nat, v: nat, reputation: real, k: nat)
    requires Tally(a, s, f, v, reputation, k) && reputation >= 25.0 && k < 14 && s > 0 && 5 * s >= 4 * (s + f)
    ensures Tally(Handle(a, None, Violation).agent, s, f, v + 1, reputation - 10.0, k + 1)
  {
    hide Recorded, CompositeOf, FailStreak, UpdateMetrics, Lifecycle, Cents, LowEfficiency;
    RecordedViolation(a);
    MostlySuccessful(s, f, v + 1, LowEfficiency(s));
    ScoredAndPlaced(Recorded(a, Violation));
  }

  // Several of one kind in a row.
  lemma {:induction false} Successes(a: Agent, s: nat, f: nat, v: nat, reputation: real, k: nat, n: nat)
    requires Tally(a, s, f, v, reputation, k) && reputation >= 12.0 && n > 0 && 5 * (s + 1) >= 4 * (s + 1 + f)
    ensures Tally(Run(a, Repeat(LowSuccess(), n)), s + n, f, v, MinR(100.0, reputation + 3.0 * n as real), 0)
  {
    hide Handle, Tally;
    if n == 1 {
      RunLast(a, [], Call(LowSuccess(), None));
      assert Repeat(LowSuccess(), 1) == [] + [Call(LowSuccess(), None)];
      TallySuccess(a, s, f, v, reputation, k);
    } else {
      Successes(a, s, f, v, reputation, k, n - 1);
      var b := Run(a, Repeat(LowSuccess(), n - 1));
      TallySuccess(b, s + n - 1, f, v, MinR(100.0, reputation + 3.0 * (n - 1) as real), 0);
      RunLast(a, Repeat(LowSuccess(), n - 1), Call(LowSuccess(), None));
      assert Repeat(LowSuccess(), n) == Repeat(LowSuccess(), n - 1) + [Call(LowSuccess(), None)];
    }
  }

  lemma {:induction false} Failures(a: Agent, s: nat, f: nat, v: nat, reputation: real, k: nat, n: nat)
    requires Tally(a, s, f, v, reputation, k) && reputation >= 15.0 + 5.0 * n as real && k + n < 15 && 5 * s >= 4 * (s + f + n)
    ensures Tally(Run(a, Repeat(Failure(0, 0), n)), s, f + n, v, reputation - 5.0 * n as real, k + n)
  {
    hide Handle, Tally;
    if n > 0 {
      Failures(a, s, f, v, reputation, k, n - 1);
      TallyFailure(Run(a, Repeat(Failure(0, 0), n - 1)), s, f + n - 1, v, reputation - 5.0 * (n - 1) as real, k + n - 1);
      RunLast(a, Repeat(Failure(0, 0), n - 1), Call(Failure(0, 0), None));
      assert Repeat(Failure(0, 0), n) == Repeat(Failure(0, 0), n - 1) + [Call(Failure(0, 0), None)];
    }
  }

  lemma {:induction false} Violations(a: Agent, s: nat, f: nat, v: nat, reputation: real, k: nat, n: nat)
    requires Tally(a, s, f, v, reputation, k) && reputation >= 15.0 + 10.0 * n as real && k + n < 15 && s > 0 && 5 * s >= 4 * (s + f)
    ensures Tally(Run(a, Repeat(Violation, n)), s, f, v + n, reputation - 10.0 * n as real, k + n)
  {
    hide Handle, Tally;
    if n > 0 {
      Violations(a, s, f, v, reputation, k, n - 1);
      TallyViolation(Run(a, Repeat(Violation, n - 1)), s, f, v + n - 1, reputation - 10.0 * (n - 1) as real, k + n - 1);
      RunLast(a, Repeat(Violation, n - 1), Call(Violation, None));
      assert Repeat(Violation, n) == Repeat(Violation, n - 1) + [Call(Violation, None)];
    }
  }

  // One success, six violations, twenty successes, four failures that cost nothing, four violations.
  function Downfall(): seq<Call> {
    Repeat(LowSuccess(), 1) + (Repeat(Violation, 6) + (Repeat(LowSuccess(), 20) + (Repeat(Failure(0, 0), 4) + Repeat(Violation, 4))))
  }

  lemma AfterDownfall(permissions: seq<Action>)
    ensures Tally(Run(NewAgent(permissions), Downfall()), 21, 4, 10, 40.0, 8)
  {
    var a0 := NewAgent(permissions);
    NewTally(permissions);
    hide Tally, Run, Repeat;
    Successes(a0, 0, 0, 0, 100.0, 0, 1);
    var a1 := Run(a0, Repeat(LowSuccess(), 1));
    Violations(a1, 1, 0, 0, 100.0, 0, 6);
    var a2 := Run(a1, Repeat(Violation, 6));
    Successes(a2, 1, 0, 6, 40.0, 6, 20);
    var a3 := Run(a2, Repeat(LowSuccess(), 20));
    Failures(a3, 21, 0, 6, 100.0, 0, 4);
    var a4 := Run(a3, Repeat(Failure(0, 0), 4));
    Violations(a4, 21, 4, 6, 80.0, 4, 4);
    RunJoin(a0, Repeat(LowSuccess(), 1), Repeat(Violation, 6) + (Repeat(LowSuccess(), 20) + (Repeat(Failure(0, 0), 4) + Repeat(Violation, 4))));
    RunJoin(a1, Repeat(Violation, 6), Repeat(LowSuccess(), 20) + (Repeat(Failure(0, 0), 4) + Repeat(Violation, 4)));
    RunJoin(a2, Repeat(LowSuccess(), 20), Repeat(Failure(0, 0), 4) + Repeat(Violation, 4));
    RunJoin(a3, Repeat(Failure(0, 0), 4), Repeat(Violation, 4));
  }

  lemma NewTally(permissions: seq<Action>)
    ensures Tally(NewAgent(permissions), 0, 0, 0, 100.0, 0)
  {
    CentsOf(100.0, 10000);
  }

  lemma DownfallComposite()
    ensures 15.0 <= CompositeOf(21, 4, 10, 0.01) < 30.0
    ensures 30.0 <= CompositeOf(21, 5, 10, 0.1) < 50.0
  {
    CentsOf(0.0, 0);
    CentsOf(29.6, 2960);
    assert Rate(21, 25) == 0.84 && Reliability(0.84, 0.0, None) == 0.0;
    assert CompositeOf(21, 4, 10, 0.01) == Round2(29.6);
    RateBounds(21, 26);
    var rate := Rate(21, 26);
    assert Reliability(rate, 0.0, None) == 0.0;
    var x := 0.35 * (rate * 100.0) + 0.20 * Clamp(0.1 * 100.0);
    Round2Within(Clamp(x), 30, 31);
    hide Round2;
    assert CompositeOf(21, 5, 10, 0.1) == Round2(Clamp(x));
  }

  // Without any record a new agent gets to where one charged failure takes it from suspended back to
  // restricted.
  lemma BadOutcomeHelpsNewAgent(permissions: seq<Action>)
    ensures exists events :: (forall i :: 0 <= i < |events| ==> Outcome(events[i])) &&
              var a := Run(NewAgent(permissions), Bare(events));
              && a.efficiency == 0.01 && a.status == Suspended
              && Handle(a, None, Failure(1, 1)).agent.status == Restricted
  {
    var a := Run(NewAgent(permissions), Downfall());
    AfterDownfall(permissions);
    DownfallIsBare();
    EveryAgentIsCoherentFrom(permissions);
    hide Run, Handle, Downfall, Bare, CompositeOf, Classify, FailStreak, Cents;
    EfficiencyBottoms(21);
    DownfallComposite();
    DownfallStatus(a);
    FailureLifts(a);
    assert a == Run(NewAgent(permissions), Bare(DownfallEvents()));
  }

  function DownfallEvents(): seq<Event> {
    seq(35, i => if i < 1 then LowSuccess() else if i < 7 then Violation else if i < 27 then LowSuccess()
                 else if i < 31 then Failure(0, 0) else Violation)
  }

  lemma DownfallIsBare()
    ensures Downfall() == Bare(DownfallEvents()) && forall i :: 0 <= i < |DownfallEvents()| ==> Outcome(DownfallEvents()[i])
  {}

  lemma EveryAgentIsCoherentFrom(permissions: seq<Action>)
    ensures Coherent(Run(NewAgent(permissions), Bare(DownfallEvents())))
  {
    hide Coherent, Bare, Run;
    NewAgentIsCoherent(permissions);
    DownfallIsBare();
    EveryAgentIsCoherent(NewAgent(permissions), DownfallEvents());
  }

  lemma DownfallStatus(a: Agent)
    requires Coherent(a) && Tally(a, 21, 4, 10, 40.0, 8) && LowEfficiency(21) == 0.01
    requires 15.0 <= CompositeOf(21, 4, 10, 0.01) < 30.0
    ensures a.efficiency == 0.01 && a.status == Suspended
  {
    hide CompositeOf, FailStreak, Cents, LowEfficiency;
  }

  lemma FailureLifts(a: Agent)
    requires Tally(a, 21, 4, 10, 40.0, 8) && LowEfficiency(21) == 0.01 && 30.0 <= CompositeOf(21, 5, 10, 0.1) < 50.0
    ensures Handle(a, None, Failure(1, 1)).agent.status == Restricted
  {
    hide Recorded, CompositeOf, FailStreak, UpdateMetrics, Lifecycle, Cents, Wasted, LowEfficiency;
    RecordedFailure(a, 1, 1);
    WastedLifts(0.01);
    ScoredAndPlaced(Recorded(a, Failure(1, 1)));
  }

  // ---------- the engine over mutable records ----------

  class AgentRecord {
    var reputation: real
    var ceiling: int
    var allowed: seq<Action>
    var status: Status
    var successes: int
    var failures: int
    var violations: int
    var performance: real
    var risk: real
    var efficiency: real
    var reliability: real
    var history: seq<Mark>

    ghost function State(): Agent
      reads this
    {
      Agent(reputation, ceiling, allowed, status, successes, failures, violations, performance, risk, efficiency,
            reliability, history)
    }
  }

  class PerformanceRecord {
    var completed: int
    var failed: int
    var violations: int
    var consumed: int
    var produced: real
    var execSuccesses: int
    var execFailures: int
    var level: int
    var evaluations: int

    ghost function State(): Perf
      reads this
    {
      Perf(completed, failed, violations, consumed, produced, execSuccesses, execFailures, level, evaluations)
    }
  }

  ghost function PerfOf(p: PerformanceRecord?): Option<Perf>
    reads p
  {
    if p == null then None else Some(p.State())
  }

  method ConsecutiveFailures(history: seq<Mark>) returns (count: nat)
    ensures count == FailStreak(history)
  {
    count := 0;
    var i := |history|;
    assert history[..i] == history;
    while i > 0
      invariant 0 <= i <= |history|
      invariant count + FailStreak(history[..i]) == FailStreak(history)
    {
      i := i - 1;
      assert history[..i + 1][..i] == history[..i];
      if Bad(history[i]) { count := count + 1; }
      else if history[i] == Succeeded { return; }
    }
  }

  method UpdateScores(agent: AgentRecord, perf: PerformanceRecord?)
    modifies agent
    ensures agent.State() == UpdateMetrics(old(agent.State()), old(PerfOf(perf)))
  {
    hide Composite, Round2, Clamp, Compliance, TaskReliability;
    var total := agent.successes + agent.failures;
    if total == 0 {
      agent.reliability, agent.performance := 100.0, 100.0;
      return;
    }
    var rate := Rate(agent.successes, total);
    var compliance := Compliance(agent.violations);
    var base := TaskReliability(rate, compliance);
    var ratio := agent.efficiency;
    if perf != null {
      var executions := perf.execSuccesses + perf.execFailures;
      if executions > 0 { base := base * 0.6 + Rate(perf.execSuccesses, executions) * 40.0; }
      if perf.consumed > 0 { ratio := perf.produced / perf.consumed as real; }
    }
    var reliability := Round2(Clamp(base));
    assert reliability == Reliability(rate, compliance, PerfOf(perf));
    assert ratio == EfficiencyRatio(agent.efficiency, PerfOf(perf));
    agent.reliability := reliability;
    agent.performance := Composite(rate, reliability, ratio, compliance);
    agent.reputation := Round2(Clamp(agent.reputation));
    agent.risk := Round2(Clamp(agent.risk));
  }

  method EvaluateLifecycle(agent: AgentRecord, perf: PerformanceRecord?)
    modifies agent, perf
    ensures Ruling(agent.State(), PerfOf(perf)) == Lifecycle(old(agent.State()), old(PerfOf(perf)))
  {
    hide WithoutExternal, FailStreak;
    if agent.status == Retired {
      agent.ceiling, agent.allowed := 0, [];
      if perf != null { perf.level := 0; }
      return;
    }
    var score, composite := agent.reputation, agent.performance;
    var streak := ConsecutiveFailures(agent.history);
    if score < 15.0 || composite < 15.0 || streak >= 15 {
      agent.status, agent.ceiling, agent.allowed := Retired, 0, [];
    } else if score < 30.0 || composite < 30.0 || streak >= 10 {
      agent.status, agent.ceiling, agent.allowed := Suspended, 0, [];
    } else if score < 50.0 || composite < 50.0 || streak >= 6 {
      agent.status, agent.ceiling, agent.allowed := Restricted, 0, WithoutExternal(agent.allowed);
    } else if score < 75.0 || composite < 70.0 || streak >= 3 {
      agent.status, agent.ceiling := Probation, Min(agent.ceiling, 12);
    } else {
      agent.status, agent.ceiling := Active, Max(agent.ceiling, 25);
    }
    if perf != null {
      if agent.status == Active && composite >= 90.0 && perf.evaluations >= 5 {
        perf.level := Min(5, perf.level + 1);
        agent.ceiling := Min(50, 25 + perf.level * 5);
      } else if composite < 60.0 && agent.status != Retired {
        perf.level := Max(1, perf.level - 1);
        agent.ceiling := Max(5, agent.ceiling - 5);
      }
    }
  }

  // Scores first, then the status they call for.
  method Reassess(agent: AgentRecord, perf: PerformanceRecord?)
    modifies agent, perf
    ensures var p := old(PerfOf(perf)); var r := Lifecycle(UpdateMetrics(old(agent.State()), p), p);
            agent.State() == r.agent && PerfOf(perf) == r.perf
  {
    hide UpdateMetrics, Lifecycle;
    UpdateScores(agent, perf);
    EvaluateLifecycle(agent, perf);
  }

  method RecordTaskSuccess(agent: AgentRecord, granted: int, used: int, value: real, perf: PerformanceRecord?)
    modifies agent, perf
    ensures Ruling(agent.State(), PerfOf(perf)) ==
              Handle(old(agent.State()), old(PerfOf(perf)), Success(granted, used, value))
  {
    hide UpdateMetrics, Lifecycle, Round2, Clamp, MinR, MaxR;
    agent.successes := agent.successes + 1;
    agent.history := agent.history + [Succeeded];
    agent.efficiency := Used(agent.efficiency, granted, used, value);
    agent.reputation := MinR(100.0, Round2(agent.reputation + 3.0));
    if perf != null {
      perf.completed := perf.completed + 1;
      perf.consumed := perf.consumed + used;
      perf.produced := perf.produced + value;
      perf.evaluations := perf.evaluations + 1;
    }
    assert agent.State() == Recorded(old(agent.State()), Success(granted, used, value));
    assert PerfOf(perf) == NotedOption(old(PerfOf(perf)), Success(granted, used, value));
    hide Recorded, NotedOption;
    Reassess(agent, perf);
  }

  method RecordTaskFailure(agent: AgentRecord, granted: int, used: int, perf: PerformanceRecord?)
    modifies agent, perf
    ensures Ruling(agent.State(), PerfOf(perf)) == Handle(old(agent.State()), old(PerfOf(perf)), Failure(granted, used))
  {
    hide UpdateMetrics, Lifecycle, Round2, Clamp, MinR, MaxR;
    agent.failures := agent.failures + 1;
    agent.history := agent.history + [Failed];
    if used > 0 { agent.efficiency := Round2(MaxR(0.1, agent.efficiency * 0.85)); }
    agent.reputation := Clamp(Round2(Clamp(agent.reputation) - 5.0));
    if perf != null {
      perf.failed := perf.failed + 1;
      perf.consumed := perf.consumed + used;
      perf.evaluations := perf.evaluations + 1;
    }
    assert agent.State() == Recorded(old(agent.State()), Failure(granted, used));
    assert PerfOf(perf) == NotedOption(old(PerfOf(perf)), Failure(granted, used));
    hide Recorded, NotedOption;
    Reassess(agent, perf);
  }

  method RecordPolicyViolation(agent: AgentRecord, perf: PerformanceRecord?)
    modifies agent, perf
    ensures Ruling(agent.State(), PerfOf(perf)) == Handle(old(agent.State()), old(PerfOf(perf)), Violation)
  {
    hide UpdateMetrics, Lifecycle, Round2, Clamp, MinR, MaxR;
    agent.violations := agent.violations + 1;
    agent.history := agent.history + [Violated];
    agent.reputation := Clamp(Round2(Clamp(agent.reputation) - 10.0));
    agent.risk := MinR(100.0, Round2(agent.risk + 15.0));
    if perf != null {
      perf.violations := perf.violations + 1;
      perf.evaluations := perf.evaluations + 1;
    }
    assert agent.State() == Recorded(old(agent.State()), Violation);
    assert PerfOf(perf) == NotedOption(old(PerfOf(perf)), Violation);
    hide Recorded, NotedOption;
    Reassess(agent, perf);
  }

  method RecordExecutionOutcome(agent: AgentRecord, succeeded: bool, perf: PerformanceRecord?)
    modifies agent, perf
    ensures Ruling(agent.State(), PerfOf(perf)) == Handle(old(agent.State()), old(PerfOf(perf)), ExecutionOutcome(succeeded))
  {
    hide UpdateMetrics, Lifecycle, Round2, Clamp, MinR, MaxR;
    if perf != null {
      if succeeded { perf.execSuccesses := perf.execSuccesses + 1; }
      else { perf.execFailures := perf.execFailures + 1; }
      UpdateScores(agent, perf);
    }
  }

  // `perf` is the stored record, or one just created with default counters.
  method EvaluatePerformance(agent: AgentRecord, perf: PerformanceRecord, completed: int, failed: int, consumed: int,
                             produced: real, violations: int)
    modifies agent, perf
    ensures Ruling(agent.State(), PerfOf(perf)) ==
              Handle(old(agent.State()), Some(old(perf.State())), Evaluation(completed, failed, consumed, produced, violations))
  {
    hide UpdateMetrics, Lifecycle, Round2, Clamp, MinR, MaxR;
    perf.completed, perf.failed := perf.completed + completed, perf.failed + failed;
    perf.consumed, perf.produced := perf.consumed + consumed, perf.produced + produced;
    perf.violations := perf.violations + violations;
    perf.evaluations := perf.evaluations + 1;
    agent.successes, agent.failures, agent.violations := perf.completed, perf.failed, perf.violations;
    assert perf.State() == Noted(old(perf.State()), Evaluation(completed, failed, consumed, produced, violations));
    assert agent.State() == old(agent.State()).(successes := perf.completed, failures := perf.failed, violations := perf.violations);
    hide Noted;
    Reassess(agent, perf);
  }
}
