// What recording an outcome does to an agent, told in the source's own numbers: points, weights, thresholds
// and ceilings, with rounding given by what it guarantees rather than by how it is done.
module ReputationResults {
  import opened Ledger
  import opened Reputation

  // r is x to two decimals: a whole number of hundredths, as near as any, and even where two are as near.
  predicate RoundsTo(x: real, r: real) {
    var k := (100.0 * r).Floor;
    100.0 * r == k as real && Near(k, 100.0 * x)
  }

  predicate Near(k: int, y: real) {
    && k as real - 0.5 <= y <= k as real + 0.5
    && (y == k as real - 0.5 || y == k as real + 0.5 ==> k % 2 == 0)
  }

  // x moved into the range of a percentage.
  function Bounded(x: real): real { if x < 0.0 then 0.0 else if x > 100.0 then 100.0 else x }

  lemma Round2Rounds(x: real)
    ensures RoundsTo(x, Round2(x))
  {
    var k := RoundInt(x * 100.0);
    NearRoundInt(100.0 * x);
    hide RoundInt, Near;
    assert 100.0 * Round2(x) == k as real && (k as real).Floor == k;
  }

  lemma NearRoundInt(y: real)
    ensures Near(RoundInt(y), y)
  {}

  lemma NearOne(k: int, m: int, y: real)
    requires Near(k, y) && Near(m, y) && k <= m
    ensures k == m
  {}

  // Two decimals never leave a choice.
  lemma RoundsToOne(x: real, r: real)
    requires RoundsTo(x, r)
    ensures r == Round2(x)
  {
    var k, m := (100.0 * r).Floor, RoundInt(x * 100.0);
    NearRoundInt(100.0 * x);
    hide Near, RoundInt;
    if k <= m { NearOne(k, m, 100.0 * x); } else { NearOne(m, k, 100.0 * x); }
  }

  // A clamp after rounding does nothing that a clamp before it would not.
  lemma ClampRounds(x: real)
    ensures Clamp(Round2(x)) == Round2(Clamp(x)) && Round2(Clamp(Clamp(Round2(x)))) == Round2(Clamp(x))
    ensures x >= 0.0 ==> MinR(100.0, Round2(x)) == Round2(Clamp(x))
  {
    CentsOf(0.0, 0);
    CentsOf(100.0, 10000);
    Round2IsCents(Clamp(x));
    if x <= 0.0 { Round2Monotone(x, 0.0); }
    if x >= 0.0 { Round2Monotone(0.0, x); }
    if x <= 100.0 { Round2Monotone(x, 100.0); }
    if x >= 100.0 { Round2Monotone(100.0, x); }
  }

  lemma BoundedRounds(x: real)
    ensures Clamp(x) == Bounded(x) && RoundsTo(Bounded(x), Round2(Clamp(x)))
  {
    Round2Rounds(Clamp(x));
  }

  // ---------- scores ----------

  // Ten points off for each violation.
  function ComplianceScore(violations: int): real {
    if violations >= 10 then 0.0 else (100 - 10 * violations) as real
  }

  // Success rate, scaled by compliance.
  function TaskScore(rate: real, violations: int): real { rate * ComplianceScore(violations) }

  // Executions on record weigh four parts in ten.
  function WithExecutions(base: real, p: Option<Perf>): real {
    if p.Some? && p.value.execSuccesses + p.value.execFailures > 0
    then 0.6 * base + 40.0 * (p.value.execSuccesses as real / (p.value.execSuccesses + p.value.execFailures) as real)
    else base
  }

  // Value for credits, from the record where it has any.
  function Worth(efficiency: real, p: Option<Perf>): real {
    if p.Some? && p.value.consumed > 0 then p.value.produced / p.value.consumed as real else efficiency
  }

  // The weights of the composite: 35 for the success rate, 25, 20 and 20 for the three percentages.
  function Weighted(rate: real, reliability: real, efficiency: real, compliance: real): real {
    35.0 * rate + 0.25 * reliability + 0.2 * efficiency + 0.2 * compliance
  }

  // The two scores of an agent that has finished tasks: reliability from its success rate, compliance and
  // executions, and the composite.
  ghost predicate ScoredAs(b: Agent, p: Option<Perf>) {
    var total := b.successes + b.failures;
    if total == 0 then b.reliability == 100.0 && b.performance == 100.0
    else
      var rate := b.successes as real / total as real;
      && RoundsTo(Bounded(WithExecutions(TaskScore(rate, b.violations), p)), b.reliability)
      && RoundsTo(Bounded(Weighted(rate, b.reliability, Bounded(100.0 * Worth(b.efficiency, p)), ComplianceScore(b.violations))),
                  b.performance)
  }

  lemma MixedAs(base: real, p: Option<Perf>)
    ensures var tot := if p.Some? then p.value.execSuccesses + p.value.execFailures else 0;
            RoundsTo(Bounded(WithExecutions(base, p)),
                     Round2(Clamp(if tot > 0 then base * 0.6 + Rate(p.value.execSuccesses, tot) * 40.0 else base)))
  {
    BoundedRounds(WithExecutions(base, p));
    hide RoundsTo, Round2, Bounded, Clamp;
  }

  lemma ReliabilityAs(rate: real, violations: int, p: Option<Perf>)
    ensures Compliance(violations) == ComplianceScore(violations)
    ensures RoundsTo(Bounded(WithExecutions(TaskScore(rate, violations), p)), Reliability(rate, Compliance(violations), p))
  {
    hide RoundsTo, Round2, Bounded, Clamp, WithExecutions;
    var base := TaskReliability(rate, Compliance(violations));
    assert base == TaskScore(rate, violations) by { BaseIsProduct(rate, Compliance(violations)); }
    MixedAs(base, p);
    hide TaskReliability, TaskScore;
  }

  lemma CompositeAs(rate: real, reliability: real, ratio: real, compliance: real)
    ensures RoundsTo(Bounded(Weighted(rate, reliability, Bounded(100.0 * ratio), compliance)),
                     Composite(rate, reliability, ratio, compliance))
  {
    BoundedRounds(ratio * 100.0);
    BoundedRounds(0.35 * (rate * 100.0) + 0.25 * reliability + 0.20 * Clamp(ratio * 100.0) + 0.20 * compliance);
    hide RoundsTo, Round2, Bounded, Clamp;
  }

  lemma WorthIs(efficiency: real, p: Option<Perf>)
    ensures EfficiencyRatio(efficiency, p) == Worth(efficiency, p)
  {}

  lemma UpdateScoresAs(a: Agent, p: Option<Perf>)
    ensures ScoredAs(UpdateMetrics(a, p), p)
    ensures var b := UpdateMetrics(a, p);
            b == a.(reliability := b.reliability, performance := b.performance, reputation := b.reputation, risk := b.risk)
  {
    hide RoundsTo, Bounded, Composite, Reliability, Compliance, ComplianceScore, Round2, Clamp, WithExecutions, Worth, Weighted, TaskScore;
    var total := a.successes + a.failures;
    if total != 0 {
      var rate := Rate(a.successes, total);
      ReliabilityAs(rate, a.violations, p);
      WorthIs(a.efficiency, p);
      CompositeAs(rate, Reliability(rate, Compliance(a.violations), p), Worth(a.efficiency, p), Compliance(a.violations));
    }
  }

  // ---------- the lifecycle ----------

  // Everything from j on came after the last success.
  predicate SinceSuccess(h: seq<Mark>, j: nat) {
    j <= |h| && (j == 0 || h[j - 1] == Succeeded) && forall i :: j <= i < |h| ==> h[i] != Succeeded
  }

  ghost function BadFrom(h: seq<Mark>, j: nat): set<nat> {
    set i: nat | j <= i < |h| && Bad(h[i])
  }

  // The streak counts the bad outcomes since the last success, whatever else lies between them.
  lemma {:induction false} StreakCounts(h: seq<Mark>, j: nat)
    requires SinceSuccess(h, j)
    ensures FailStreak(h) == |BadFrom(h, j)|
  {
    var n := |h| - 1;
    if j <= n {
      StreakCounts(h[..n], j);
      assert BadFrom(h, j) == BadFrom(h[..n], j) + (if Bad(h[n]) then {n} else {});
    } else {
      assert BadFrom(h, j) == {};
    }
  }

  // Where the lifecycle puts an agent: its status by scores and streak, its ceiling and permissions by its
  // status, its level by its scores. `a` is the agent before the outcome, `p` the record with it noted.
  ghost predicate PlacedAs(a: Agent, p: Option<Perf>, r: Ruling) {
    var b, streak := r.agent, FailStreak(r.agent.history);
    var promoted := p.Some? && b.status == Active && b.performance >= 90.0 && p.value.evaluations >= 5;
    var demoted := p.Some? && b.status != Retired && b.performance < 60.0;
    && (b.status == Active <==> a.status != Retired && b.reputation >= 75.0 && b.performance >= 70.0 && streak <= 2)
    && (b.status == Active || b.status == Probation <==>
          a.status != Retired && b.reputation >= 50.0 && b.performance >= 50.0 && streak <= 5)
    && (b.status == Suspended || b.status == Retired <==>
          a.status == Retired || b.reputation < 30.0 || b.performance < 30.0 || streak >= 10)
    && (b.status == Retired <==> a.status == Retired || b.reputation < 15.0 || b.performance < 15.0 || streak >= 15)
    && b.ceiling == (match b.status
                     case Active => if promoted then Min(50, 25 + 5 * Min(5, p.value.level + 1)) else Max(a.ceiling, 25)
                     case Probation => if demoted then Max(5, Min(a.ceiling, 12) - 5) else Min(a.ceiling, 12)
                     case Retired => 0
                     case _ => if demoted then 5 else 0)
    && (b.status == Suspended || b.status == Retired ==> b.allowed == [])
    && (b.status == Restricted ==> forall x :: x in b.allowed <==> x in a.allowed && !External(x))
    && (b.status == Probation || b.status == Active ==> b.allowed == a.allowed)
    && (p.None? <==> r.perf.None?)
    && (p.Some? ==>
          r.perf == Some(p.value.(level := if a.status == Retired then 0
                                           else if promoted then Min(5, p.value.level + 1)
                                           else if demoted then Max(1, p.value.level - 1)
                                           else p.value.level)))
  }

  // It looks at nothing else and changes nothing else.
  lemma LifecycleAs(m: Agent, p: Option<Perf>)
    ensures var r := Lifecycle(m, p);
            && PlacedAs(m, p, r)
            && r.agent == m.(status := r.agent.status, ceiling := r.agent.ceiling, allowed := r.agent.allowed)
  {
    WithoutExternalIs(m.allowed);
    hide FailStreak, WithoutExternal;
  }

  // ---------- the recorders ----------

  // Tasks and violations on record, and the history, after one more of each kind.
  ghost predicate Tallied(a: Agent, b: Agent, successes: int, failures: int, violations: int, mark: Mark) {
    && b.successes == a.successes + successes && b.failures == a.failures + failures
    && b.violations == a.violations + violations && b.history == a.history + [mark]
  }

  // Scores follow the tally, and place and level follow the scores.
  ghost predicate Reassessed(a: Agent, noted: Option<Perf>, r: Ruling) {
    ScoredAs(r.agent, noted) && PlacedAs(a, noted, r)
  }

  // Status, ceiling and permissions before the outcome are all PlacedAs reads of the earlier agent.
  lemma PlacedFrom(a: Agent, m: Agent, p: Option<Perf>, r: Ruling)
    requires m.status == a.status && m.ceiling == a.ceiling && m.allowed == a.allowed && PlacedAs(m, p, r)
    ensures PlacedAs(a, p, r)
  {
    hide FailStreak;
  }

  // Scores then place: what every recorder ends with, given the agent with the outcome written in.
  lemma ReassessedAs(a: Agent, written: Agent, p: Option<Perf>)
    requires written.status == a.status && written.ceiling == a.ceiling && written.allowed == a.allowed
    ensures var m, r := UpdateMetrics(written, p), Lifecycle(UpdateMetrics(written, p), p);
            && Reassessed(a, p, r)
            && r.agent.successes == written.successes && r.agent.failures == written.failures
            && r.agent.violations == written.violations && r.agent.history == written.history
            && r.agent.efficiency == written.efficiency
            && r.agent.reputation == m.reputation && r.agent.risk == m.risk
  {
    hide PlacedAs, Lifecycle, FailStreak, UpdateMetrics;
    UpdateScoresAs(written, p);
    var m := UpdateMetrics(written, p);
    LifecycleAs(m, p);
    PlacedFrom(a, m, p, Lifecycle(m, p));
    SameScores(m, Lifecycle(m, p).agent, p);
    hide ScoredAs;
  }

  lemma SameScores(m: Agent, b: Agent, p: Option<Perf>)
    requires ScoredAs(m, p) && b == m.(status := b.status, ceiling := b.ceiling, allowed := b.allowed)
    ensures ScoredAs(b, p)
  {
    hide RoundsTo, Bounded, Weighted, WithExecutions, Worth, TaskScore, ComplianceScore;
  }

  // The scores UpdateMetrics keeps in range.
  lemma RangedAs(written: Agent, p: Option<Perf>)
    ensures var m := UpdateMetrics(written, p);
            if written.successes + written.failures == 0 then m.reputation == written.reputation && m.risk == written.risk
            else m.reputation == Round2(Clamp(written.reputation)) && m.risk == Round2(Clamp(written.risk))
  {
    hide Round2, Clamp, Composite, Reliability;
  }

  // A failure costs five points, and a charged one may lower the efficiency to no less than a tenth.
  lemma FailureCosts(a: Agent, p: Option<Perf>, granted: int, used: int)
    requires a.successes >= 0 && a.failures >= 0
    ensures var r := Handle(a, p, Failure(granted, used));
            var noted := if p.Some? then Some(p.value.(failed := p.value.failed + 1, consumed := p.value.consumed + used,
                                                       evaluations := p.value.evaluations + 1)) else None;
            && Tallied(a, r.agent, 0, 1, 0, Failed) && Reassessed(a, noted, r)
            && RoundsTo(Bounded(Bounded(a.reputation) - 5.0), r.agent.reputation)
            && RoundsTo(Bounded(a.risk), r.agent.risk)
            && (if used > 0 then RoundsTo(MaxR(0.1, 0.85 * a.efficiency), r.agent.efficiency)
                else r.agent.efficiency == a.efficiency)
  {
    hide Lifecycle, UpdateMetrics, Round2, Reassessed, RoundsTo;
    var e := Failure(granted, used);
    ReassessedAs(a, Recorded(a, e), NotedOption(p, e));
    RangedAs(Recorded(a, e), NotedOption(p, e));
    BoundedRounds(a.risk);
    BoundedRounds(a.reputation);
    BoundedRounds(Clamp(a.reputation) - 5.0);
    ClampRounds(Clamp(a.reputation) - 5.0);
    Round2Rounds(MaxR(0.1, a.efficiency * 0.85));
  }

  // A violation costs ten points and adds fifteen to the risk.
  lemma ViolationCosts(a: Agent, p: Option<Perf>)
    requires a.risk >= 0.0
    ensures var r := Handle(a, p, Violation);
            var noted := if p.Some? then Some(p.value.(violations := p.value.violations + 1, evaluations := p.value.evaluations + 1))
                         else None;
            && Tallied(a, r.agent, 0, 0, 1, Violated) && Reassessed(a, noted, r)
            && RoundsTo(Bounded(Bounded(a.reputation) - 10.0), r.agent.reputation)
            && RoundsTo(Bounded(a.risk + 15.0), r.agent.risk)
            && r.agent.efficiency == a.efficiency
  {
    hide Lifecycle, UpdateMetrics, Round2, Reassessed, RoundsTo;
    ReassessedAs(a, Recorded(a, Violation), NotedOption(p, Violation));
    RangedAs(Recorded(a, Violation), NotedOption(p, Violation));
    BoundedRounds(a.reputation);
    BoundedRounds(Clamp(a.reputation) - 10.0);
    ClampRounds(Clamp(a.reputation) - 10.0);
    BoundedRounds(a.risk + 15.0);
    ClampRounds(a.risk + 15.0);
    RoundAgain(a.risk + 15.0);
  }

  lemma RoundAgain(x: real)
    ensures Round2(Clamp(Round2(Clamp(x)))) == Round2(Clamp(x))
  {
    ClampRounds(Clamp(x));
    hide Round2;
  }

  // A success gains three points, and moves the efficiency three tenths of the way to what was used.
  lemma SuccessGains(a: Agent, p: Option<Perf>, granted: int, used: int, value: real)
    requires a.successes >= 0 && a.failures >= 0
    ensures var r := Handle(a, p, Success(granted, used, value));
            var noted := if p.Some? then Some(p.value.(completed := p.value.completed + 1, consumed := p.value.consumed + used,
                                                       produced := p.value.produced + value,
                                                       evaluations := p.value.evaluations + 1)) else None;
            && Tallied(a, r.agent, 1, 0, 0, Succeeded) && Reassessed(a, noted, r)
            && RoundsTo(Bounded(a.reputation + 3.0), r.agent.reputation)
            && RoundsTo(Bounded(a.risk), r.agent.risk)
            && (if granted > 0 && used >= 0
                then RoundsTo(0.7 * a.efficiency + 0.3 * MinR(2.0, MaxR(0.0, (granted as real / Max(1, used) as real) * MaxR(0.1, value))),
                              r.agent.efficiency)
                else r.agent.efficiency == a.efficiency)
  {
    hide Lifecycle, UpdateMetrics, Round2, Reassessed, RoundsTo;
    var e := Success(granted, used, value);
    ReassessedAs(a, Recorded(a, e), NotedOption(p, e));
    RangedAs(Recorded(a, e), NotedOption(p, e));
    BoundedRounds(a.risk);
    BoundedRounds(a.reputation + 3.0);
    CappedRounds(a.reputation + 3.0);
    Round2Rounds(0.7 * a.efficiency + 0.3 * MinR(2.0, MaxR(0.0, (granted as real / Max(1, used) as real) * MaxR(0.1, value))));
  }

  lemma CappedRounds(x: real)
    ensures Round2(Clamp(MinR(100.0, Round2(x)))) == Round2(Clamp(x))
  {
    ClampRounds(x);
    hide Round2;
    assert Clamp(MinR(100.0, Round2(x))) == Clamp(Round2(x));
  }

  // A stored evaluation makes the record's counters the agent's own; without a record it starts one.
  lemma EvaluationOverwrites(a: Agent, p: Option<Perf>, completed: int, failed: int, consumed: int, produced: real, violations: int)
    ensures var r := Handle(a, p, Evaluation(completed, failed, consumed, produced, violations));
            var kept := if p.Some? then p.value else Perf(0, 0, 0, 0, 0.0, 0, 0, 1, 0);
            var noted := kept.(completed := kept.completed + completed, failed := kept.failed + failed,
                              consumed := kept.consumed + consumed, produced := kept.produced + produced,
                              violations := kept.violations + violations, evaluations := kept.evaluations + 1);
            && Reassessed(a, Some(noted), r)
            && r.agent.successes == noted.completed && r.agent.failures == noted.failed && r.agent.violations == noted.violations
            && r.agent.history == a.history && r.agent.efficiency == a.efficiency
            && (noted.completed + noted.failed != 0 ==>
                  RoundsTo(Bounded(a.reputation), r.agent.reputation) && RoundsTo(Bounded(a.risk), r.agent.risk))
            && (noted.completed + noted.failed == 0 ==> r.agent.reputation == a.reputation && r.agent.risk == a.risk)
  {
    hide Lifecycle, UpdateMetrics, Round2, Reassessed, RoundsTo;
    var e := Evaluation(completed, failed, consumed, produced, violations);
    var q := Noted(if p.Some? then p.value else Fresh(), e);
    var written := a.(successes := q.completed, failures := q.failed, violations := q.violations);
    ReassessedAs(a, written, Some(q));
    RangedAs(written, Some(q));
    BoundedRounds(a.risk);
    BoundedRounds(a.reputation);
  }

  // An execution counts for reliability only, and only on a record; the lifecycle is not consulted.
  lemma ExecutionOutcomeCounts(a: Agent, p: Option<Perf>, succeeded: bool)
    ensures var r := Handle(a, p, ExecutionOutcome(succeeded));
            && r.agent.status == a.status && r.agent.ceiling == a.ceiling && r.agent.allowed == a.allowed
            && r.agent.successes == a.successes && r.agent.failures == a.failures && r.agent.violations == a.violations
            && r.agent.history == a.history && r.agent.efficiency == a.efficiency
            && (p.None? ==> r == Ruling(a, None))
            && (p.Some? ==>
                  && r.perf == Some(if succeeded then p.value.(execSuccesses := p.value.execSuccesses + 1)
                                    else p.value.(execFailures := p.value.execFailures + 1))
                  && ScoredAs(r.agent, r.perf))
  {
    hide UpdateMetrics, ScoredAs;
    UpdateScoresAs(a, NotedOption(p, ExecutionOutcome(succeeded)));
  }

  // ---------- the default policy ----------

  // A proposal passes the default rules exactly when the organisation runs, the agent's status lets it act, the
  // treasury and its ceiling cover the credits, the action is permitted, and no specialised rule objects.
  lemma DefaultRulesIff(others: seq<Rule>, x: Proposal, a: Agent, paused: bool, treasury: int)
    ensures Passes(DefaultRules(others), x, a, paused, treasury) <==>
              && !paused && x.credits <= treasury && x.credits <= a.ceiling && x.action in a.allowed
              && (match a.status
                  case Active => true
                  case Probation => true
                  case Restricted => x.action == InternalAnalysis && x.credits == 0
                  case Suspended => false
                  case Retired => false)
              && forall r :: r in others ==> !Violates(r, x, a, paused, treasury)
  {
    var rules := DefaultRules(others);
    assert forall r :: r in rules <==> r in others || r in [OrgPauseRule, AgentStatusRule, TreasuryBalanceRule, SpendLimitRule, RolePermissionRule];
    assert OrgPauseRule in rules && AgentStatusRule in rules && TreasuryBalanceRule in rules && SpendLimitRule in rules && RolePermissionRule in rules;
    hide DefaultRules;
  }
}
