// What an allocation pass gives each agent, told in scores, credits and ceilings: weights in points, shares
// by the inequalities a floor guarantees, and who is left out.
module AllocatorResults {
  import opened Reputation
  import opened Allocator

  // The mission names the agent's role, looking for finance first, then research, then strategy.
  predicate Suited(role: Role, mission: Mission) {
    || (role == FinancialAnalyst && mission.financial)
    || (role == Researcher && mission.research && !mission.financial)
    || (role == Strategist && mission.strategy && !mission.research && !mission.financial)
  }

  // Points out of two thousand, a suited role counting for three tenths more.
  function Points(m: Member, records: map<string, Record>, suited: bool): real {
    var recorded := m.id in records;
    var performance := if recorded then records[m.id].performance else m.performance;
    var reliability := if recorded then records[m.id].reliability else m.reliability;
    var efficiency := if recorded then records[m.id].efficiency else m.efficiency;
    var compliance := if recorded then records[m.id].compliance else 100.0;
    var points := 6.0 * performance + 5.0 * reliability + 400.0 * (if efficiency < 1.5 then efficiency else 1.5)
                  + 3.0 * compliance + 2.0 * m.reputation;
    if suited then 1.3 * points else points
  }

  // Adaptive weights: fixed for sidelined agents, otherwise the points, but never below a tenth.
  lemma AdaptiveWeightAs(m: Member, records: map<string, Record>, mission: Mission)
    ensures var w := AdaptiveWeight(m, records, mission);
            match m.status
            case Restricted => w == 2.0
            case Probation => w == 8.0
            case _ => var points := Points(m, records, Suited(m.role, mission)); w == (if points > 200.0 then points / 2000.0 else 0.1)
  {
    var r := Scores(m, records);
    var combined := 0.30 * (r.performance / 100.0) + 0.25 * (r.reliability / 100.0) + 0.20 * MinR(1.5, r.efficiency)
                    + 0.15 * (r.compliance / 100.0) + 0.10 * (m.reputation / 100.0);
    assert 2000.0 * combined == Points(m, records, false);
    assert RoleBoost(m.role, mission) == if Suited(m.role, mission) then 1.3 else 1.0;
  }

  // Performance weights: five for a restricted agent, otherwise the composite, but never below one.
  lemma PerformanceWeightAs(m: Member, records: map<string, Record>)
    ensures var w := PerformanceWeight(m, records);
            var composite := if m.id in records then records[m.id].composite else m.performance;
            w == if m.status == Restricted then 5.0 else if composite > 1.0 then composite else 1.0
  {}

  // How much of the treasury adaptive allocation hands out at most.
  lemma ScarcityAs(treasury: nat)
    ensures Scarcity(treasury) == if treasury <= 19 then 0.5 else if treasury <= 49 then 0.75 else 1.0
  {}

  // A weighted share in whole credits: no more than the part its weight is of all weights, of the treasury
  // after damping, and a whole credit below that part only where the agent's ceiling stops it.
  lemma ShareAs(ms: seq<Member>, p: Plan, out: map<string, int>, m: Member)
    requires ms != [] && m in ms && Proportional(ms, p, out)
    ensures m.id in out &&
            var c, top := out[m.id], (if m.ceiling > 0 then m.ceiling else 0);
            var part := Weight(p, m) * p.treasury as real * (if p.strategy.Adaptive? then Scarcity(p.treasury) else 1.0);
            && 0 <= c <= top
            && c as real * Total(ms, p) <= part
            && (c < top ==> part < (c as real + 1.0) * Total(ms, p))
  {
    hide Weight, Total, Damping, Proportional, Scarcity;
    TotalPositive(ms, p);
    WeightPositive(p, m);
    DampingRange(p);
    DampingAs(p);
    var k :| 0 <= k < |ms| && ms[k] == m;
    Allotted(ms, k, p, out);
    ShareBounds(Weight(p, m), Total(ms, p), p.treasury, Damping(p), m.ceiling);
  }

  lemma DampingAs(p: Plan)
    ensures Damping(p) == if p.strategy.Adaptive? then Scarcity(p.treasury) else 1.0
  {}

  lemma ShareBounds(w: real, total: real, treasury: nat, damping: real, ceiling: int)
    requires total > 0.0 && w > 0.0 && 0.0 < damping <= 1.0
    ensures var c, top, part := Share(w, total, treasury, damping, ceiling), (if ceiling > 0 then ceiling else 0), w * treasury as real * damping;
            && 0 <= c <= top && c as real * total <= part && (c < top ==> part < (c as real + 1.0) * total)
  {
    QuotientPart(w, total, treasury as real, damping);
    Scaled(0.0, w, treasury as real);
    Scaled(0.0, w * treasury as real, damping);
    FloorBounds(w / total * treasury as real * damping, total, w * treasury as real * damping, ceiling);
  }

  lemma FloorBounds(q: real, total: real, part: real, ceiling: int)
    requires total > 0.0 && part >= 0.0 && q * total == part
    ensures var c, top := Max(0, Min(ceiling, q.Floor)), (if ceiling > 0 then ceiling else 0);
            && 0 <= c <= top && c as real * total <= part && (c < top ==> part < (c as real + 1.0) * total)
  {
    var c := Max(0, Min(ceiling, q.Floor));
    QuotientNonNegative(q, total, part);
    StillBelow(q, total, part, c);
    if c < Max(0, ceiling) { NextAbove(q, total, part, c); }
  }

  lemma QuotientNonNegative(q: real, total: real, part: real)
    requires total > 0.0 && part >= 0.0 && q * total == part
    ensures q >= 0.0
  {
    if q < 0.0 { Scaled(q, 0.0, total); }
  }

  lemma StillBelow(q: real, total: real, part: real, c: int)
    requires total > 0.0 && q * total == part && c as real <= q
    ensures c as real * total <= part
  {
    Scaled(c as real, q, total);
  }

  lemma NextAbove(q: real, total: real, part: real, c: int)
    requires total > 0.0 && q * total == part && c == q.Floor
    ensures part < (c as real + 1.0) * total
  {
    var next := c as real + 1.0;
    Scaled(q, next, total);
    assert part < next * total;
  }

  lemma QuotientPart(w: real, total: real, t: real, d: real)
    requires total > 0.0
    ensures (w / total * t * d) * total == w * t * d
  {
    var q := w / total;
    assert q * total == w;
    assert (q * t * d) * total == (q * total) * t * d;
  }

  // Equal division: the equal share is the floor of the treasury over the eligible agents, and each gets the
  // least of the limits on it.
  lemma StaticShareAs(m: Member, share: int)
    ensures var c := StaticShare(m, share);
            && c <= share
            && (m.status == Restricted ==> c <= 5 && (c == share || c == 5))
            && (m.status == Probation ==> c <= 12 && c <= m.ceiling && (c == share || c == 12 || c == m.ceiling))
            && (m.status != Restricted && m.status != Probation ==> c <= m.ceiling && (c == share || c == m.ceiling))
  {}

  // The pass is over the agents that are neither suspended nor retired, each of them once.
  lemma EligibleAs(ms: seq<Member>, m: Member)
    ensures m in Filter(ms) <==> m in ms && (m.status == Active || m.status == Probation || m.status == Restricted)
    ensures Distinct(ms) ==> Distinct(Filter(ms))
  {
    FilterIs(ms);
  }
}
