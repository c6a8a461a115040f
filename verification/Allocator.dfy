// Credit allocation: equal division, and proportional floor shares under performance or adaptive
// weights. Scores and weights are exact reals.
module Allocator {
  import opened Ledger
  import opened Reputation

  datatype Role = FinancialAnalyst | Researcher | Strategist | OtherRole

  datatype Member = Member(id: string, role: Role, status: Status, ceiling: int, performance: real, reliability: real,
                           efficiency: real, reputation: real)

  datatype Record = Record(composite: real, performance: real, reliability: real, efficiency: real, compliance: real)

  // Which keyword groups the mission type mentions.
  datatype Mission = Mission(financial: bool, research: bool, strategy: bool)

  datatype Strategy = Static | Performance | Adaptive(mission: Mission)

  // ---------- weights ----------

  // The scores that count: an agent's record if there is one, else its own fields.
  function Scores(m: Member, records: map<string, Record>): Record {
    if m.id in records then records[m.id] else Record(m.performance, m.performance, m.reliability, m.efficiency, 100.0)
  }

  function PerformanceWeight(m: Member, records: map<string, Record>): real {
    if m.status == Restricted then 5.0 else MaxR(1.0, Scores(m, records).composite)
  }

  function RoleBoost(role: Role, mission: Mission): real {
    if mission.financial then (if role == FinancialAnalyst then 1.3 else 1.0)
    else if mission.research then (if role == Researcher then 1.3 else 1.0)
    else if mission.strategy then (if role == Strategist then 1.3 else 1.0)
    else 1.0
  }

  function AdaptiveWeight(m: Member, records: map<string, Record>, mission: Mission): real {
    if m.status == Restricted then 2.0
    else if m.status == Probation then 8.0
    else
      var r := Scores(m, records);
      var combined := 0.30 * (r.performance / 100.0) + 0.25 * (r.reliability / 100.0) + 0.20 * MinR(1.5, r.efficiency)
                      + 0.15 * (r.compliance / 100.0) + 0.10 * (m.reputation / 100.0);
      MaxR(0.1, combined * RoleBoost(m.role, mission))
  }

  function Scarcity(treasury: nat): real {
    if treasury >= 50 then 1.0 else if treasury < 20 then 0.5 else 0.75
  }

  // What one weighted allocation pass depends on besides the agents.
  datatype Plan = Plan(strategy: Strategy, records: map<string, Record>, treasury: nat)

  function Weight(p: Plan, m: Member): real {
    if p.strategy.Adaptive? then AdaptiveWeight(m, p.records, p.strategy.mission) else PerformanceWeight(m, p.records)
  }

  function Damping(p: Plan): real {
    if p.strategy.Adaptive? then Scarcity(p.treasury) else 1.0
  }

  lemma DampingRange(p: Plan)
    ensures 0.0 < Damping(p) <= 1.0
  {}

  lemma WeightPositive(p: Plan, m: Member)
    ensures Weight(p, m) > 0.0
  {}

  // With every score in range, the fixed weights of sidelined agents outrank any active agent's.
  lemma SidelinedOutweighActive(m: Member, other: Member, records: map<string, Record>, mission: Mission)
    requires m.status == Active && (other.status == Restricted || other.status == Probation)
    requires m.performance <= 100.0 && m.reliability <= 100.0 && m.reputation <= 100.0
    requires m.id in records ==>
               var r := records[m.id]; r.performance <= 100.0 && r.reliability <= 100.0 && r.compliance <= 100.0
    ensures AdaptiveWeight(m, records, mission) < AdaptiveWeight(other, records, mission)
  {
    var r := Scores(m, records);
    var combined := 0.30 * (r.performance / 100.0) + 0.25 * (r.reliability / 100.0) + 0.20 * MinR(1.5, r.efficiency)
                    + 0.15 * (r.compliance / 100.0) + 0.10 * (m.reputation / 100.0);
    assert combined <= 1.1;
    if combined >= 0.0 { ProductMonotone(1.1, 1.3, combined, RoleBoost(m.role, mission)); }
    else { Scaled(combined, 0.0, RoleBoost(m.role, mission)); }
  }

  // ---------- proportional shares ----------

  function Total(ms: seq<Member>, p: Plan): real {
    if ms == [] then 0.0 else Total(ms[..|ms| - 1], p) + Weight(p, ms[|ms| - 1])
  }

  lemma TotalPush(ms: seq<Member>, m: Member, p: Plan)
    ensures Total(ms + [m], p) == Total(ms, p) + Weight(p, m)
  {
    assert (ms + [m])[..|ms|] == ms;
  }

  lemma {:induction false} TotalRemove(ms: seq<Member>, i: nat, p: Plan)
    requires i < |ms|
    ensures Total(ms, p) == Total(ms[..i] + ms[i + 1..], p) + Weight(p, ms[i])
    decreases |ms|
  {
    hide Weight;
    var last := |ms| - 1;
    if i == last { assert ms[..i] + ms[i + 1..] == ms[..last]; }
    else {
      var rest := ms[..last];
      TotalRemove(rest, i, p);
      assert ms[..i] + ms[i + 1..] == (rest[..i] + rest[i + 1..]) + [ms[last]];
      TotalPush(rest[..i] + rest[i + 1..], ms[last], p);
    }
  }

  lemma {:induction false} TotalPositive(ms: seq<Member>, p: Plan)
    ensures Total(ms, p) >= 0.0 && (ms != [] ==> Total(ms, p) > 0.0)
    decreases |ms|
  {
    if ms != [] {
      TotalPositive(ms[..|ms| - 1], p);
      WeightPositive(p, ms[|ms| - 1]);
    }
  }

  lemma RemoveBoth(x: seq<Member>, y: seq<Member>, i: nat)
    requires x != [] && i < |y| && y[i] == x[|x| - 1] && multiset(x) == multiset(y)
    ensures multiset(x[..|x| - 1]) == multiset(y[..i] + y[i + 1..])
  {
    var m := y[i];
    assert x == x[..|x| - 1] + [m];
    assert y == (y[..i] + [m]) + y[i + 1..];
    assert multiset(x[..|x| - 1]) == multiset(x) - multiset{m};
    assert multiset(y[..i] + y[i + 1..]) == multiset(y) - multiset{m};
  }

  // The total does not depend on the order the agents come in.
  lemma {:induction false} TotalPermutes(x: seq<Member>, y: seq<Member>, p: Plan)
    requires multiset(x) == multiset(y)
    ensures Total(x, p) == Total(y, p)
    decreases |x|
  {
    assert |x| == |multiset(x)| == |multiset(y)| == |y|;
    if x != [] {
      var m := x[|x| - 1];
      assert m in multiset(x);
      var i :| 0 <= i < |y| && y[i] == m;
      var rest := x[..|x| - 1];
      RemoveBoth(x, y, i);
      TotalPermutes(rest, y[..i] + y[i + 1..], p);
      TotalRemove(y, i, p);
    }
  }

  function Target(w: real, total: real, treasury: nat, damping: real): int
    requires total > 0.0
  {
    (w / total * treasury as real * damping).Floor
  }

  function Share(w: real, total: real, treasury: nat, damping: real, ceiling: int): (r: nat)
    requires total > 0.0
  {
    Max(0, Min(ceiling, Target(w, total, treasury, damping)))
  }

  // One agent's credits, given the sum of all weights.
  function Allotment(p: Plan, m: Member, total: real): (r: nat)
    requires total > 0.0
  {
    Share(Weight(p, m), total, p.treasury, Damping(p), m.ceiling)
  }

  ghost predicate Distinct(ms: seq<Member>) {
    forall i, j :: 0 <= i < j < |ms| ==> ms[i].id != ms[j].id
  }

  // The allocation without any remaining-budget clamp and without any order.
  ghost predicate Proportional(ms: seq<Member>, p: Plan, out: map<string, int>)
    requires ms != []
  {
    TotalPositive(ms, p);
    && (forall id :: id in out <==> exists m :: m in ms && m.id == id)
    && (forall m :: m in ms ==>
          out[m.id] == Allotment(p, m, Total(ms, p)))
  }

  // Two proportional allocations of the same agents in any two orders are the same.
  lemma OrderDoesNotMatter(x: seq<Member>, y: seq<Member>, p: Plan,
                           a: map<string, int>, b: map<string, int>)
    requires x != [] && y != [] && multiset(x) == multiset(y)
    requires Proportional(x, p, a) && Proportional(y, p, b)
    ensures a == b
  {
    TotalPermutes(x, y, p);
    assert forall m :: m in x <==> m in multiset(x);
    assert forall m :: m in y <==> m in multiset(y);
    assert forall m :: m in x <==> m in y;
    assert a.Keys == b.Keys;
    forall id | id in a ensures a[id] == b[id] {
      var m :| m in x && m.id == id;
      assert m in y;
    }
  }

  // ---------- the proportional loop ----------

  // Credits per unit of weight.
  function Unit(total: real, treasury: nat, damping: real): real
    requires total > 0.0
  {
    treasury as real * damping / total
  }

  lemma UnitFacts(total: real, treasury: nat, damping: real)
    requires total > 0.0 && 0.0 < damping <= 1.0
    ensures Unit(total, treasury, damping) >= 0.0
    ensures total * Unit(total, treasury, damping) <= treasury as real
  {
    var x := treasury as real * damping;
    Scaled(damping, 1.0, treasury as real);
    assert x >= 0.0 && x / total * total == x;
  }

  lemma TargetWithin(w: real, total: real, treasury: nat, damping: real)
    requires total > 0.0 && w >= 0.0 && 0.0 < damping <= 1.0
    ensures 0 <= Target(w, total, treasury, damping)
    ensures Target(w, total, treasury, damping) as real <= w * Unit(total, treasury, damping)
  {
    Regroup(w, total, treasury as real, damping);
    UnitFacts(total, treasury, damping);
    Scaled(0.0, w, Unit(total, treasury, damping));
  }

  lemma Regroup(w: real, total: real, t: real, d: real)
    requires total > 0.0
    ensures w / total * t * d == w * (t * d / total)
  {
    var q := w / total;
    var u := t * d / total;
    assert w == q * total && t * d == u * total;
    assert q * t * d == q * (t * d);
    assert q * (u * total) == (q * total) * u;
  }

  // One pass of the loop: the remaining budget always covers the capped target, so the clamp
  // returns it unchanged.
  lemma ClampNeverBinds(done: real, w: real, total: real, treasury: nat, damping: real, ceiling: int, soFar: int)
    requires total > 0.0 && w >= 0.0 && done >= 0.0 && done + w <= total && 0.0 < damping <= 1.0
    requires soFar as real <= done * Unit(total, treasury, damping)
    ensures var target := Target(w, total, treasury, damping); var share := Min(ceiling, target);
            Max(0, Min(share, treasury - soFar)) == Share(w, total, treasury, damping, ceiling)
    ensures (soFar + Share(w, total, treasury, damping, ceiling)) as real <= (done + w) * Unit(total, treasury, damping)
  {
    var u := Unit(total, treasury, damping);
    TargetWithin(w, total, treasury, damping);
    UnitFacts(total, treasury, damping);
    assert (done + w) * u == done * u + w * u;
    Scaled(done + w, total, u);
  }

  function Got(out: map<string, int>, id: string): int { if id in out then out[id] else 0 }

  // Credits given to the first n agents.
  function SumOut(ms: seq<Member>, n: nat, out: map<string, int>): int
    requires n <= |ms|
  {
    if n == 0 then 0 else SumOut(ms, n - 1, out) + Got(out, ms[n - 1].id)
  }

  lemma {:induction false} SumOutAdd(ms: seq<Member>, n: nat, out: map<string, int>, i: nat, v: int)
    requires Distinct(ms) && n <= i < |ms|
    ensures SumOut(ms, n, out[ms[i].id := v]) == SumOut(ms, n, out)
  {
    if n > 0 { SumOutAdd(ms, n - 1, out, i, v); }
  }

  method TotalWeight(ms: seq<Member>, p: Plan) returns (total: real)
    ensures total == Total(ms, p)
  {
    hide Weight;
    total := 0.0;
    for i := 0 to |ms|
      invariant total == Total(ms[..i], p)
    {
      TotalPush(ms[..i], ms[i], p);
      assert ms[..i + 1] == ms[..i] + [ms[i]];
      total := total + Weight(p, ms[i]);
    }
    assert ms[..|ms|] == ms;
  }

  // What the loop below has written after the first i agents.
  ghost predicate Filled(order: seq<Member>, i: nat, p: Plan, total: real, out: map<string, int>)
    requires i <= |order| && total > 0.0
  {
    && (forall id :: id in out ==> exists k :: 0 <= k < i && order[k].id == id)
    && (forall k :: 0 <= k < i ==> order[k].id in out && out[order[k].id] == Allotment(p, order[k], total))
  }

  lemma FillOne(order: seq<Member>, i: nat, p: Plan, total: real, out: map<string, int>)
    requires i < |order| && total > 0.0 && Distinct(order) && Filled(order, i, p, total, out)
    ensures Filled(order, i + 1, p, total, out[order[i].id := Allotment(p, order[i], total)])
  {
    hide Allotment;
    var out' := out[order[i].id := Allotment(p, order[i], total)];
    forall id | id in out' ensures exists k :: 0 <= k < i + 1 && order[k].id == id {
      if id != order[i].id {
        var k :| 0 <= k < i && order[k].id == id;
      }
    }
  }

  lemma FilledAll(order: seq<Member>, ms: seq<Member>, p: Plan, out: map<string, int>)
    requires ms != [] && multiset(order) == multiset(ms) && Total(ms, p) > 0.0
    requires Filled(order, |order|, p, Total(ms, p), out)
    ensures Proportional(ms, p, out)
  {
    hide Allotment, Total;
    SameMembers(order, ms);
    forall id ensures id in out <==> exists m :: m in ms && m.id == id {
      if id in out {
        var k :| 0 <= k < |order| && order[k].id == id;
        assert order[k] in order;
      }
    }
  }

  // Serves both weighted strategies. `order` is the score-sorted list of the eligible agents; any
  // permutation gives the same allocation.
  method Distribute(ms: seq<Member>, order: seq<Member>, p: Plan) returns (out: map<string, int>)
    requires ms != [] && Distinct(order) && multiset(order) == multiset(ms)
    ensures Proportional(ms, p, out)
    ensures SumOut(order, |order|, out) <= p.treasury
  {
    hide Weight, Damping, Total, Proportional, Filled, Unit, SumOut, Distinct, Target;
    var total := TotalWeight(ms, p);
    TotalPositive(ms, p);
    TotalPermutes(order, ms, p);
    var damping := Damping(p);
    DampingRange(p);
    var soFar := 0;
    out := map[];
    NothingYet(order, p, total);
    for i := 0 to |order|
      invariant Filled(order, i, p, total, out)
      invariant soFar == SumOut(order, i, out)
      invariant soFar as real <= Total(order[..i], p) * Unit(total, p.treasury, damping)
    {
      var m := order[i];
      var w := Weight(p, m);
      OneMore(order, i, p);
      ClampNeverBinds(Total(order[..i], p), w, total, p.treasury, damping, m.ceiling, soFar);
      var target := Target(w, total, p.treasury, damping);
      var share := Min(m.ceiling, target);
      var final := Max(0, Min(share, p.treasury - soFar));
      FillOne(order, i, p, total, out);
      SumOutOne(order, i, out, final);
      out := out[m.id := final];
      soFar := soFar + final;
    }
    assert order[..|order|] == order;
    UnitFacts(total, p.treasury, damping);
    FilledAll(order, ms, p, out);
  }

  lemma NothingYet(order: seq<Member>, p: Plan, total: real)
    requires total > 0.0
    ensures Filled(order, 0, p, total, map[]) && Total(order[..0], p) == 0.0 && SumOut(order, 0, map[]) == 0
  {}

  lemma SumOutOne(ms: seq<Member>, i: nat, out: map<string, int>, v: int)
    requires Distinct(ms) && i < |ms|
    ensures SumOut(ms, i + 1, out[ms[i].id := v]) == SumOut(ms, i, out) + v
  {
    SumOutAdd(ms, i, out, i, v);
  }

  lemma OneMore(order: seq<Member>, i: nat, p: Plan)
    requires i < |order|
    ensures Total(order[..i + 1], p) == Total(order[..i], p) + Weight(p, order[i]) <= Total(order, p)
    ensures Weight(p, order[i]) > 0.0 && Total(order[..i], p) >= 0.0
  {
    hide Weight;
    WeightPositive(p, order[i]);
    TotalPush(order[..i], order[i], p);
    assert order[..i + 1] == order[..i] + [order[i]];
    PrefixTotal(order, i + 1, p);
    TotalPositive(order[..i], p);
  }

  lemma SameMembers(x: seq<Member>, y: seq<Member>)
    requires multiset(x) == multiset(y)
    ensures forall m :: m in x <==> m in y
  {
    assert forall m :: m in x <==> m in multiset(x);
    assert forall m :: m in y <==> m in multiset(y);
  }

  lemma {:induction false} PrefixTotal(ms: seq<Member>, i: nat, p: Plan)
    requires i <= |ms|
    ensures Total(ms[..i], p) <= Total(ms, p)
    decreases |ms|
  {
    if i == |ms| { assert ms[..i] == ms; }
    else {
      var rest := ms[..|ms| - 1];
      assert rest[..i] == ms[..i];
      PrefixTotal(rest, i, p);
      WeightPositive(p, ms[|ms| - 1]);
    }
  }

  // ---------- monotonicity ----------

  lemma RatioMonotone(w: real, v: real, rest: real)
    requires 0.0 < w <= v && rest >= 0.0
    ensures w / (w + rest) <= v / (v + rest)
  {
    var x, y := w + rest, v + rest;
    var p, q := w / x, v / y;
    assert p * x == w && q * y == v;
    assert p * (x * y) == (p * x) * y == w * v + w * rest;
    assert q * (x * y) == (q * y) * x == v * w + v * rest;
    Scaled(w, v, rest);
    assert x * y > 0.0;
    if q < p { Scaled(q, p, x * y); }
  }

  lemma TargetMonotone(w: real, total: real, w': real, total': real, treasury: nat, damping: real)
    requires total > 0.0 && total' > 0.0 && damping > 0.0 && w / total <= w' / total'
    ensures Target(w, total, treasury, damping) <= Target(w', total', treasury, damping)
  {
    Scaled(w / total, w' / total', treasury as real);
    Scaled(w / total * treasury as real, w' / total' * treasury as real, damping);
  }

  // Scores no lower in any part.
  predicate AtLeast(x: Record, y: Record) {
    && x.composite >= y.composite && x.performance >= y.performance && x.reliability >= y.reliability
    && x.efficiency >= y.efficiency && x.compliance >= y.compliance
  }

  lemma ScoresRaiseWeight(m: Member, better: Member, p: Plan, q: Plan)
    requires q.strategy == p.strategy && better.status == m.status && better.role == m.role
    requires AtLeast(Scores(better, q.records), Scores(m, p.records)) && better.reputation >= m.reputation
    ensures Weight(q, better) >= Weight(p, m)
  {
    if p.strategy.Adaptive? {
      var boost := RoleBoost(m.role, p.strategy.mission);
      var r, r' := Scores(m, p.records), Scores(better, q.records);
      Scaled(0.30 * (r.performance / 100.0) + 0.25 * (r.reliability / 100.0) + 0.20 * MinR(1.5, r.efficiency)
             + 0.15 * (r.compliance / 100.0) + 0.10 * (m.reputation / 100.0),
             0.30 * (r'.performance / 100.0) + 0.25 * (r'.reliability / 100.0) + 0.20 * MinR(1.5, r'.efficiency)
             + 0.15 * (r'.compliance / 100.0) + 0.10 * (better.reputation / 100.0), boost);
    }
  }

  // Two plans that differ at most in the record of one agent.
  ghost predicate DifferOnlyFor(p: Plan, q: Plan, id: string) {
    && q.strategy == p.strategy && q.treasury == p.treasury
    && forall k :: k != id ==> (k in p.records <==> k in q.records) && (k in p.records ==> p.records[k] == q.records[k])
  }

  lemma {:induction false} TotalAgrees(ms: seq<Member>, p: Plan, q: Plan, id: string)
    requires DifferOnlyFor(p, q, id) && forall k :: 0 <= k < |ms| ==> ms[k].id != id
    ensures Total(ms, p) == Total(ms, q)
    decreases |ms|
  {
    if ms != [] { TotalAgrees(ms[..|ms| - 1], p, q, id); }
  }

  // Raising one agent's scores and ceiling never lowers its own credits, and never raises anybody
  // else's.
  lemma AllocationMonotone(ms: seq<Member>, i: nat, better: Member, p: Plan, q: Plan, a: map<string, int>, b: map<string, int>)
    requires i < |ms| && Distinct(ms) && DifferOnlyFor(p, q, ms[i].id)
    requires better.id == ms[i].id && better.status == ms[i].status && better.role == ms[i].role
    requires better.ceiling >= ms[i].ceiling && better.reputation >= ms[i].reputation
    requires AtLeast(Scores(better, q.records), Scores(ms[i], p.records))
    requires Proportional(ms, p, a) && Proportional(ms[i := better], q, b)
    ensures better.id in a && better.id in b && a[better.id] <= b[better.id]
    ensures forall j :: 0 <= j < |ms| && j != i ==>
              ms[j].id in a && ms[j].id in b && b[ms[j].id] <= a[ms[j].id]
  {
    ScoresRaiseWeight(ms[i], better, p, q);
    TotalsCompare(ms, i, better, p, q);
    hide Weight, Damping, Proportional, Total, Allotment, Distinct, DifferOnlyFor, Scores, AtLeast;
    var ms' := ms[i := better];
    var t, t' := Total(ms, p), Total(ms', q);
    OwnRises(p, q, ms[i], better, t, t');
    Allotted(ms, i, p, a);
    Allotted(ms', i, q, b);
    forall j | 0 <= j < |ms| && j != i
      ensures ms[j].id in a && ms[j].id in b && b[ms[j].id] <= a[ms[j].id]
    {
      Allotted(ms, j, p, a);
      Allotted(ms', j, q, b);
      OthersFall(p, q, ms[j], t, t');
    }
  }

  lemma OwnRises(p: Plan, q: Plan, m: Member, better: Member, t: real, t': real)
    requires q.treasury == p.treasury && Damping(p) == Damping(q) > 0.0 && better.ceiling >= m.ceiling
    requires t >= Weight(p, m) > 0.0 && Weight(q, better) >= Weight(p, m) && t' == t - Weight(p, m) + Weight(q, better)
    ensures Allotment(p, m, t) <= Allotment(q, better, t')
  {
    hide Weight, Damping, Target;
    RatioMonotone(Weight(p, m), Weight(q, better), t - Weight(p, m));
    TargetMonotone(Weight(p, m), t, Weight(q, better), t', p.treasury, Damping(p));
  }

  lemma OthersFall(p: Plan, q: Plan, m: Member, t: real, t': real)
    requires q.treasury == p.treasury && Damping(p) == Damping(q) > 0.0
    requires Weight(q, m) == Weight(p, m) > 0.0 && 0.0 < t <= t'
    ensures Allotment(q, m, t') <= Allotment(p, m, t)
  {
    hide Weight, Damping, Target;
    Shrinks(Weight(p, m), t, t');
    TargetMonotone(Weight(p, m), t', Weight(p, m), t, p.treasury, Damping(p));
  }

  // Only the one weight moves, and the total with it.
  lemma TotalsCompare(ms: seq<Member>, i: nat, better: Member, p: Plan, q: Plan)
    requires i < |ms| && Distinct(ms) && DifferOnlyFor(p, q, ms[i].id) && better.id == ms[i].id
    requires Weight(q, better) >= Weight(p, ms[i])
    ensures Damping(p) == Damping(q) > 0.0
    ensures forall j :: 0 <= j < |ms| ==> Weight(p, ms[j]) > 0.0 && (j != i ==> Weight(q, ms[j]) == Weight(p, ms[j]))
    ensures Total(ms[i := better], q) == Total(ms, p) - Weight(p, ms[i]) + Weight(q, better)
    ensures Total(ms, p) >= Weight(p, ms[i]) > 0.0
  {
    DampingRange(p);
    var ms' := ms[i := better];
    var others := ms[..i] + ms[i + 1..];
    forall k | 0 <= k < |others| ensures others[k].id != ms[i].id {
      assert others[k] == ms[if k < i then k else k + 1];
    }
    TotalAgrees(others, p, q, ms[i].id);
    TotalRemove(ms, i, p);
    TotalRemove(ms', i, q);
    assert ms'[..i] + ms'[i + 1..] == others;
    TotalPositive(others, p);
    hide Total, Distinct;
  }

  lemma Allotted(ms: seq<Member>, k: nat, p: Plan, out: map<string, int>)
    requires k < |ms| && Proportional(ms, p, out)
    ensures Total(ms, p) > 0.0 && ms[k].id in out
    ensures out[ms[k].id] == Allotment(p, ms[k], Total(ms, p))
  {
    TotalPositive(ms, p);
    assert ms[k] in ms;
  }

  lemma Shrinks(w: real, t: real, t': real)
    requires w >= 0.0 && 0.0 < t <= t'
    ensures w / t' <= w / t
  {
    var p, q := w / t', w / t;
    assert p * t' == w && q * t == w;
    if p > q {
      Scaled(t, t', p);
      Scaled(q, p, t);
    }
  }

  // ---------- equal division ----------

  function StaticShare(m: Member, share: int): int {
    if m.status == Restricted then Min(5, share)
    else if m.status == Probation then Min(m.ceiling, Min(12, share))
    else Min(m.ceiling, share)
  }

  // The ceiling caps every static share but one: a restricted agent gets more than its ceiling
  // exactly when both 5 and the equal share exceed it.
  lemma StaticExceedsCeilingIff(m: Member, share: int)
    ensures StaticShare(m, share) > m.ceiling <==> m.status == Restricted && m.ceiling < 5 && m.ceiling < share
  {}

  // The lifecycle zeroes a restricted agent's ceiling when no performance record is passed, so any
  // positive equal share then overruns it.
  lemma StaticOverrunsRestricted(a: Agent, m: Member, share: int)
    requires a.status != Retired && Lifecycle(a, None).agent.status == Restricted
    requires m.status == Restricted && m.ceiling == Lifecycle(a, None).agent.ceiling
    ensures StaticShare(m, share) > m.ceiling <==> share > 0
  {
    SidelinedCeiling(a, None);
  }

  ghost predicate Divided(ms: seq<Member>, i: nat, share: int, out: map<string, int>)
    requires i <= |ms|
  {
    && (forall id :: id in out ==> exists k :: 0 <= k < i && ms[k].id == id)
    && (forall k :: 0 <= k < i ==> ms[k].id in out && out[ms[k].id] == StaticShare(ms[k], share))
  }

  lemma DivideOne(ms: seq<Member>, i: nat, share: int, out: map<string, int>)
    requires i < |ms| && Distinct(ms) && Divided(ms, i, share, out)
    ensures Divided(ms, i + 1, share, out[ms[i].id := StaticShare(ms[i], share)])
  {
    hide StaticShare;
    var out' := out[ms[i].id := StaticShare(ms[i], share)];
    forall id | id in out' ensures exists k :: 0 <= k < i + 1 && ms[k].id == id {
      if id != ms[i].id {
        var k :| 0 <= k < i && ms[k].id == id;
      }
    }
  }

  method DivideEqually(ms: seq<Member>, treasury: nat) returns (out: map<string, int>)
    requires ms != [] && Distinct(ms)
    ensures Divided(ms, |ms|, treasury / |ms|, out)
    ensures SumOut(ms, |ms|, out) <= treasury
  {
    hide SumOut, Divided, Distinct;
    var share := treasury / |ms|;
    out := map[];
    NoneYet(ms, share);
    for i := 0 to |ms|
      invariant Divided(ms, i, share, out)
      invariant SumOut(ms, i, out) <= i * share
    {
      DivideOne(ms, i, share, out);
      SumOutOne(ms, i, out, StaticShare(ms[i], share));
      out := out[ms[i].id := StaticShare(ms[i], share)];
    }
  }

  lemma NoneYet(ms: seq<Member>, share: int)
    ensures SumOut(ms, 0, map[]) == 0 && Divided(ms, 0, share, map[])
  {}

  // ---------- the allocation pass ----------

  predicate Eligible(m: Member) { m.status != Suspended && m.status != Retired }

  function Filter(ms: seq<Member>): seq<Member> {
    if ms == [] then []
    else
      var front := Filter(ms[..|ms| - 1]);
      if Eligible(ms[|ms| - 1]) then front + [ms[|ms| - 1]] else front
  }

  lemma {:induction false} FilterIs(ms: seq<Member>)
    ensures forall m :: m in Filter(ms) <==> m in ms && Eligible(m)
    ensures Distinct(ms) ==> Distinct(Filter(ms))
    decreases |ms|
  {
    if ms != [] {
      var front := ms[..|ms| - 1];
      FilterIs(front);
      assert ms == front + [ms[|ms| - 1]];
      if Distinct(ms) {
        forall m | m in front ensures m.id != ms[|ms| - 1].id {
          var k :| 0 <= k < |front| && front[k] == m;
        }
      }
    }
  }

  class Organisation {
    var treasury: int
    var agents: seq<Member>
    var balances: map<string, int>

    // `order` is the eligible agents sorted by descending weight.
    method Allocate(strategy: Strategy, records: map<string, Record>, order: seq<Member>) returns (out: map<string, int>)
      requires Distinct(agents) && Distinct(order) && multiset(order) == multiset(Filter(agents))
      modifies this`balances
      ensures Filter(agents) == [] || treasury <= 0 ==>
                balances == old(balances) && out.Keys == (set m | m in agents :: m.id) && forall id :: id in out ==> out[id] == 0
      ensures Filter(agents) != [] && treasury > 0 ==>
                && balances == old(balances) + out
                && SumOut(order, |order|, out) <= treasury
                && (strategy.Static? ==>
                      forall m :: m in Filter(agents) ==> m.id in out && out[m.id] == StaticShare(m, treasury / |order|))
                && (!strategy.Static? ==> Proportional(Filter(agents), Plan(strategy, records, treasury), out))
    {
      var available := Max(0, treasury);
      var eligible := Filter(agents);
      FilterIs(agents);
      SameMembers(order, eligible);
      assert |order| == |multiset(order)| == |eligible|;
      if eligible == [] || available == 0 {
        var ids := set m | m in agents :: m.id;
        out := map id | id in ids :: 0;
        return;
      }
      if strategy.Static? {
        out := DivideEqually(order, available);
        forall m | m in eligible ensures m.id in out && out[m.id] == StaticShare(m, treasury / |order|) {
          var k :| 0 <= k < |order| && order[k] == m;
        }
      } else {
        out := Distribute(eligible, order, Plan(strategy, records, available));
      }
      balances := balances + out;
    }
  }

  // Neither weighted strategy goes above a non-negative ceiling or below zero.
  lemma WeightedWithinCeiling(ms: seq<Member>, p: Plan, out: map<string, int>, k: nat)
    requires k < |ms| && Proportional(ms, p, out)
    ensures ms[k].id in out && 0 <= out[ms[k].id] <= Max(0, ms[k].ceiling)
  {
    Allotted(ms, k, p, out);
  }
}
