// Bounded replanning: a proposal is evaluated, executed, escalated or rejected; a rejected one is
// replaced by the planner and evaluated again, a limited number of times per task.
module Replan {
  import opened Ledger

  // ---------- the state machines ----------

  datatype OrgState = Initializing | Planning | Executing | Paused | OrgCompleted | OrgFailed

  datatype TaskStatus = Pending | Assigned | InProgress | Submitted | Approved | Rejected | Completed | Failed

  predicate OrgMay(from: OrgState, to: OrgState) {
    match from
    case Initializing => to == Planning || to == OrgFailed
    case Planning => to == Executing || to == Paused || to == OrgFailed
    case Executing => to == Planning || to == Paused || to == OrgCompleted || to == OrgFailed
    case Paused => to == Executing || to == OrgFailed
    case OrgCompleted => to == Planning
    case OrgFailed => false
  }

  predicate TaskMay(from: TaskStatus, to: TaskStatus) {
    match from
    case Pending => to == Assigned || to == Failed
    case Assigned => to == InProgress || to == Failed
    case InProgress => to == Submitted || to == Completed || to == Failed
    case Submitted => to == Approved || to == Rejected || to == Completed || to == Failed
    case Approved => to == Completed || to == Failed
    case Rejected => to == InProgress || to == Failed
    case Completed => false
    case Failed => false
  }

  // ---------- the engine ----------

  // Logical and actual task ids; only their equality matters.
  type Key = nat

  datatype Proposal = Proposal(credits: nat, content: string)

  datatype Task = Task(status: TaskStatus, granted: nat, proposals: seq<Proposal>)

  // An executor call.
  datatype Dispatch = Dispatch(task: Key, proposal: Proposal)

  // `evaluated` logs every proposal put to the policy engine, `counts` the rejections per key.
  datatype Engine = Engine(org: OrgState, tasks: map<Key, Task>, aliases: map<Key, Key>, counts: map<Key, int>,
                           evaluated: seq<Proposal>, dispatched: seq<Dispatch>)

  datatype Verdict = ApprovedBy | RejectedBy | EscalatedBy

  // What policy, executor, auditor and planner answer around one evaluation; None: it raised.
  datatype Answer = Answer(verdict: Verdict, receipt: bool, audited: bool, replanned: Option<Proposal>)

  // The n-th evaluation of a call gets the n-th answer.
  type World = nat -> Answer

  // How a call ends; the last five are exceptions besides the abort and the audit failure.
  datatype End =
    | Executed | Escalated | AuditRejected | Aborted
    | IllegalTransition | AlreadyFailed | UnknownTask | ExecutorRaised | PlannerRaised

  datatype Outcome = Outcome(engine: Engine, end: End)

  function Resolve(e: Engine, key: Key): Key { if key in e.aliases then e.aliases[key] else key }

  function Count(e: Engine, id: Key): int { if id in e.counts then e.counts[id] else 0 }

  function SetStatus(e: Engine, id: Key, to: TaskStatus): Engine
    requires id in e.tasks
  {
    e.(tasks := e.tasks[id := e.tasks[id].(status := to)])
  }

  function Min(a: int, b: int): int { if a < b then a else b }

  function Max(a: int, b: int): int { if a < b then b else a }

  // Submission and logging up to the policy evaluation.
  function Submit(e: Engine, id: Key, p: Proposal): Engine
    requires id in e.tasks
  {
    var t := e.tasks[id];
    e.(tasks := e.tasks[id := t.(status := Submitted, proposals := t.proposals + [p])], evaluated := e.evaluated + [p])
  }

  function Approve(e: Engine, id: Key, p: Proposal, a: Answer): Outcome
    requires id in e.tasks && e.tasks[id].status == Submitted
  {
    var approved := SetStatus(e, id, Approved).(dispatched := e.dispatched + [Dispatch(id, p)]);
    if !a.receipt then Outcome(approved, ExecutorRaised)
    else if a.audited then Outcome(SetStatus(approved, id, Completed), Executed)
    else if !OrgMay(e.org, OrgFailed) then Outcome(SetStatus(approved, id, Failed), IllegalTransition)
    else Outcome(SetStatus(approved, id, Failed).(org := OrgFailed), AuditRejected)
  }

  function Escalate(e: Engine): Outcome {
    if e.org == Paused then Outcome(e, Escalated)
    else if !OrgMay(e.org, Paused) then Outcome(e, IllegalTransition)
    else Outcome(e.(org := Paused), Escalated)
  }

  function Abort(e: Engine, id: Key): Outcome
    requires id in e.tasks
  {
    var failed := SetStatus(e, id, Failed);
    if OrgMay(e.org, OrgFailed) then Outcome(failed.(org := OrgFailed), Aborted) else Outcome(failed, IllegalTransition)
  }

  // A rejection is counted under the resolved id and under the key the caller used.
  function Reject(e: Engine, key: Key, id: Key): Engine
    requires id in e.tasks
  {
    var attempts := Count(e, id) + 1;
    SetStatus(e, id, Rejected).(counts := e.counts[id := attempts][key := attempts])
  }

  function Cap(replanned: Proposal, granted: nat): Proposal {
    if granted > 0 then replanned.(credits := Min(replanned.credits, granted)) else replanned
  }

  // One evaluation and what follows from it, up to the next one if there is one.
  datatype Round = Over(outcome: Outcome) | Again(engine: Engine, id: Key, proposal: Proposal)

  function Rejection(s: Engine, key: Key, id: Key, limit: int, a: Answer): (r: Round)
    requires id in s.tasks
    ensures r.Again? ==> r.id == id && r.engine.aliases == s.aliases && Count(r.engine, id) == Count(s, id) + 1 <= limit
  {
    var r := Reject(s, key, id);
    if Count(r, id) > limit then Over(Abort(r, id))
    else
      var again := SetStatus(r, id, InProgress);
      if a.replanned.None? then Over(Outcome(again, PlannerRaised))
      else Again(again, id, Cap(a.replanned.value, s.tasks[id].granted))
  }

  function Evaluate(e: Engine, key: Key, p: Proposal, limit: int, a: Answer): (r: Round)
    ensures r.Again? ==>
              && r.id == Resolve(e, key) && r.engine.aliases == e.aliases
              && Count(r.engine, r.id) == Count(e, r.id) + 1 <= limit
  {
    var id := Resolve(e, key);
    if id !in e.tasks then Over(Outcome(e, UnknownTask))
    else if e.tasks[id].status == Failed then Over(Outcome(e, AlreadyFailed))
    else if e.tasks[id].status != Submitted && !TaskMay(e.tasks[id].status, Submitted) then Over(Outcome(e, IllegalTransition))
    else
      var s := Submit(e, id, p);
      match a.verdict
      case ApprovedBy => Over(Approve(s, id, p, a))
      case EscalatedBy => Over(Escalate(s))
      case RejectedBy => Rejection(s, key, id, limit, a)
  }

  function Process(e: Engine, key: Key, p: Proposal, limit: int, w: World, n: nat): Outcome
    requires Stable(e)
    decreases Max(0, limit - Count(e, Resolve(e, key)))
  {
    match Evaluate(e, key, p, limit, w(n))
    case Over(o) => o
    case Again(next, id, q) =>
      ResolvedStays(e, key);
      Process(next, id, q, limit, w, n + 1)
  }

  // Aliases lead to actual ids, which are not aliases themselves.
  ghost predicate Stable(e: Engine) {
    forall k :: k in e.aliases ==> e.aliases[k] !in e.aliases
  }

  // ---------- one call ----------

  // Evaluations left for a task rejected k times before.
  function Budget(limit: int, k: int): int { Max(1, limit - k + 1) }

  predicate Spent(s: TaskStatus) { s == Approved || s == Completed || s == Failed }

  predicate Live(o: OrgState) { o == Executing || o == Paused }

  // What one call did: the log of evaluations, at most one dispatch, the status the task is left in.
  ghost predicate CallIs(e: Engine, id: Key, p: Proposal, limit: int, o: Outcome)
    requires id in e.tasks
  {
    var f := o.engine;
    && id in f.tasks && f.tasks[id].granted == e.tasks[id].granted && f.aliases == e.aliases
    && (forall other :: other in e.tasks && other != id ==> other in f.tasks && f.tasks[other] == e.tasks[other])
    && f.tasks.Keys == e.tasks.Keys
    && e.evaluated + [p] <= f.evaluated && |f.evaluated| <= |e.evaluated| + Budget(limit, Count(e, id))
    && (e.tasks[id].granted > 0 ==>
          forall i :: |e.evaluated| < i < |f.evaluated| ==> f.evaluated[i].credits <= e.tasks[id].granted)
    && (if o.end == Executed || o.end == AuditRejected || o.end == ExecutorRaised
        then f.dispatched == e.dispatched + [Dispatch(id, f.evaluated[|f.evaluated| - 1])]
        else f.dispatched == e.dispatched)
    && EndMeans(e.org, f.org, f.tasks[id].status, o.end)
  }

  ghost predicate EndMeans(before: OrgState, after: OrgState, status: TaskStatus, end: End) {
    match end
    case Executed => status == Completed && after == before
    case Escalated => status == Submitted && after == Paused
    case AuditRejected => status == Failed && after == OrgFailed
    case Aborted => status == Failed && after == OrgFailed
    case ExecutorRaised => status == Approved && after == before
    case PlannerRaised => status == InProgress && after == before
    case IllegalTransition => false
    case AlreadyFailed => false
    case UnknownTask => false
  }

  // From a task in progress under a live organisation, whatever the policy, executor, auditor and
  // planner do: the call ends, within the budget of evaluations, never attempting an illegal transition.
  lemma {:induction false} ProcessIs(e: Engine, key: Key, p: Proposal, limit: int, w: World, n: nat)
    requires Stable(e) && Live(e.org)
    requires var id := Resolve(e, key);
             id in e.tasks && (e.tasks[id].status == InProgress || e.tasks[id].status == Submitted)
    ensures CallIs(e, Resolve(e, key), p, limit, Process(e, key, p, limit, w, n))
    decreases Max(0, limit - Count(e, Resolve(e, key)))
  {
    var id := Resolve(e, key);
    RoundIs(e, key, p, limit, w(n));
    hide Evaluate, CallIs, Count;
    var r := Evaluate(e, key, p, limit, w(n));
    if r.Again? {
      ResolvedStays(e, key);
      ProcessIs(r.engine, id, r.proposal, limit, w, n + 1);
      Extend(e, r.engine, id, p, r.proposal, limit, Process(r.engine, id, r.proposal, limit, w, n + 1));
    }
  }

  // The state between a rejection and the evaluation of its replacement.
  ghost predicate Between(e: Engine, id: Key, p: Proposal, limit: int, again: Engine, next: Proposal)
    requires id in e.tasks
  {
    && again.evaluated == e.evaluated + [p] && again.dispatched == e.dispatched && again.org == e.org
    && again.aliases == e.aliases && again.tasks.Keys == e.tasks.Keys
    && again.tasks[id].granted == e.tasks[id].granted && again.tasks[id].status == InProgress
    && (forall other :: other in e.tasks && other != id ==> again.tasks[other] == e.tasks[other])
    && Count(again, id) == Count(e, id) + 1 <= limit
    && (e.tasks[id].granted > 0 ==> next.credits <= e.tasks[id].granted)
  }

  lemma RoundIs(e: Engine, key: Key, p: Proposal, limit: int, a: Answer)
    requires Stable(e) && Live(e.org)
    requires var id := Resolve(e, key);
             id in e.tasks && (e.tasks[id].status == InProgress || e.tasks[id].status == Submitted)
    ensures var r, id := Evaluate(e, key, p, limit, a), Resolve(e, key);
            && (r.Over? ==> CallIs(e, id, p, limit, r.outcome))
            && (r.Again? ==> Between(e, id, p, limit, r.engine, r.proposal))
  {
    var id := Resolve(e, key);
    hide Approve, Escalate, Rejection, Submit, CallIs, Between, Resolve, Live, Count;
    SubmitIs(e, id, p);
    ApprovedRound(e, id, p, limit, a);
    EscalatedRound(e, id, p, limit);
    RejectedRound(e, key, id, p, limit, a);
  }

  lemma ApprovedRound(e: Engine, id: Key, p: Proposal, limit: int, a: Answer)
    requires id in e.tasks && Live(e.org)
    ensures Submit(e, id, p).tasks.Keys == e.tasks.Keys && Submit(e, id, p).tasks[id].status == Submitted
    ensures CallIs(e, id, p, limit, Approve(Submit(e, id, p), id, p, a))
  {
    var s := Submit(e, id, p);
    SubmitIs(e, id, p);
    ApproveIs(s, id, p, a);
    hide Approve, Submit, CallIs;
    CallEnds(e, id, p, limit, s, Approve(s, id, p, a), true);
  }

  lemma EscalatedRound(e: Engine, id: Key, p: Proposal, limit: int)
    requires id in e.tasks && Live(e.org)
    ensures CallIs(e, id, p, limit, Escalate(Submit(e, id, p)))
  {
    var s := Submit(e, id, p);
    SubmitIs(e, id, p);
    EscalateIs(s);
    hide Escalate, Submit, CallIs;
    OnlySame(s, id, Escalate(s).engine);
    CallEnds(e, id, p, limit, s, Escalate(s), false);
  }

  lemma RejectedRound(e: Engine, key: Key, id: Key, p: Proposal, limit: int, a: Answer)
    requires id in e.tasks && Live(e.org)
    ensures Submit(e, id, p).tasks.Keys == e.tasks.Keys
    ensures var r := Rejection(Submit(e, id, p), key, id, limit, a);
            && (r.Over? ==> CallIs(e, id, p, limit, r.outcome))
            && (r.Again? ==> Between(e, id, p, limit, r.engine, r.proposal))
  {
    var s := Submit(e, id, p);
    SubmitIs(e, id, p);
    RejectionIs(s, key, id, limit, a);
    hide Rejection, Submit, CallIs, Between, Count, EndMeans;
    var r := Rejection(s, key, id, limit, a);
    if r.Over? { CallEnds(e, id, p, limit, s, r.outcome, false); }
    else { Replanned(e, id, p, limit, s, r.engine, r.proposal); }
  }

  lemma OnlySame(s: Engine, id: Key, f: Engine)
    requires id in s.tasks && f == s.(org := f.org)
    ensures Only(s, id, f)
  {}

  ghost predicate Handed(e: Engine, id: Key, p: Proposal, s: Engine)
    requires id in e.tasks
  {
    && Only(e, id, s) && s.tasks[id].status == Submitted && s.counts == e.counts && s.org == e.org
    && s.evaluated == e.evaluated + [p] && s.dispatched == e.dispatched
  }

  lemma SubmitIs(e: Engine, id: Key, p: Proposal)
    requires id in e.tasks
    ensures Handed(e, id, p, Submit(e, id, p))
  {}

  lemma CallEnds(e: Engine, id: Key, p: Proposal, limit: int, s: Engine, o: Outcome, called: bool)
    requires id in e.tasks && Handed(e, id, p, s) && Only(s, id, o.engine) && o.engine.evaluated == s.evaluated
    requires o.engine.dispatched == (if called then s.dispatched + [Dispatch(id, p)] else s.dispatched)
    requires called <==> o.end == Executed || o.end == AuditRejected || o.end == ExecutorRaised
    requires EndMeans(s.org, o.engine.org, o.engine.tasks[id].status, o.end)
    ensures CallIs(e, id, p, limit, o)
  {
    hide EndMeans;
    assert o.engine.evaluated[|o.engine.evaluated| - 1] == p;
  }

  lemma Replanned(e: Engine, id: Key, p: Proposal, limit: int, s: Engine, again: Engine, next: Proposal)
    requires id in e.tasks && Handed(e, id, p, s) && Only(s, id, again) && again.tasks[id].status == InProgress
    requires again.evaluated == s.evaluated && again.dispatched == s.dispatched && again.org == s.org
    requires Count(again, id) == Count(s, id) + 1 <= limit && (s.tasks[id].granted > 0 ==> next.credits <= s.tasks[id].granted)
    ensures Between(e, id, p, limit, again, next)
  {}

  // Only task `id` is touched, and its allocation is not.
  ghost predicate Only(e: Engine, id: Key, f: Engine)
    requires id in e.tasks
  {
    && f.aliases == e.aliases && f.tasks.Keys == e.tasks.Keys && f.tasks[id].granted == e.tasks[id].granted
    && (forall other :: other in e.tasks && other != id ==> f.tasks[other] == e.tasks[other])
  }

  lemma ApproveIs(s: Engine, id: Key, p: Proposal, a: Answer)
    requires id in s.tasks && s.tasks[id].status == Submitted
    ensures var o := Approve(s, id, p, a); var f := o.engine;
            && Only(s, id, f) && f.evaluated == s.evaluated && f.dispatched == s.dispatched + [Dispatch(id, p)]
            && (o.end == Executed || o.end == AuditRejected || o.end == ExecutorRaised || o.end == IllegalTransition)
            && Spent(f.tasks[id].status)
            && (Live(s.org) ==> EndMeans(s.org, f.org, f.tasks[id].status, o.end))
  {}

  lemma AbortIs(r: Engine, id: Key)
    requires id in r.tasks
    ensures var o := Abort(r, id); var f := o.engine;
            && Only(r, id, f) && f.evaluated == r.evaluated && f.dispatched == r.dispatched
            && f.tasks[id].status == Failed
            && (Live(r.org) ==> o.end == Aborted && EndMeans(r.org, f.org, f.tasks[id].status, o.end))
  {}

  lemma EscalateIs(s: Engine)
    ensures var o := Escalate(s);
            && o.engine == s.(org := o.engine.org)
            && (Live(s.org) ==> o.end == Escalated && o.engine.org == Paused)
  {}

  lemma RejectIs(s: Engine, key: Key, id: Key)
    requires id in s.tasks
    ensures var r := Reject(s, key, id);
            && Only(s, id, r) && r.tasks[id].status == Rejected && Count(r, id) == Count(s, id) + 1
            && r.evaluated == s.evaluated && r.dispatched == s.dispatched && r.org == s.org
  {}

  lemma SetStatusIs(r: Engine, id: Key, to: TaskStatus)
    requires id in r.tasks
    ensures var f := SetStatus(r, id, to);
            && Only(r, id, f) && f.tasks[id].status == to && f.counts == r.counts
            && f.evaluated == r.evaluated && f.dispatched == r.dispatched && f.org == r.org
  {}

  lemma RejectionIs(s: Engine, key: Key, id: Key, limit: int, a: Answer)
    requires id in s.tasks
    ensures var r := Rejection(s, key, id, limit, a); var f := if r.Over? then r.outcome.engine else r.engine;
            && Only(s, id, f) && f.evaluated == s.evaluated && f.dispatched == s.dispatched
            && (r.Over? && Live(s.org) ==>
                  && (r.outcome.end == Aborted || r.outcome.end == PlannerRaised)
                  && EndMeans(s.org, f.org, f.tasks[id].status, r.outcome.end))
            && (r.Again? ==>
                  && f.org == s.org && f.tasks[id].status == InProgress && Count(f, id) == Count(s, id) + 1 <= limit
                  && (s.tasks[id].granted > 0 ==> r.proposal.credits <= s.tasks[id].granted))
  {
    RejectIs(s, key, id);
    var r := Reject(s, key, id);
    AbortIs(r, id);
    SetStatusIs(r, id, InProgress);
    hide Reject, Abort, SetStatus, Live, EndMeans;
    assert Count(SetStatus(r, id, InProgress), id) == Count(r, id);
    hide Count;
    assert EndMeans(s.org, s.org, InProgress, PlannerRaised) by { PlannerEnd(s.org); }
  }

  lemma PlannerEnd(o: OrgState)
    ensures EndMeans(o, o, InProgress, PlannerRaised)
  {}

  lemma ResolvedStays(e: Engine, key: Key)
    requires Stable(e)
    ensures Resolve(e, Resolve(e, key)) == Resolve(e, key)
  {}

  lemma Extend(e: Engine, again: Engine, id: Key, p: Proposal, next: Proposal, limit: int, o: Outcome)
    requires id in e.tasks && Between(e, id, p, limit, again, next) && CallIs(again, id, next, limit, o)
    ensures CallIs(e, id, p, limit, o)
  {
    hide EndMeans, Count;
    var f := o.engine;
    var m := |e.evaluated|;
    assert e.evaluated + [p] + [next] <= f.evaluated;
    assert f.evaluated[m + 1] == next by { assert (e.evaluated + [p] + [next])[m + 1] == next; }
    assert e.evaluated + [p] <= e.evaluated + [p] + [next];
  }

  // A policy that always rejects and a planner that always answers use the budget up exactly, and
  // the task is aborted.
  lemma {:induction false} BudgetIsUsed(e: Engine, key: Key, p: Proposal, limit: int, w: World, n: nat)
    requires Stable(e) && Live(e.org)
    requires var id := Resolve(e, key);
             id in e.tasks && (e.tasks[id].status == InProgress || e.tasks[id].status == Submitted)
    requires forall k :: w(k).verdict == RejectedBy && w(k).replanned.Some?
    ensures var o := Process(e, key, p, limit, w, n);
            o.end == Aborted && |o.engine.evaluated| == |e.evaluated| + Budget(limit, Count(e, Resolve(e, key)))
    decreases Max(0, limit - Count(e, Resolve(e, key)))
  {
    var id := Resolve(e, key);
    assert w(n).verdict == RejectedBy && w(n).replanned.Some?;
    var r := Evaluate(e, key, p, limit, w(n));
    if r.Again? {
      ResolvedStays(e, key);
      BudgetIsUsed(r.engine, id, r.proposal, limit, w, n + 1);
    }
  }

  // What is executed is the proposal submitted, or a replanned one within the task's allocation.
  lemma ExecutedWithinAllocation(e: Engine, key: Key, p: Proposal, limit: int, w: World)
    requires Stable(e) && Live(e.org)
    requires var id := Resolve(e, key);
             id in e.tasks && e.tasks[id].status == InProgress && e.tasks[id].granted > 0
    ensures var f := Process(e, key, p, limit, w, 0).engine;
            f.dispatched == e.dispatched ||
            exists x :: && f.dispatched == e.dispatched + [Dispatch(Resolve(e, key), x)]
                        && (x == p || x.credits <= e.tasks[Resolve(e, key)].granted)
  {
    var id := Resolve(e, key);
    ProcessIs(e, key, p, limit, w, 0);
    hide Process;
    var f := Process(e, key, p, limit, w, 0).engine;
    if f.dispatched != e.dispatched {
      var x := f.evaluated[|f.evaluated| - 1];
      assert f.evaluated[|e.evaluated|] == p by { assert (e.evaluated + [p])[|e.evaluated|] == p; }
      assert f.dispatched == e.dispatched + [Dispatch(id, x)];
    }
  }

  // Outside those statuses a call is refused before anything changes.
  lemma RefusedIff(e: Engine, key: Key, p: Proposal, limit: int, w: World)
    requires Stable(e) && Live(e.org)
    ensures var o := Process(e, key, p, limit, w, 0); var id := Resolve(e, key);
            (o.end == UnknownTask || o.end == AlreadyFailed || o.end == IllegalTransition) <==>
            !(id in e.tasks && (e.tasks[id].status == InProgress || e.tasks[id].status == Submitted))
    ensures var o := Process(e, key, p, limit, w, 0);
            (o.end == UnknownTask || o.end == AlreadyFailed || o.end == IllegalTransition) ==> o.engine == e
  {
    var id := Resolve(e, key);
    if id in e.tasks && (e.tasks[id].status == InProgress || e.tasks[id].status == Submitted) {
      ProcessIs(e, key, p, limit, w, 0);
      hide Process;
    }
  }

  // ---------- runs ----------

  // Calls on any tasks, and any other legal transition made elsewhere.
  datatype Step =
    | Call(key: Key, proposal: Proposal, world: World)
    | MoveTask(id: Key, to: TaskStatus)
    | MoveOrg(state: OrgState)

  function Next(e: Engine, limit: int, s: Step): Engine
    requires Stable(e)
  {
    match s
    case Call(key, p, w) => Process(e, key, p, limit, w, 0).engine
    case MoveTask(id, to) => if id in e.tasks && TaskMay(e.tasks[id].status, to) then SetStatus(e, id, to) else e
    case MoveOrg(to) => if OrgMay(e.org, to) then e.(org := to) else e
  }

  ghost predicate OncePerTask(e: Engine) {
    && (forall d :: d in e.dispatched ==> d.task in e.tasks && Spent(e.tasks[d.task].status))
    && (forall i, j :: 0 <= i < j < |e.dispatched| ==> e.dispatched[i].task != e.dispatched[j].task)
  }

  // What any call, legal or not, keeps.
  ghost predicate Steady(e: Engine, id: Key, f: Engine) {
    && f.aliases == e.aliases && f.tasks.Keys == e.tasks.Keys
    && (forall other :: other in e.tasks && other != id ==> f.tasks[other] == e.tasks[other])
    && (f.dispatched == e.dispatched ||
        (id in e.tasks && !Spent(e.tasks[id].status) && Spent(f.tasks[id].status)
         && |f.dispatched| == |e.dispatched| + 1 && e.dispatched <= f.dispatched && f.dispatched[|e.dispatched|].task == id))
    && (id in e.tasks && Spent(e.tasks[id].status) ==> Spent(f.tasks[id].status))
  }

  lemma {:induction false} ProcessSteady(e: Engine, key: Key, p: Proposal, limit: int, w: World, n: nat)
    requires Stable(e)
    ensures Steady(e, Resolve(e, key), Process(e, key, p, limit, w, n).engine)
    decreases Max(0, limit - Count(e, Resolve(e, key)))
  {
    var id := Resolve(e, key);
    RoundSteady(e, key, p, limit, w(n));
    hide Evaluate, Count;
    var r := Evaluate(e, key, p, limit, w(n));
    if r.Again? {
      ResolvedStays(e, key);
      ProcessSteady(r.engine, id, r.proposal, limit, w, n + 1);
    }
  }

  lemma RoundSteady(e: Engine, key: Key, p: Proposal, limit: int, a: Answer)
    ensures var r, id := Evaluate(e, key, p, limit, a), Resolve(e, key);
            && (r.Over? ==> Steady(e, id, r.outcome.engine))
            && (r.Again? ==> Steady(e, id, r.engine) && r.engine.dispatched == e.dispatched
                             && id in e.tasks && !Spent(e.tasks[id].status) && !Spent(r.engine.tasks[id].status))
  {
    var id := Resolve(e, key);
    hide Approve, Escalate, Rejection, Submit, Resolve, Count, Steady;
    SteadySame(e, id);
    if id in e.tasks && !Spent(e.tasks[id].status) {
      var s := Submit(e, id, p);
      SubmitIs(e, id, p);
      ApproveIs(s, id, p, a);
      EscalateIs(s);
      RejectionIs(s, key, id, limit, a);
      OnlySame(s, id, Escalate(s).engine);
      var rejected := Rejection(s, key, id, limit, a);
      HandedSteady(e, id, p, s, Approve(s, id, p, a).engine);
      HandedSteady(e, id, p, s, Escalate(s).engine);
      HandedSteady(e, id, p, s, if rejected.Over? then rejected.outcome.engine else rejected.engine);
    }
  }

  lemma SteadySame(e: Engine, id: Key)
    ensures Steady(e, id, e)
  {}

  lemma HandedSteady(e: Engine, id: Key, p: Proposal, s: Engine, f: Engine)
    requires id in e.tasks && !Spent(e.tasks[id].status) && Handed(e, id, p, s) && Only(s, id, f)
    requires f.dispatched == s.dispatched || (f.dispatched == s.dispatched + [Dispatch(id, p)] && Spent(f.tasks[id].status))
    ensures Steady(e, id, f)
  {}

  lemma NextKeepsOnce(e: Engine, limit: int, s: Step)
    requires Stable(e) && OncePerTask(e)
    ensures var f := Next(e, limit, s); Stable(f) && OncePerTask(f)
  {
    match s
    case Call(key, p, w) =>
      ProcessSteady(e, key, p, limit, w, 0);
      hide Process;
      var f := Process(e, key, p, limit, w, 0).engine;
      SteadyKeepsOnce(e, Resolve(e, key), f);
    case MoveTask(id, to) =>
    case MoveOrg(to) =>
  }

  lemma SteadyKeepsOnce(e: Engine, id: Key, f: Engine)
    requires Stable(e) && OncePerTask(e) && Steady(e, id, f)
    ensures Stable(f) && OncePerTask(f)
  {
    if f.dispatched != e.dispatched {
      var n := |e.dispatched|;
      forall i | 0 <= i < n ensures f.dispatched[i] == e.dispatched[i] && e.dispatched[i].task != id {
        assert e.dispatched[i] in e.dispatched;
      }
      forall d | d in f.dispatched ensures d.task in f.tasks && Spent(f.tasks[d.task].status) {
        var i :| 0 <= i <= n && f.dispatched[i] == d;
        if i < n { assert e.dispatched[i] in e.dispatched; }
      }
    }
  }

  function Run(e: Engine, limit: int, steps: seq<Step>): Engine
    requires Stable(e) && OncePerTask(e)
    decreases |steps|
  {
    if steps == [] then e
    else
      NextKeepsOnce(e, limit, steps[0]);
      Run(Next(e, limit, steps[0]), limit, steps[1..])
  }

  // Over every run of calls, mixed with any legal transition, the executor is called at most once
  // per task.
  lemma {:induction false} EveryTaskExecutesOnce(e: Engine, limit: int, steps: seq<Step>)
    requires Stable(e) && OncePerTask(e)
    ensures OncePerTask(Run(e, limit, steps))
    decreases |steps|
  {
    hide Next;
    if steps != [] {
      NextKeepsOnce(e, limit, steps[0]);
      EveryTaskExecutesOnce(Next(e, limit, steps[0]), limit, steps[1..]);
    }
  }

  // ---------- the object ----------

  ghost predicate Ends(o: Outcome, e: Engine, end: End) { o.engine == e && o.end == end }

  class OrchestrationEngine {
    const limit: int
    var org: OrgState
    var tasks: map<Key, Task>
    var aliases: map<Key, Key>
    var counts: map<Key, int>
    var evaluated: seq<Proposal>
    var dispatched: seq<Dispatch>

    ghost function State(): Engine
      reads this
    {
      Engine(org, tasks, aliases, counts, evaluated, dispatched)
    }

    constructor (limit: int, org: OrgState, tasks: map<Key, Task>, aliases: map<Key, Key>)
      ensures this.limit == limit && State() == Engine(org, tasks, aliases, map[], [], [])
    {
      this.limit, this.org, this.tasks, this.aliases := limit, org, tasks, aliases;
      counts, evaluated, dispatched := map[], [], [];
    }

    method TransitionOrg(to: OrgState) returns (ok: bool)
      modifies this`org
      ensures ok == OrgMay(old(org), to) && org == (if ok then to else old(org))
    {
      ok := OrgMay(org, to);
      if ok { org := to; }
    }

    method TransitionTask(id: Key, to: TaskStatus) returns (ok: bool)
      requires id in tasks
      modifies this`tasks
      ensures ok == TaskMay(old(tasks[id].status), to)
      ensures tasks == (if ok then old(tasks)[id := old(tasks[id]).(status := to)] else old(tasks))
    {
      ok := TaskMay(tasks[id].status, to);
      if ok { tasks := tasks[id := tasks[id].(status := to)]; }
    }

    method ExecuteApproved(id: Key, p: Proposal, a: Answer) returns (end: End)
      requires id in tasks && tasks[id].status == Submitted
      modifies this
      ensures Ends(Approve(old(State()), id, p, a), State(), end)
    {
      var _ := TransitionTask(id, Approved);
      dispatched := dispatched + [Dispatch(id, p)];
      if !a.receipt { return ExecutorRaised; }
      if a.audited {
        var _ := TransitionTask(id, Completed);
        return Executed;
      }
      var _ := TransitionTask(id, Failed);
      var ok := TransitionOrg(OrgFailed);
      end := if ok then AuditRejected else IllegalTransition;
    }

    method ProcessActionProposal(key: Key, p: Proposal, w: World, n: nat) returns (end: End)
      requires Stable(State())
      modifies this
      ensures Ends(Process(old(State()), key, p, limit, w, n), State(), end)
      decreases Max(0, limit - Count(State(), Resolve(State(), key)))
    {
      hide Approve, Rejection;
      var id := if key in aliases then aliases[key] else key;
      if id !in tasks { return UnknownTask; }
      if tasks[id].status == Failed { return AlreadyFailed; }
      if tasks[id].status != Submitted {
        var ok := TransitionTask(id, Submitted);
        if !ok { return IllegalTransition; }
      }
      tasks := tasks[id := tasks[id].(proposals := tasks[id].proposals + [p])];
      evaluated := evaluated + [p];
      assert State() == Submit(old(State()), id, p);
      if w(n).verdict == ApprovedBy {
        end := ExecuteApproved(id, p, w(n));
        return;
      }
      if w(n).verdict == EscalatedBy {
        var ok := true;
        if org != Paused { ok := TransitionOrg(Paused); }
        return if ok then Escalated else IllegalTransition;
      }
      var again, next, raised := RejectAndReplan(key, id, w(n));
      if !again { return raised; }
      end := ProcessActionProposal(id, next, w, n + 1);
    }

    method RejectAndReplan(key: Key, id: Key, a: Answer) returns (again: bool, next: Proposal, end: End)
      requires id in tasks && tasks[id].status == Submitted
      modifies this
      ensures var r := Rejection(old(State()), key, id, limit, a);
              && (again <==> r.Again?)
              && (again ==> State() == r.engine && next == r.proposal)
              && (!again ==> Ends(r.outcome, State(), end))
    {
      again, next, end := false, Proposal(0, ""), PlannerRaised;
      var _ := TransitionTask(id, Rejected);
      var attempts := (if id in counts then counts[id] else 0) + 1;
      counts := counts[id := attempts];
      counts := counts[key := attempts];
      assert State() == Reject(old(State()), key, id) && attempts == Count(State(), id);
      hide Reject;
      if attempts > limit {
        var _ := TransitionTask(id, Failed);
        var ok := TransitionOrg(OrgFailed);
        end := if ok then Aborted else IllegalTransition;
        return;
      }
      var _ := TransitionTask(id, InProgress);
      if a.replanned.None? { return; }
      again, next := true, a.replanned.value;
      if tasks[id].granted > 0 { next := next.(credits := Min(next.credits, tasks[id].granted)); }
    }
  }
}
