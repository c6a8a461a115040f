// How a call on the orchestration engine ends, told by the answers of the policy, the executor, the auditor
// and the planner alone.
module ReplanResults {
  import opened Ledger
  import opened Replan

  // The planner's replacement, cut to a positive allocation.
  predicate Replaces(next: Proposal, answer: Option<Proposal>, granted: nat) {
    && answer.Some? && next.content == answer.value.content
    && next.credits == (if granted > 0 && granted < answer.value.credits then granted else answer.value.credits)
  }

  // The last answer of the call decides how it ends; `rejected` counts the rejections up to it.
  ghost predicate EndsBy(e: Engine, id: Key, limit: int, rejected: int, last: Answer, executed: Proposal, o: Outcome) {
    match last.verdict
    case ApprovedBy =>
      && o.engine.dispatched == e.dispatched + [Dispatch(id, executed)]
      && o.end == (if !last.receipt then ExecutorRaised else if last.audited then Executed else AuditRejected)
      && Count(o.engine, id) == rejected
    case EscalatedBy =>
      o.engine.dispatched == e.dispatched && o.end == Escalated && o.engine.org == Paused && Count(o.engine, id) == rejected
    case RejectedBy =>
      && o.engine.dispatched == e.dispatched && Count(o.engine, id) == rejected + 1
      && (if rejected + 1 > limit then o.end == Aborted else last.replanned.None? && o.end == PlannerRaised)
  }

  // Every answer before the last was a rejection within the limit, and brought the next proposal evaluated.
  ghost predicate Follows(e: Engine, id: Key, limit: int, w: World, n: nat, o: Outcome)
    requires id in e.tasks
  {
    var before, log := |e.evaluated|, o.engine.evaluated;
    var rounds := |log| - before;
    && rounds >= 1
    && (forall j :: n <= j < n + rounds - 1 ==>
          w(j).verdict == RejectedBy && Replaces(log[before + (j - n) + 1], w(j).replanned, e.tasks[id].granted))
    && Count(e, id) + rounds - 1 <= (if rounds > 1 then limit else Count(e, id))
    && EndsBy(e, id, limit, Count(e, id) + rounds - 1, w(n + rounds - 1), log[|log| - 1], o)
  }

  predicate Workable(e: Engine, id: Key) {
    Live(e.org) && id in e.tasks && (e.tasks[id].status == InProgress || e.tasks[id].status == Submitted)
  }

  lemma ApprovalEnds(e: Engine, id: Key, p: Proposal, limit: int, a: Answer)
    requires Workable(e, id) && a.verdict == ApprovedBy
    ensures Submit(e, id, p).tasks.Keys == e.tasks.Keys && Submit(e, id, p).tasks[id].status == Submitted
    ensures var o := Approve(Submit(e, id, p), id, p, a);
            o.engine.evaluated == e.evaluated + [p] && EndsBy(e, id, limit, Count(e, id), a, p, o)
  {}

  lemma RejectionEnds(e: Engine, key: Key, id: Key, p: Proposal, limit: int, a: Answer)
    requires Workable(e, id) && a.verdict == RejectedBy
    ensures Submit(e, id, p).tasks.Keys == e.tasks.Keys
    ensures var r := Rejection(Submit(e, id, p), key, id, limit, a);
            r.Over? ==> r.outcome.engine.evaluated == e.evaluated + [p] && EndsBy(e, id, limit, Count(e, id), a, p, r.outcome)
  {
    hide Reject;
    RejectIs(Submit(e, id, p), key, id);
  }

  lemma OverByAnswer(e: Engine, key: Key, p: Proposal, limit: int, a: Answer)
    requires Workable(e, Resolve(e, key))
    ensures var r, id := Evaluate(e, key, p, limit, a), Resolve(e, key);
            r.Over? ==> r.outcome.engine.evaluated == e.evaluated + [p] && EndsBy(e, id, limit, Count(e, id), a, p, r.outcome)
  {
    hide Resolve, Rejection, Approve, Count;
    var id := Resolve(e, key);
    match a.verdict
    case ApprovedBy => ApprovalEnds(e, id, p, limit, a);
    case EscalatedBy => EscalationCounts(e, id, p);
    case RejectedBy => RejectionEnds(e, key, id, p, limit, a);
  }

  lemma EscalationCounts(e: Engine, id: Key, p: Proposal)
    requires id in e.tasks
    ensures Count(Escalate(Submit(e, id, p)).engine, id) == Count(e, id)
  {}

  lemma AgainByAnswer(e: Engine, key: Key, p: Proposal, limit: int, a: Answer)
    requires Stable(e) && Workable(e, Resolve(e, key))
    ensures var r, id := Evaluate(e, key, p, limit, a), Resolve(e, key);
            r.Again? ==>
              && a.verdict == RejectedBy && Replaces(r.proposal, a.replanned, e.tasks[id].granted)
              && Between(e, id, p, limit, r.engine, r.proposal) && Workable(r.engine, id) && Stable(r.engine)
  {
    RoundIs(e, key, p, limit, a);
    hide Reject, Count, Resolve, Approve, Escalate, Abort;
  }

  lemma FollowsAtOnce(e: Engine, id: Key, p: Proposal, limit: int, w: World, n: nat, o: Outcome)
    requires id in e.tasks && o.engine.evaluated == e.evaluated + [p] && EndsBy(e, id, limit, Count(e, id), w(n), p, o)
    ensures Follows(e, id, limit, w, n, o)
  {
    hide EndsBy, Count, Replaces;
  }

  lemma EndsByEarlier(e: Engine, again: Engine, id: Key, limit: int, rejected: int, last: Answer, executed: Proposal, o: Outcome)
    requires again.dispatched == e.dispatched && EndsBy(again, id, limit, rejected, last, executed, o)
    ensures EndsBy(e, id, limit, rejected, last, executed, o)
  {
    hide Count;
  }

  lemma NextIsLogged(e: Engine, again: Engine, id: Key, p: Proposal, next: Proposal, limit: int, o: Outcome)
    requires id in e.tasks && Between(e, id, p, limit, again, next) && id in again.tasks && CallIs(again, id, next, limit, o)
    ensures |again.evaluated| == |e.evaluated| + 1 < |o.engine.evaluated|
    ensures o.engine.evaluated[|e.evaluated| + 1] == next
  {
    hide Count, EndMeans;
    assert again.evaluated + [next] <= o.engine.evaluated;
    assert (again.evaluated + [next])[|e.evaluated| + 1] == next;
  }

  lemma FollowsLater(e: Engine, again: Engine, id: Key, p: Proposal, next: Proposal, limit: int, w: World, n: nat, o: Outcome)
    requires id in e.tasks && Between(e, id, p, limit, again, next) && id in again.tasks
    requires w(n).verdict == RejectedBy && Replaces(next, w(n).replanned, e.tasks[id].granted)
    requires Follows(again, id, limit, w, n + 1, o) && CallIs(again, id, next, limit, o)
    ensures Follows(e, id, limit, w, n, o)
  {
    hide Count, Replaces, EndsBy, CallIs;
    NextIsLogged(e, again, id, p, next, limit, o);
    var before, log := |e.evaluated|, o.engine.evaluated;
    var rounds := |log| - before;
    EndsByEarlier(e, again, id, limit, Count(e, id) + rounds - 1, w(n + rounds - 1), log[|log| - 1], o);
    forall j | n <= j < n + rounds - 1
      ensures w(j).verdict == RejectedBy && Replaces(log[before + (j - n) + 1], w(j).replanned, e.tasks[id].granted)
    {
      if j > n { assert before + (j - n) + 1 == |again.evaluated| + (j - (n + 1)) + 1; }
    }
  }

  // What every call does, for all answers: rejections are replanned as long as the limit allows, the first
  // other answer ends the call, and the proposal executed is the one evaluated last.
  lemma {:induction false} CallFollowsAnswers(e: Engine, key: Key, p: Proposal, limit: int, w: World, n: nat)
    requires Stable(e) && Workable(e, Resolve(e, key))
    ensures Follows(e, Resolve(e, key), limit, w, n, Process(e, key, p, limit, w, n))
    decreases Max(0, limit - Count(e, Resolve(e, key)))
  {
    hide Evaluate, Count, Between, Follows, EndsBy, CallIs, Replaces, Stable;
    var id := Resolve(e, key);
    OverByAnswer(e, key, p, limit, w(n));
    AgainByAnswer(e, key, p, limit, w(n));
    var r := Evaluate(e, key, p, limit, w(n));
    if r.Again? {
      ResolvedStays(e, key);
      CallFollowsAnswers(r.engine, id, r.proposal, limit, w, n + 1);
      WorkableCall(r.engine, id, r.proposal, limit, w, n + 1);
      FollowsLater(e, r.engine, id, p, r.proposal, limit, w, n, Process(r.engine, id, r.proposal, limit, w, n + 1));
    } else {
      FollowsAtOnce(e, id, p, limit, w, n, r.outcome);
    }
  }

  lemma EndTells(e: Engine, id: Key, limit: int, rejected: int, last: Answer, executed: Proposal, o: Outcome)
    requires EndsBy(e, id, limit, rejected, last, executed, o)
    ensures Decided(e, last, o)
  {
    hide Count;
  }

  ghost predicate Decided(e: Engine, last: Answer, o: Outcome) {
    && (o.engine.dispatched != e.dispatched <==> last.verdict == ApprovedBy)
    && (o.end == Executed <==> last.verdict == ApprovedBy && last.receipt && last.audited)
    && (o.end == AuditRejected <==> last.verdict == ApprovedBy && last.receipt && !last.audited)
    && (o.end == ExecutorRaised <==> last.verdict == ApprovedBy && !last.receipt)
    && (o.end == Escalated <==> last.verdict == EscalatedBy)
    && (o.end == Escalated ==> o.engine.org == Paused)
    && (o.end == Aborted || o.end == PlannerRaised <==> last.verdict == RejectedBy)
    && (o.end == PlannerRaised ==> last.replanned.None?)
  }

  // So the last answer tells what happened: something was executed exactly if it approved, a human is waited
  // for exactly if it escalated, and all answers before it rejected.
  lemma LastAnswerDecides(e: Engine, key: Key, p: Proposal, limit: int, w: World, n: nat)
    requires Stable(e) && Workable(e, Resolve(e, key))
    ensures var o := Process(e, key, p, limit, w, n);
            var k := n + |o.engine.evaluated| - |e.evaluated| - 1;
            && k >= n && (forall j :: n <= j < k ==> w(j).verdict == RejectedBy && w(j).replanned.Some?)
            && Decided(e, w(k), o)
  {
    hide Process, Count, Resolve, Stable, Workable, EndsBy, Decided;
    CallFollowsAnswers(e, key, p, limit, w, n);
    var o := Process(e, key, p, limit, w, n);
    var rounds := |o.engine.evaluated| - |e.evaluated|;
    var id := Resolve(e, key);
    WorkableTask(e, id);
    assert Follows(e, id, limit, w, n, o);
    EndTells(e, id, limit, Count(e, id) + rounds - 1, w(n + rounds - 1), o.engine.evaluated[|o.engine.evaluated| - 1], o);
  }

  lemma WorkableTask(e: Engine, id: Key)
    requires Workable(e, id)
    ensures id in e.tasks
  {}

  lemma WorkableCall(e: Engine, id: Key, p: Proposal, limit: int, w: World, n: nat)
    requires Stable(e) && Resolve(e, id) == id && Workable(e, id)
    ensures CallIs(e, id, p, limit, Process(e, id, p, limit, w, n))
  {
    ProcessIs(e, id, p, limit, w, n);
    hide CallIs, Process;
  }

  // ---------- what is recorded ----------

  // The task keeps every proposal evaluated, in order; each rejection is counted under the task's own id, and
  // the first also under the key the caller used.
  ghost predicate Recorded(e: Engine, key: Key, id: Key, f: Engine) {
    && id in e.tasks && id in f.tasks && |f.evaluated| >= |e.evaluated|
    && f.tasks[id].proposals == e.tasks[id].proposals + f.evaluated[|e.evaluated|..]
    && (forall k :: k != id && k != key ==> Count(f, k) == Count(e, k))
    && (key != id ==> Count(f, key) == (if Count(f, id) > Count(e, id) then Count(e, id) + 1 else Count(e, key)))
  }

  // The handed-in proposal is on record, and counts are these.
  ghost predicate Kept(s: Engine, id: Key, f: Engine, counts: map<Key, int>) {
    && id in s.tasks && id in f.tasks && f.tasks[id].proposals == s.tasks[id].proposals
    && f.evaluated == s.evaluated && f.counts == counts
  }

  lemma ApprovalKeeps(s: Engine, id: Key, p: Proposal, a: Answer)
    requires id in s.tasks && s.tasks[id].status == Submitted
    ensures Kept(s, id, Approve(s, id, p, a).engine, s.counts)
  {}

  lemma RejectionKeeps(s: Engine, key: Key, id: Key, limit: int, a: Answer)
    requires id in s.tasks
    ensures var r := Rejection(s, key, id, limit, a); var n := Count(s, id) + 1;
            Kept(s, id, if r.Over? then r.outcome.engine else r.engine, s.counts[id := n][key := n])
  {
    hide Count;
  }

  lemma EscalationKeeps(s: Engine, id: Key)
    requires id in s.tasks
    ensures Kept(s, id, Escalate(s).engine, s.counts)
  {}

  lemma HandedRecords(e: Engine, key: Key, id: Key, p: Proposal, f: Engine)
    requires id in e.tasks && id in Submit(e, id, p).tasks
    requires var s, n := Submit(e, id, p), Count(e, id) + 1; Kept(s, id, f, s.counts) || Kept(s, id, f, s.counts[id := n][key := n])
    ensures f.evaluated == e.evaluated + [p] && Recorded(e, key, id, f)
  {
    assert (e.evaluated + [p])[|e.evaluated|..] == [p];
  }

  lemma RoundRecords(e: Engine, key: Key, p: Proposal, limit: int, a: Answer)
    requires Workable(e, Resolve(e, key))
    ensures var r, id := Evaluate(e, key, p, limit, a), Resolve(e, key);
            var f := if r.Over? then r.outcome.engine else r.engine;
            f.evaluated == e.evaluated + [p] && Recorded(e, key, id, f)
  {
    hide Resolve, Rejection, Approve, Escalate, Count, Kept, Recorded;
    var id := Resolve(e, key);
    var s := Submit(e, id, p);
    assert Count(s, id) == Count(e, id) by { CountSame(e, id, p); }
    match a.verdict {
      case ApprovedBy => ApprovalKeeps(s, id, p, a);
      case EscalatedBy => EscalationKeeps(s, id);
      case RejectedBy => RejectionKeeps(s, key, id, limit, a);
    }
    var r := Evaluate(e, key, p, limit, a);
    HandedRecords(e, key, id, p, if r.Over? then r.outcome.engine else r.engine);
  }

  lemma CountSame(e: Engine, id: Key, p: Proposal)
    requires id in e.tasks
    ensures Count(Submit(e, id, p), id) == Count(e, id)
  {}

  lemma RecordedLater(e: Engine, key: Key, id: Key, again: Engine, f: Engine)
    requires Recorded(e, key, id, again) && Recorded(again, id, id, f)
    requires |again.evaluated| == |e.evaluated| + 1 && again.evaluated <= f.evaluated
    requires Count(again, id) == Count(e, id) + 1 <= Count(f, id)
    ensures Recorded(e, key, id, f)
  {
    hide Count;
    var n := |e.evaluated|;
    assert f.evaluated[n..] == again.evaluated[n..] + f.evaluated[n + 1..];
  }

  lemma {:induction false} CallRecords(e: Engine, key: Key, p: Proposal, limit: int, w: World, n: nat)
    requires Stable(e) && Workable(e, Resolve(e, key))
    ensures var o := Process(e, key, p, limit, w, n);
            Recorded(e, key, Resolve(e, key), o.engine) && e.evaluated <= o.engine.evaluated
            && Count(o.engine, Resolve(e, key)) >= Count(e, Resolve(e, key))
    decreases Max(0, limit - Count(e, Resolve(e, key)))
  {
    hide Evaluate, Count, Between, Recorded, Replaces, Workable, Stable;
    var id := Resolve(e, key);
    RoundRecords(e, key, p, limit, w(n));
    AgainByAnswer(e, key, p, limit, w(n));
    var r := Evaluate(e, key, p, limit, w(n));
    if r.Again? {
      ResolvedStays(e, key);
      CallRecords(r.engine, id, r.proposal, limit, w, n + 1);
      RecordedLater(e, key, id, r.engine, Process(r.engine, id, r.proposal, limit, w, n + 1).engine);
    } else {
      CountsUp(e, key, p, limit, w(n));
    }
  }

  lemma CountsUp(e: Engine, key: Key, p: Proposal, limit: int, a: Answer)
    requires Workable(e, Resolve(e, key))
    ensures var r, id := Evaluate(e, key, p, limit, a), Resolve(e, key);
            r.Over? ==> Count(r.outcome.engine, id) >= Count(e, id)
  {
    OverByAnswer(e, key, p, limit, a);
    hide Evaluate, Resolve, Count;
  }

  // ---------- the state tables ----------

  // How far a task has come.
  function Stage(s: TaskStatus): nat {
    match s
    case Pending => 0
    case Assigned => 1
    case InProgress => 2
    case Submitted => 3
    case Approved => 4
    case Rejected => 4
    case Completed => 5
    case Failed => 5
  }

  // A task fails from any unfinished status, otherwise goes one stage on, except that work in progress and a
  // submission may complete at once, an approved task only completes, and a rejected one goes back to work.
  lemma TaskMovesAre(from: TaskStatus, to: TaskStatus)
    ensures TaskMay(from, to) <==>
              || (to == TaskStatus.Failed && Stage(from) < 5)
              || (to == Completed && (from == InProgress || from == Submitted || from == Approved))
              || (Stage(from) < 4 && Stage(to) == Stage(from) + 1)
              || (from == TaskStatus.Rejected && to == InProgress)
  {}

  // An organisation fails from any state but a completed or a failed one, and failure is final; planning leads
  // to execution and back, both can pause, a pause ends in execution, and completion in new planning.
  lemma OrgMovesAre(from: OrgState, to: OrgState)
    ensures OrgMay(from, to) <==>
              || (to == OrgFailed && from != OrgFailed && from != OrgCompleted)
              || (to == Planning && (from == Initializing || from == Executing || from == OrgCompleted))
              || (to == Executing && (from == Planning || from == Paused))
              || (to == Paused && (from == Planning || from == Executing))
              || (to == OrgCompleted && from == Executing)
  {}
}
