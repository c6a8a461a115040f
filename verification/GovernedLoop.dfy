// The purchase loop under the purchase policy: every decision of the loop is the policy's, on the
// approval the loop was handed, while approvals are issued and revoked around it.
module GovernedLoop {
  import opened Ledger
  import opened Text
  import PL = PurchaseLoop
  import PP = PurchasePolicy
  import PR = PolicyResults

  // `template` holds what the loop copies into every intent.
  datatype Setting = Setting(loop: PL.Config, policy: PP.Config, template: PP.Intent, crypto: PP.Crypto)

  function Full(st: Setting, i: PL.Intent): PP.Intent {
    st.template.(operation := st.template.operation + Decimal(i.serial), usdg := i.usdg, minCredit := i.minCredit, amount := i.amount)
  }

  // An intent of the loop stands for its hash.
  lemma HashIsIntent(st: Setting, i: PL.Intent, j: PL.Intent)
    requires PP.Sound(st.crypto) && PP.Hash(st.crypto, Full(st, i)) == PP.Hash(st.crypto, Full(st, j))
    ensures i == j
  {
    var x, y := Full(st, i), Full(st, j);
    assert PP.Canonical(x) == PP.Canonical(y);
    assert x.operation == y.operation;
    var n := |st.template.operation|;
    assert x.operation[n..] == Decimal(i.serial) && y.operation[n..] == Decimal(j.serial);
    DecimalInjective(i.serial, j.serial);
  }

  // A dispatch: its operation, and what the policy knew and was shown when it allowed it.
  datatype Sent = Sent(op: nat, intent: PL.Intent, now: int, presented: Option<PP.Approval>, world: PP.World)

  datatype State = State(loop: PL.Loop, presented: Option<PP.Approval>, world: PP.World, log: seq<Sent>)

  datatype Event =
    | DoStep(now: int, outcome: PL.Outcome, evidence: Option<PL.Evidence>)
    | DoSupply(approval: PP.Approval)
    | DoPolicy(step: PP.Step)

  // The intent a step would put to the policy.
  function Asked(c: PL.Config, l: PL.Loop): PL.Intent {
    if l.status == PL.WaitingHuman && l.pendingIntent.Some? then l.pendingIntent.value else PL.NextIntent(c, l)
  }

  ghost function Decide(st: Setting, s: State, now: int): PL.Decision {
    match PP.Evaluate(st.crypto, st.policy, s.world.desk, Full(st, Asked(st.loop, s.loop)), s.presented, now)
    case Allow => PL.Allow
    case Deny(_) => PL.Deny
    case HumanConfirmationRequired => PL.HumanConfirmationRequired
  }

  ghost function Stepped(st: Setting, s: State, now: int, outcome: PL.Outcome, evidence: Option<PL.Evidence>): PL.Loop
    requires PL.WellFormed(s.loop)
  {
    PL.Step(st.loop, s.loop, PL.Answers(Decide(st, s, now), outcome, evidence)).loop
  }

  ghost function Next(st: Setting, s: State, e: Event): (s': State)
    requires PL.WellFormed(s.loop)
    ensures PL.WellFormed(s'.loop)
  {
    match e
    case DoStep(now, outcome, evidence) =>
      var l := Stepped(st, s, now, outcome, evidence);
      var sent := Sent(|s.loop.ops|, Asked(st.loop, s.loop), now, s.presented, s.world);
      State(l, if l.hasApproval then s.presented else None, s.world,
            if l.dispatches > s.loop.dispatches then s.log + [sent] else s.log)
    case DoSupply(a) => s.(loop := s.loop.(hasApproval := true), presented := Some(a))
    case DoPolicy(p) => s.(world := PP.Next(st.crypto, s.world, p))
  }

  // Nobody presents a valid tag that was never made with the key.
  ghost predicate Fair(st: Setting, s: State, e: Event) {
    e.DoStep? ==> PP.Unforged(st.crypto, s.world, s.presented)
  }

  // ---------- what one step dispatches ----------

  // No operation is dropped or changes its intent.
  ghost predicate KeepsIntents(x: seq<PL.Operation>, y: seq<PL.Operation>) {
    |x| <= |y| && forall k :: 0 <= k < |x| ==> y[k].intent == x[k].intent
  }

  lemma AnsweredDispatches(l: PL.Loop, op: nat, intent: PL.Intent, a: PL.Answers)
    requires op < |l.ops| && PL.WellFormed(l)
    ensures var l' := PL.Answered(l, op, intent, a).loop;
            l'.dispatches == l.dispatches && |l'.ops| == |l.ops| && KeepsIntents(l.ops, l'.ops)
  {
    hide PL.Release, PL.Verify;
  }

  lemma ExecuteDispatches(l: PL.Loop, intent: PL.Intent, a: PL.Answers)
    requires PL.WellFormed(l)
    ensures var l' := PL.ExecuteAuthorized(l, intent, a).loop;
            && (l'.dispatches == l.dispatches || l'.dispatches == l.dispatches + 1)
            && |l'.ops| == |l.ops| + 1 && KeepsIntents(l.ops, l'.ops) && l'.ops[|l.ops|].intent == intent
  {
    var op := |l.ops|;
    var created := l.(ops := l.ops + [PL.Operation(intent, PL.Unresolved)]);
    hide PL.Move, PL.Answered;
    var r := PL.Move(created, Treasury, Escrow, op, LoopEscrow(op));
    if r.Done? { AnsweredDispatches(r.loop.(dispatches := r.loop.dispatches + 1), op, intent, a); }
  }

  lemma ReconcileDispatches(c: PL.Config, l: PL.Loop, a: PL.Answers)
    requires PL.WellFormed(l)
    ensures var l' := PL.HandleReconcile(c, l, a).loop;
            l'.dispatches == l.dispatches && KeepsIntents(l.ops, l'.ops)
  {
    hide PL.Release, PL.Verify;
  }

  // A step dispatches at most once, then only what it asked about and only on an ALLOW.
  lemma StepDispatches(c: PL.Config, l: PL.Loop, a: PL.Answers)
    requires PL.WellFormed(l)
    ensures var l' := PL.Step(c, l, a).loop;
            && KeepsIntents(l.ops, l'.ops)
            && (l'.dispatches == l.dispatches ||
                (l'.dispatches == l.dispatches + 1 && a.decision == PL.Allow
                 && |l'.ops| == |l.ops| + 1 && l'.ops[|l.ops|].intent == Asked(c, l)))
  {
    hide PL.ExecuteAuthorized, PL.HandleReconcile, PL.Sized, PL.NextIntent, PL.ObjectiveMet, PL.Need;
    ReconcileDispatches(c, l, a);
    if l.pendingIntent.Some? { ExecuteDispatches(l.(status := PL.Ready), l.pendingIntent.value, a); }
    ExecuteDispatches(l.(iteration := l.iteration + 1), PL.NextIntent(c, l), a);
  }

  // ---------- the invariant ----------

  // The policy allowed the dispatch, and above the autonomous ceiling it did so on an approval of its
  // own, issued for exactly this intent, alive and unrevoked when the provider was called.
  ghost predicate Backed(st: Setting, d: Sent) {
    && PP.Evaluate(st.crypto, st.policy, d.world.desk, Full(st, d.intent), d.presented, d.now) == PP.Allow
    && (d.intent.usdg > st.policy.autonomous ==>
          exists a :: PP.RestsOn(st.crypto, d.world, Full(st, d.intent), Used(st, d).value, a, d.now))
  }

  // The approval the policy looked at: the one presented, or else the one on file.
  function Used(st: Setting, d: Sent): (r: Option<PP.Approval>) {
    PP.Basis(st.crypto, d.world.desk, Full(st, d.intent), d.presented)
  }

  // The log is the dispatches in order: one operation each, none twice.
  ghost predicate Logged(s: State) {
    && |s.log| == s.loop.dispatches
    && (forall k :: 0 <= k < |s.log| ==>
          s.log[k].op < |s.loop.ops| && s.loop.ops[s.log[k].op].intent == s.log[k].intent)
    && (forall j, k :: 0 <= j < k < |s.log| ==> s.log[j].op < s.log[k].op)
  }

  // The serial numbers of dispatched intents grow, and the intent a human is asked about has the next.
  ghost predicate Serials(s: State) {
    && (forall k :: 0 <= k < |s.log| ==>
          s.log[k].intent.serial <= s.loop.iteration && (s.loop.status == PL.WaitingHuman ==> s.log[k].intent.serial < s.loop.iteration))
    && (forall j, k :: 0 <= j < k < |s.log| ==> s.log[j].intent.serial < s.log[k].intent.serial)
  }

  // `sink` is what EXTERNAL_SINK held before the loop started.
  ghost predicate Inv(st: Setting, s: State, sink: int) {
    && PL.WellFormed(s.loop) && PL.Inv(st.loop, s.loop, sink) && PP.Inv(st.crypto, s.world) && Logged(s) && Serials(s)
    && forall k :: 0 <= k < |s.log| ==> Backed(st, s.log[k])
  }

  lemma ExecuteIteration(l: PL.Loop, intent: PL.Intent, a: PL.Answers)
    requires PL.WellFormed(l)
    ensures PL.ExecuteAuthorized(l, intent, a).loop.iteration == l.iteration
  {
    hide PL.Verify, Transfer;
  }

  lemma ReconcileIteration(c: PL.Config, l: PL.Loop, a: PL.Answers)
    requires PL.WellFormed(l)
    ensures PL.HandleReconcile(c, l, a).loop.iteration == l.iteration
  {
    hide PL.Verify, Transfer;
  }

  lemma WaitingSerial(c: PL.Config, l: PL.Loop, sink: int)
    requires PL.Inv(c, l, sink)
    ensures PL.WellFormed(l)
    ensures l.status == PL.WaitingHuman ==> l.pendingIntent.Some? && l.pendingIntent.value.serial == l.iteration
  {
    hide PL.Money, PL.History;
    assert PL.WellFormed(l) by { LoopIsFormed(c, l, sink); }
  }

  lemma LoopIsFormed(c: PL.Config, l: PL.Loop, sink: int)
    requires PL.Inv(c, l, sink)
    ensures PL.WellFormed(l)
  {}

  lemma NextSerial(c: PL.Config, l: PL.Loop)
    ensures PL.NextIntent(c, l).serial == l.iteration + 1
  {
    hide PL.Sized;
  }

  // How a step moves the iteration, and with which serial number it dispatches.
  lemma StepSerials(c: PL.Config, l: PL.Loop, a: PL.Answers, sink: int)
    requires PL.Inv(c, l, sink)
    ensures PL.WellFormed(l)
    ensures var l' := PL.Step(c, l, a).loop;
            && l'.iteration >= l.iteration
            && (l'.status == PL.WaitingHuman ==>
                  (l.status == PL.WaitingHuman && l'.iteration == l.iteration && l'.dispatches == l.dispatches)
                  || (l'.iteration > l.iteration && l'.dispatches == l.dispatches))
            && (l'.dispatches > l.dispatches ==>
                  && Asked(c, l).serial == l'.iteration
                  && (if l.status == PL.WaitingHuman then l'.iteration == l.iteration else l'.iteration == l.iteration + 1))
  {
    hide PL.Inv, PL.Begin, PL.HandleReconcile, PL.HandleWaitingHuman, PL.ObjectiveMet, PL.Sized, PL.NextIntent;
    WaitingSerial(c, l, sink);
    ReconcileDispatches(c, l, a);
    ReconcileIteration(c, l, a);
    if l.status == PL.WaitingHuman { HumanSerials(l, a); }
    else {
      PL.ReconcileStatus(c, l, a);
      BeginSerials(c, l, a);
    }
  }

  lemma HumanSerials(l: PL.Loop, a: PL.Answers)
    requires PL.WellFormed(l) && l.status == PL.WaitingHuman
    ensures var l' := PL.HandleWaitingHuman(l, a).loop;
            l'.iteration == l.iteration && (l'.status == PL.WaitingHuman ==> l'.dispatches == l.dispatches)
  {
    if l.pendingIntent.Some? {
      ExecuteIteration(l.(status := PL.Ready), l.pendingIntent.value, a);
      PL.ExecuteStatus(l.(status := PL.Ready), l.pendingIntent.value, a);
    }
    hide PL.ExecuteAuthorized;
  }

  lemma BeginSerials(c: PL.Config, l: PL.Loop, a: PL.Answers)
    requires PL.WellFormed(l) && l.status != PL.WaitingHuman
    ensures var l' := PL.Begin(c, l, a).loop;
            && l'.iteration >= l.iteration
            && (l'.status == PL.WaitingHuman ==> l'.iteration > l.iteration && l'.dispatches == l.dispatches)
            && (l'.dispatches > l.dispatches ==> l'.iteration == l.iteration + 1 == PL.NextIntent(c, l).serial)
  {
    var counted := l.(iteration := l.iteration + 1);
    ExecuteIteration(counted, PL.NextIntent(c, l), a);
    PL.ExecuteStatus(counted, PL.NextIntent(c, l), a);
    NextSerial(c, l);
    hide PL.ExecuteAuthorized, PL.Sized, PL.NextIntent, PL.Need;
  }

  lemma StepKeepsSerials(st: Setting, s: State, now: int, outcome: PL.Outcome, evidence: Option<PL.Evidence>, sink: int)
    requires PL.Inv(st.loop, s.loop, sink) && Serials(s)
    ensures PL.WellFormed(s.loop) && Serials(Next(st, s, DoStep(now, outcome, evidence)))
  {
    StepSerials(st.loop, s.loop, PL.Answers(Decide(st, s, now), outcome, evidence), sink);
    hide PL.Step, Decide, Asked, PL.WellFormed, PL.Inv;
  }

  lemma AllowedIsBacked(st: Setting, s: State, now: int)
    requires PP.Sound(st.crypto) && PP.Inv(st.crypto, s.world) && PP.Unforged(st.crypto, s.world, s.presented)
    requires Decide(st, s, now) == PL.Allow
    ensures Backed(st, Sent(|s.loop.ops|, Asked(st.loop, s.loop), now, s.presented, s.world))
  {
    hide PP.Sound, PP.Inv, PP.Unforged, PP.RestsOn, PP.Evaluate, Full, PP.Basis, Asked;
    var asked := Asked(st.loop, s.loop);
    var d := Sent(|s.loop.ops|, asked, now, s.presented, s.world);
    SameSize(st, asked);
    assert PP.Evaluate(st.crypto, st.policy, s.world.desk, Full(st, asked), s.presented, now) == PP.Allow;
    if asked.usdg > st.policy.autonomous {
      PP.AllowRestsOnApproval(st.crypto, st.policy, s.world, Full(st, asked), s.presented, now);
      assert Used(st, d) == PP.Basis(st.crypto, s.world.desk, Full(st, asked), s.presented);
    }
  }

  lemma SameSize(st: Setting, i: PL.Intent)
    ensures Full(st, i).usdg == i.usdg
  {}

  lemma StepKeepsLog(st: Setting, s: State, now: int, outcome: PL.Outcome, evidence: Option<PL.Evidence>)
    requires PL.WellFormed(s.loop) && Logged(s)
    ensures Logged(Next(st, s, DoStep(now, outcome, evidence)))
  {
    StepDispatches(st.loop, s.loop, PL.Answers(Decide(st, s, now), outcome, evidence));
    hide PL.Step, Decide, Asked, PL.WellFormed;
  }

  lemma NextKeepsInv(st: Setting, s: State, e: Event, sink: int)
    requires PP.Sound(st.crypto) && Inv(st, s, sink) && Fair(st, s, e)
    ensures Inv(st, Next(st, s, e), sink)
  {
    hide PP.Sound, PP.Inv, PP.Next, Backed, PP.Unforged, Asked, PL.Step, PL.Inv, Serials;
    match e
    case DoStep(now, outcome, evidence) =>
      PL.StepKeepsInv(st.loop, s.loop, PL.Answers(Decide(st, s, now), outcome, evidence), sink);
      StepKeepsSerials(st, s, now, outcome, evidence, sink);
      StepKeepsLog(st, s, now, outcome, evidence);
      StepDispatches(st.loop, s.loop, PL.Answers(Decide(st, s, now), outcome, evidence));
      hide Logged;
      if Decide(st, s, now) == PL.Allow { AllowedIsBacked(st, s, now); }
    case DoSupply(_) =>
      PL.NextKeepsInv(st.loop, s.loop, PL.ApprovalSupplied, sink);
      SupplyKeepsSerials(st, s, e);
    case DoPolicy(p) =>
      SupplyKeepsSerials(st, s, e);
      PP.NextKeepsInv(st.crypto, s.world, p);
  }

  lemma SupplyKeepsSerials(st: Setting, s: State, e: Event)
    requires PL.WellFormed(s.loop) && Serials(s) && !e.DoStep?
    ensures Serials(Next(st, s, e))
  {
    hide PP.Next;
  }

  // ---------- runs ----------

  ghost function Run(st: Setting, s: State, events: seq<Event>): (s': State)
    requires PL.WellFormed(s.loop)
    ensures PL.WellFormed(s'.loop)
    decreases |events|
  {
    if events == [] then s else Run(st, Next(st, s, events[0]), events[1..])
  }

  ghost predicate FairRun(st: Setting, s: State, events: seq<Event>)
    requires PL.WellFormed(s.loop)
    decreases |events|
  {
    events == [] || (Fair(st, s, events[0]) && FairRun(st, Next(st, s, events[0]), events[1..]))
  }

  lemma {:induction false} RunKeepsInv(st: Setting, s: State, events: seq<Event>, sink: int)
    requires PP.Sound(st.crypto) && Inv(st, s, sink) && FairRun(st, s, events)
    ensures Inv(st, Run(st, s, events), sink)
    ensures s.log <= Run(st, s, events).log
    decreases |events|
  {
    hide PP.Sound, Fair;
    if events != [] {
      NextKeepsInv(st, s, events[0], sink);
      LogGrows(st, s, events[0]);
      hide Inv, Next;
      RunKeepsInv(st, Next(st, s, events[0]), events[1..], sink);
    }
  }

  lemma LogGrows(st: Setting, s: State, e: Event)
    requires PL.WellFormed(s.loop)
    ensures s.log <= Next(st, s, e).log
    ensures s.world.desk.revoked <= Next(st, s, e).world.desk.revoked
  {
    hide PL.Step, PL.WellFormed, Decide, Asked, PP.Next;
    if e.DoPolicy? { PP.NextGrows(st.crypto, s.world, e.step); }
  }

  // A loop that has not dispatched anything, beside a new policy.
  function Fresh(start: PL.Loop): State {
    State(start, None, PP.Init(), [])
  }

  // Over every run of loop steps, supplied approvals and issue and revoke calls: each dispatch is one
  // the policy allowed then and there, and above the autonomous ceiling it rests on an approval this
  // policy issued for exactly that intent, unexpired and unrevoked at the dispatch.
  lemma EveryDispatchIsBacked(st: Setting, start: PL.Loop, events: seq<Event>)
    requires PP.Sound(st.crypto) && PL.Initial(st.loop, start) && FairRun(st, Fresh(start), events)
    ensures var s := Run(st, Fresh(start), events);
            && |s.log| == s.loop.dispatches
            && (forall k :: 0 <= k < |s.log| ==>
                  && s.log[k].op < |s.loop.ops| && s.loop.ops[s.log[k].op].intent == s.log[k].intent
                  && Backed(st, s.log[k]))
            && (forall j, k :: 0 <= j < k < |s.log| ==> s.log[j].op != s.log[k].op)
  {
    var sink := Balance(start.book, ExternalSink);
    FreshInv(st, start);
    hide PL.Initial, PP.Sound, Run, FairRun, Backed, Serials, PL.Inv;
    RunKeepsInv(st, Fresh(start), events, sink);
  }

  lemma FreshInv(st: Setting, start: PL.Loop)
    requires PL.Initial(st.loop, start)
    ensures Inv(st, Fresh(start), Balance(start.book, ExternalSink))
  {
    hide PL.UnusedFrom, Valid;
  }

  // ... and two dispatches above the ceiling never rest on one approval: the approvals are for different
  // intent hashes.
  lemma OneDispatchPerApproval(st: Setting, start: PL.Loop, events: seq<Event>, j: nat, k: nat)
    requires PP.Sound(st.crypto) && PL.Initial(st.loop, start) && FairRun(st, Fresh(start), events)
    requires j < k < |Run(st, Fresh(start), events).log|
    ensures var log := Run(st, Fresh(start), events).log;
            log[j].intent.usdg > st.policy.autonomous && log[k].intent.usdg > st.policy.autonomous ==>
              && Used(st, log[j]).Some? && Used(st, log[k]).Some?
              && Used(st, log[j]).value.intentHash != Used(st, log[k]).value.intentHash
  {
    var sink := Balance(start.book, ExternalSink);
    FreshInv(st, start);
    RunKeepsInv(st, Fresh(start), events, sink);
    var s := Run(st, Fresh(start), events);
    hide Run, FairRun, PL.Initial, PL.Inv, PP.Inv, Backed, Used, PP.Sound;
    if s.log[j].intent.usdg > st.policy.autonomous && s.log[k].intent.usdg > st.policy.autonomous {
      BackedFor(st, s.log[j]);
      BackedFor(st, s.log[k]);
      if PP.Hash(st.crypto, Full(st, s.log[j].intent)) == PP.Hash(st.crypto, Full(st, s.log[k].intent)) {
        HashIsIntent(st, s.log[j].intent, s.log[k].intent);
      }
    }
  }

  lemma BackedFor(st: Setting, d: Sent)
    requires Backed(st, d) && d.intent.usdg > st.policy.autonomous
    ensures Used(st, d).Some? && Used(st, d).value.intentHash == PP.Hash(st.crypto, Full(st, d.intent))
  {
    SameSize(st, d.intent);
    assert Used(st, d).Some? by { hide PP.RestsOn; }
    hide Full, PP.Basis, PP.Evaluate, Used, PP.Hash;
    var used := Used(st, d).value;
    var a :| PP.RestsOn(st.crypto, d.world, Full(st, d.intent), used, a, d.now);
    assert used.intentHash == a.intentHash;
  }

  // From the moment an approval id is revoked no dispatch above the ceiling rests on it any more.
  lemma {:induction false} RevokedBacksNoDispatch(st: Setting, s: State, events: seq<Event>, id: string, k: nat, sink: int)
    requires PP.Sound(st.crypto) && Inv(st, s, sink) && FairRun(st, s, events) && id in s.world.desk.revoked
    requires |s.log| <= k < |Run(st, s, events).log|
    ensures var d := Run(st, s, events).log[k];
            d.intent.usdg > st.policy.autonomous ==> Used(st, d).Some? && Used(st, d).value.id != id
    decreases |events|
  {
    hide PP.Sound, Fair, Inv, Next, Used, Backed;
    if events != [] {
      var e := events[0];
      InvIsWellFormed(st, s, sink);
      var s' := Next(st, s, e);
      NextKeepsInv(st, s, e, sink);
      LogGrows(st, s, e);
      InvIsWellFormed(st, s', sink);
      if k < |s'.log| {
        RunKeepsInv(st, s', events[1..], sink);
        LastSent(st, s, e, k);
        InvBacks(st, s', k, sink);
        if s'.log[k].intent.usdg > st.policy.autonomous { BackedNotRevoked(st, s'.log[k], id); }
        assert Run(st, s, events).log[k] == s'.log[k];
      } else {
        RevokedBacksNoDispatch(st, s', events[1..], id, k, sink);
      }
    }
  }

  lemma InvIsWellFormed(st: Setting, s: State, sink: int)
    requires Inv(st, s, sink)
    ensures PL.WellFormed(s.loop)
  {}

  lemma InvBacks(st: Setting, s: State, k: nat, sink: int)
    requires Inv(st, s, sink) && k < |s.log|
    ensures Backed(st, s.log[k])
  {
    hide Backed, Logged, PP.Inv;
  }

  lemma LastSent(st: Setting, s: State, e: Event, k: nat)
    requires PL.WellFormed(s.loop) && |s.log| <= k < |Next(st, s, e).log|
    ensures Next(st, s, e).log[k].world == s.world
  {
    hide PL.Step, PL.WellFormed, Decide, Asked, PP.Next;
  }

  lemma BackedNotRevoked(st: Setting, d: Sent, id: string)
    requires Backed(st, d) && id in d.world.desk.revoked && d.intent.usdg > st.policy.autonomous
    ensures Used(st, d).Some? && Used(st, d).value.id != id
  {
    SameSize(st, d.intent);
    assert Used(st, d).Some? by { hide PP.RestsOn; }
    hide Full, PP.Basis, PP.Evaluate, Used;
    var used := Used(st, d).value;
    var a :| PP.RestsOn(st.crypto, d.world, Full(st, d.intent), used, a, d.now);
    assert used.id == a.id;
  }

  // ---------- bounds ----------

  lemma BackedInBounds(st: Setting, d: Sent)
    requires Backed(st, d)
    ensures PR.InBounds(st.policy, Full(st, d.intent), d.now) && d.intent.usdg <= st.policy.absolute
  {
    SameSize(st, d.intent);
    PR.AllowsIff(st.crypto, st.policy, d.world.desk, Full(st, d.intent), d.presented, d.now);
    hide PP.Evaluate, Full, PP.RestsOn, Used;
  }

  // Whatever is approved, presented or revoked in between, no run ever dispatches a purchase above the absolute
  // ceiling, outside a bound of the policy, or after its deadline.
  lemma EveryDispatchInBounds(st: Setting, start: PL.Loop, events: seq<Event>, k: nat)
    requires PP.Sound(st.crypto) && PL.Initial(st.loop, start) && FairRun(st, Fresh(start), events)
    requires k < |Run(st, Fresh(start), events).log|
    ensures var d := Run(st, Fresh(start), events).log[k];
            && d.intent.usdg <= st.policy.absolute
            && PR.InBounds(st.policy, Full(st, d.intent), d.now)
            && PR.Known(st.policy, st.template) && !PR.Outsider(st.policy, st.template)
  {
    hide PL.Initial, PP.Sound, Run, FairRun, Backed, PR.InBounds, PR.Known, PR.Outsider, Full, PL.WellFormed;
    InitialIsFormed(st, start);
    EveryDispatchIsBacked(st, start, events);
    BackedInBounds(st, Run(st, Fresh(start), events).log[k]);
    BackedAllowed(st, Run(st, Fresh(start), events).log[k]);
  }

  lemma InitialIsFormed(st: Setting, start: PL.Loop)
    requires PL.Initial(st.loop, start)
    ensures PL.WellFormed(start)
  {
    hide PL.UnusedFrom, Valid, PL.History;
  }

  // Deployment and beneficiary are the template's in every intent.
  lemma BackedAllowed(st: Setting, d: Sent)
    requires Backed(st, d)
    ensures PR.Known(st.policy, st.template) && !PR.Outsider(st.policy, st.template)
  {
    PR.AllowsIff(st.crypto, st.policy, d.world.desk, Full(st, d.intent), d.presented, d.now);
    hide PP.Evaluate, PP.RestsOn, Used, PR.InBounds, PR.HumanAgrees, PP.Listed, PP.NewlineListed, PR.SameDeployment;
  }

  // No proposal of the loop meets a slippage denial of the policy.
  lemma ProposalPassesSlippage(st: Setting, l: PL.Loop, now: int)
    requires PL.Sized(st.loop, l) > 0
    ensures PP.BoundCode(st.policy, Full(st, PL.NextIntent(st.loop, l)), now) != Some(PP.Slippage)
  {
    PL.SlippageBoundFits(st.loop, l);
    hide PL.NextIntent, PL.Sized, Decimal;
  }
}
