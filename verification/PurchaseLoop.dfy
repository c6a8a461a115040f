// The governed purchase loop: observe, size a proposal, ask the policy (and a human when it
// says so), execute under escrow, verify the evidence, reconcile ambiguous outcomes.
module PurchaseLoop {
  import opened Ledger

  datatype Status =
    | Ready | WaitingHuman | WaitingReconcile | ObjectiveComplete | StoppedPolicyDeny | StoppedSpendLimit
    | StoppedIterationLimit | StoppedFailure | StoppedUnknown | StoppedCrossTenant

  datatype Config = Config(maxIterations: int, maxCumulative: int, maxSingle: int, fillRateBps: int,
                           tenantMatches: bool, hasReconciler: bool)

  // The purchase intent hash is injective on these fields, so an intent stands for its hash.
  // `serial` is the number in its operation id, amount the credits reserved in escrow.
  datatype Intent = Intent(serial: nat, usdg: int, minCredit: int, amount: int)

  datatype Fate = Unfunded | Failed | Unresolved | Succeeded | ReconciledPaid | ReconciledRefunded

  datatype Operation = Operation(intent: Intent, fate: Fate)

  // The position of an operation in `ops` is its id.
  datatype Loop = Loop(target: int, acquired: int, activated: bool, spent: int, iteration: nat, status: Status,
                       completed: seq<Intent>, hasApproval: bool, pendingIntent: Option<Intent>, pendingOp: Option<nat>,
                       ops: seq<Operation>, dispatches: nat, book: Book)

  datatype Decision = Allow | Deny | HumanConfirmationRequired

  datatype Outcome = Success | Failure | TimedOut | Undetermined

  datatype Evidence = Evidence(credit: int, usdg: int, otherFieldsMatch: bool)

  datatype Verdict = Verified(evidence: Evidence) | Rejected | Pending

  // What the policy, the provider and its receipts answer during one step.
  datatype Answers = Answers(decision: Decision, outcome: Outcome, evidence: Option<Evidence>)

  // `Raised`: a ledger refusal escaped as an exception.
  datatype Result = Done(loop: Loop) | Raised(loop: Loop)

  function Max(a: int, b: int): int { if a < b then b else a }

  function Min(a: int, b: int): int { if a < b then a else b }

  function Bps(c: Config): (b: int)
    ensures b >= 1
  {
    Max(1, c.fillRateBps)
  }

  // CREDIT expected for u USDG.
  function Fill(c: Config, u: int): int {
    u * Bps(c) / 10_000
  }

  function UsdgForCreditNeed(c: Config, need: int): int {
    if need <= 0 then 0 else (need * 10_000 + Bps(c) - 1) / Bps(c)
  }

  predicate ObjectiveMet(l: Loop) { l.acquired >= l.target && l.activated }

  function Need(l: Loop): int { Max(0, l.target - l.acquired) }

  function Verify(intent: Intent, outcome: Outcome, evidence: Option<Evidence>): Verdict {
    if outcome == TimedOut || outcome == Undetermined then Pending
    else if evidence.None? || outcome == Failure then Rejected
    else
      var e := evidence.value;
      if e.otherFieldsMatch && e.usdg == intent.usdg && e.credit >= intent.minCredit then Verified(e) else Rejected
  }

  // ---------- proposing ----------

  function Propose(c: Config, l: Loop, usdg: int, minCredit: int, amount: int): Intent {
    var single := if usdg > c.maxSingle then c.maxSingle else usdg;
    var remaining := c.maxCumulative - l.spent;
    var clamped := if single > remaining then Max(0, remaining) else single;
    Intent(l.iteration + 1, clamped, minCredit, if amount == 0 then Max(1, clamped / 1_000_000) else amount)
  }

  function Sized(c: Config, l: Loop): int {
    Min(Min(UsdgForCreditNeed(c, Need(l)), c.maxSingle), c.maxCumulative - l.spent)
  }

  function NextIntent(c: Config, l: Loop): Intent {
    var u := Sized(c, l);
    Propose(c, l, u, Max(1, u * 90 / 100), Max(1, u / 1_000_000))
  }

  // ---------- executing ----------

  // The pending operation is one the loop created.
  predicate WellFormed(l: Loop) { l.pendingOp.Some? ==> l.pendingOp.value < |l.ops| }

  function Move(l: Loop, from: Account, to: Account, op: nat, name: TxName): (r: Result)
    requires op < |l.ops|
    ensures r.loop == l.(book := r.loop.book)
  {
    match Transfer(l.book, from, to, l.ops[op].intent.amount, Mentions(op), Some(name))
    case Posted(book, _) => Done(l.(book := book))
    case Refused(_) => Raised(l)
  }

  // A transfer out of escrow is attempted only when escrow covers it.
  function Release(l: Loop, to: Account, op: nat, name: TxName): (r: Result)
    requires op < |l.ops|
    ensures r.loop == l.(book := r.loop.book)
  {
    if Balance(l.book, Escrow) >= l.ops[op].intent.amount then Move(l, Escrow, to, op, name) else Done(l)
  }

  function Mark(l: Loop, op: nat, fate: Fate): Loop
    requires op < |l.ops|
  {
    l.(ops := l.ops[op := l.ops[op].(fate := fate)])
  }

  function Acquire(l: Loop, intent: Intent, e: Evidence): Loop {
    var l' := l.(acquired := l.acquired + e.credit, spent := l.spent + e.usdg, activated := true,
                 completed := l.completed + [intent], pendingIntent := None, pendingOp := None);
    l'.(status := if ObjectiveMet(l') then ObjectiveComplete else Ready)
  }

  function Abandon(l: Loop, op: nat, name: TxName): (r: Result)
    requires op < |l.ops| && WellFormed(l)
    ensures WellFormed(r.loop)
  {
    var r := Release(l, Treasury, op, name);
    if r.Raised? then r
    else Done(Mark(r.loop, op, Failed).(status := StoppedFailure, hasApproval := false))
  }

  function Conclude(l: Loop, op: nat, intent: Intent, e: Evidence): (r: Result)
    requires op < |l.ops| && WellFormed(l)
    ensures WellFormed(r.loop)
  {
    var r := Release(l, ExternalSink, op, LoopSettle(op));
    if r.Raised? then r
    else Done(Acquire(Mark(r.loop, op, Succeeded).(hasApproval := false), intent, e))
  }

  // From the funded operation to the verified or refunded one.
  function Submit(l: Loop, op: nat, intent: Intent, a: Answers): (r: Result)
    requires op < |l.ops| && WellFormed(l)
    ensures WellFormed(r.loop)
  {
    Answered(l.(dispatches := l.dispatches + 1), op, intent, a)
  }

  function Answered(sent: Loop, op: nat, intent: Intent, a: Answers): (r: Result)
    requires op < |sent.ops| && WellFormed(sent)
    ensures WellFormed(r.loop)
  {
    match a.outcome
    case TimedOut =>
      Done(Mark(sent, op, Unresolved).(pendingOp := Some(op), pendingIntent := Some(intent), status := WaitingReconcile))
    case Failure => Abandon(sent, op, LoopRefund(op))
    case Undetermined => Abandon(sent, op, LoopRefund(op))
    case Success =>
      match Verify(intent, a.outcome, a.evidence)
      case Verified(e) => Conclude(sent, op, intent, e)
      case _ => Abandon(sent, op, LoopRejected(op))
  }

  function ExecuteAuthorized(l: Loop, intent: Intent, a: Answers): (r: Result)
    requires WellFormed(l)
    ensures WellFormed(r.loop)
  {
    var op := |l.ops|;
    var created := l.(ops := l.ops + [Operation(intent, Unresolved)]);
    if intent.amount > 0 && Balance(l.book, Treasury) < intent.amount
    then Done(Mark(created, op, Unfunded).(status := StoppedSpendLimit))
    else
      var r := Move(created, Treasury, Escrow, op, LoopEscrow(op));
      if r.Raised? then r else Submit(r.loop, op, intent, a)
  }

  // ---------- the three handlers and the step ----------

  function HandleWaitingHuman(l: Loop, a: Answers): (r: Result)
    requires WellFormed(l)
    ensures WellFormed(r.loop)
  {
    if l.pendingIntent.None? then Done(l.(status := StoppedFailure))
    else if !l.hasApproval then Done(l)
    else if a.decision != Allow then Done(l.(status := WaitingHuman, hasApproval := false))
    else ExecuteAuthorized(l.(status := Ready), l.pendingIntent.value, a)
  }

  function HandleReconcile(c: Config, l: Loop, a: Answers): (r: Result)
    requires WellFormed(l)
    ensures WellFormed(r.loop)
  {
    if !c.hasReconciler || l.pendingOp.None? || l.pendingIntent.None?
    then Done(l.(status := StoppedUnknown))
    else
      var op, intent := l.pendingOp.value, l.pendingIntent.value;
      match Verify(intent, a.outcome, a.evidence)
      case Pending => Done(l.(status := WaitingReconcile))
      case Rejected =>
        var r := Release(l, Treasury, op, PurchaseRollback(op));
        if r.Raised? then r
        else Done(Mark(r.loop, op, ReconciledRefunded).(status := StoppedFailure, pendingOp := None, pendingIntent := None))
      case Verified(e) =>
        var r := Release(l, ExternalSink, op, PurchaseCommit(op));
        if r.Raised? then r
        else Done(Acquire(Mark(r.loop, op, ReconciledPaid), intent, e))
  }

  function Begin(c: Config, l: Loop, a: Answers): (r: Result)
    requires WellFormed(l)
    ensures WellFormed(r.loop)
  {
    if l.iteration >= c.maxIterations then Done(l.(status := StoppedIterationLimit))
    else if l.spent >= c.maxCumulative then Done(l.(status := StoppedSpendLimit))
    else if Need(l) <= 0 then Done(l.(status := ObjectiveComplete))
    else if Sized(c, l) <= 0 then Done(l.(status := StoppedSpendLimit))
    else if !c.tenantMatches then Raised(l.(status := StoppedCrossTenant))
    else
      var intent := NextIntent(c, l);
      if intent in l.completed then Done(l.(status := ObjectiveComplete))
      else
        var counted := l.(iteration := l.iteration + 1);
        match a.decision
        case HumanConfirmationRequired => Done(counted.(status := WaitingHuman, pendingIntent := Some(intent)))
        case Deny => Done(counted.(status := StoppedPolicyDeny))
        case Allow => ExecuteAuthorized(counted, intent, a)
  }

  function Step(c: Config, l: Loop, a: Answers): (r: Result)
    requires WellFormed(l)
    ensures WellFormed(r.loop)
  {
    if ObjectiveMet(l) then Done(l.(status := ObjectiveComplete))
    else if l.status == WaitingHuman then HandleWaitingHuman(l, a)
    else if l.status == WaitingReconcile then HandleReconcile(c, l, a)
    else if l.status != Ready then Done(l)
    else Begin(c, l, a)
  }

  // ---------- sizing ----------

  // The ceiling division finds the least USDG whose fill covers the need.
  lemma SizeIsLeast(c: Config, need: int, u: int)
    requires need > 0 && u >= 0
    ensures var size := UsdgForCreditNeed(c, need);
            size > 0 && Fill(c, size) >= need && (u < size ==> Fill(c, u) < need)
  {
    var b := Bps(c);
    var n := need * 10_000;
    var size := (n + b - 1) / b;
    assert UsdgForCreditNeed(c, need) == size;
    DivBounds(n + b - 1, b);
    MulMono(b, u, size - 1);
  }

  lemma DivBounds(n: int, b: int)
    requires b > 0
    ensures (n / b) * b <= n < (n / b) * b + b
  {}

  lemma MulMono(b: int, u: int, v: int)
    requires b > 0
    ensures u <= v ==> u * b <= v * b
    ensures (v + 1) * b == v * b + b
  {}

  lemma DivMono(x: int, y: int)
    requires x <= y
    ensures x / 10_000 <= y / 10_000
  {}

  // ---------- the invariant ----------

  function PaidIn(op: Operation): int {
    if op.fate == Succeeded || op.fate == ReconciledPaid then op.intent.amount else 0
  }

  function Paid(ops: seq<Operation>): int {
    if ops == [] then 0 else Paid(ops[..|ops| - 1]) + PaidIn(ops[|ops| - 1])
  }

  function LoopOp(name: TxName): Option<nat> {
    match name
    case LoopEscrow(op) => Some(op)
    case LoopRefund(op) => Some(op)
    case LoopRejected(op) => Some(op)
    case LoopSettle(op) => Some(op)
    case PurchaseCommit(op) => Some(op)
    case PurchaseRollback(op) => Some(op)
    case _ => None
  }

  // No transaction id of operation `op` or later has been used.
  ghost predicate UnusedFrom(b: Book, op: nat) {
    forall t :: t in b.txIds && t.Chosen? && LoopOp(t.name).Some? ==> LoopOp(t.name).value < op
  }

  // A proposal whose outcome is still open: waiting for a human or for reconciliation.
  predicate Open(l: Loop) { l.status == WaitingHuman || l.pendingOp.Some? }

  ghost predicate History(c: Config, l: Loop) {
    && (forall x :: x in l.completed ==> x.serial <= l.iteration && (Open(l) ==> x.serial < l.iteration))
    && (forall i, j :: 0 <= i < j < |l.completed| ==> l.completed[i].serial != l.completed[j].serial)
    && l.spent <= c.maxCumulative
    && l.dispatches + (if l.status == WaitingHuman then 1 else 0) <= l.iteration <= c.maxIterations
  }

  ghost predicate Fits(c: Config, l: Loop, i: Intent) {
    i.serial == l.iteration && i.amount > 0 && i.usdg > 0 && i.minCredit > 0 && l.spent + i.usdg <= c.maxCumulative
  }

  // `sink` is what EXTERNAL_SINK held before the loop started.
  ghost predicate Money(l: Loop, sink: int) {
    && Valid(l.book) && UnusedFrom(l.book, |l.ops|) && WellFormed(l)
    && Balance(l.book, Escrow) == (if l.pendingOp.Some? then l.ops[l.pendingOp.value].intent.amount else 0)
    && Balance(l.book, ExternalSink) == sink + Paid(l.ops)
  }

  ghost predicate Inv(c: Config, l: Loop, sink: int) {
    && Money(l, sink) && History(c, l)
    && (l.pendingOp.Some? <==> l.status == WaitingReconcile || l.status == StoppedUnknown)
    && (Open(l) ==> l.pendingIntent.Some? && Fits(c, l, l.pendingIntent.value))
    && (l.pendingOp.Some? ==>
          var p := l.pendingOp.value;
          && l.ops[p] == Operation(l.pendingIntent.value, Unresolved)
          && !ObjectiveMet(l)
          && Chosen(PurchaseCommit(p)) !in l.book.txIds && Chosen(PurchaseRollback(p)) !in l.book.txIds)
  }

  // ---------- one operation from escrow to its end ----------

  lemma PaidAppend(ops: seq<Operation>, op: Operation)
    ensures Paid(ops + [op]) == Paid(ops) + PaidIn(op)
  {
    assert (ops + [op])[..|ops|] == ops;
  }

  lemma {:induction false} PaidMark(ops: seq<Operation>, i: nat, op: Operation)
    requires i < |ops|
    ensures Paid(ops[i := op]) == Paid(ops) - PaidIn(ops[i]) + PaidIn(op)
    decreases |ops|
  {
    var n := |ops| - 1;
    if i == n { assert ops[i := op][..n] == ops[..n]; }
    else {
      PaidMark(ops[..n], i, op);
      assert ops[i := op][..n] == ops[..n][i := op];
    }
  }

  // Between funding and settlement: operation `op` alone has credits in escrow.
  ghost predicate Funded(l: Loop, op: nat, sink: int) {
    && op < |l.ops| && l.ops[op].intent.amount > 0 && PaidIn(l.ops[op]) == 0
    && Valid(l.book) && UnusedFrom(l.book, |l.ops|)
    && Balance(l.book, Escrow) == l.ops[op].intent.amount
    && Balance(l.book, ExternalSink) == sink + Paid(l.ops)
  }

  // Release never raises here, empties escrow, and pays the sink exactly when told to.
  lemma ReleaseSettles(l: Loop, to: Account, op: nat, name: TxName, fate: Fate, sink: int)
    requires Funded(l, op, sink) && (to == Treasury || to == ExternalSink)
    requires LoopOp(name) == Some(op) && Chosen(name) !in l.book.txIds
    requires PaidIn(Operation(l.ops[op].intent, fate)) == (if to == ExternalSink then l.ops[op].intent.amount else 0)
    ensures var r := Release(l, to, op, name);
            && r.Done? && Valid(r.loop.book) && UnusedFrom(r.loop.book, |l.ops|)
            && Balance(r.loop.book, Escrow) == 0
            && Balance(r.loop.book, ExternalSink) == sink + Paid(Mark(r.loop, op, fate).ops)
  {
    TransferKeepsValid(l.book, Escrow, to, l.ops[op].intent.amount, Mentions(op), Some(name));
    PaidMark(l.ops, op, l.ops[op].(fate := fate));
    hide Valid;
  }

  // An authorized intent about to be executed, nothing else outstanding.
  ghost predicate Cleared(c: Config, l: Loop, intent: Intent) {
    && l.status == Ready && l.pendingOp.None? && Fits(c, l, intent) && !ObjectiveMet(l)
    && (forall x :: x in l.completed ==> x.serial < l.iteration)
    && (forall i, j :: 0 <= i < j < |l.completed| ==> l.completed[i].serial != l.completed[j].serial)
    && l.dispatches < l.iteration <= c.maxIterations
  }

  // The loop just after the provider was called.
  ghost predicate Sent(c: Config, l: Loop, op: nat, intent: Intent, sink: int) {
    && l.dispatches > 0 && Cleared(c, l.(dispatches := l.dispatches - 1), intent) && Funded(l, op, sink)
    && l.ops[op] == Operation(intent, Unresolved)
    && (forall t :: t in l.book.txIds && t.Chosen? && LoopOp(t.name) == Some(op) ==> t.name == LoopEscrow(op))
  }

  lemma SentStopped(c: Config, l: Loop, op: nat, intent: Intent, sink: int, l': Loop)
    requires Sent(c, l, op, intent, sink) && Money(l', sink)
    requires l' == l.(ops := l'.ops, book := l'.book, status := StoppedFailure, hasApproval := false)
    ensures Inv(c, l', sink)
  {
    hide Money, Funded;
  }

  lemma SentAcquired(c: Config, l: Loop, op: nat, intent: Intent, sink: int, l': Loop, e: Evidence)
    requires Sent(c, l, op, intent, sink) && e.usdg == intent.usdg
    requires l' == Acquire(l.(ops := l'.ops, book := l'.book, hasApproval := false), intent, e) && Money(l', sink)
    ensures Inv(c, l', sink)
  {
    hide Money, Funded;
  }

  lemma SentTimedOut(c: Config, l: Loop, op: nat, intent: Intent, sink: int)
    requires Sent(c, l, op, intent, sink)
    ensures Inv(c, l.(pendingOp := Some(op), pendingIntent := Some(intent), status := WaitingReconcile), sink)
  {
    assert Chosen(PurchaseCommit(op)) !in l.book.txIds && Chosen(PurchaseRollback(op)) !in l.book.txIds;
    hide Valid, LoopOp, UnusedFrom, Paid;
  }

  lemma AbandonKeepsInv(c: Config, l: Loop, op: nat, intent: Intent, name: TxName, sink: int)
    requires Sent(c, l, op, intent, sink) && LoopOp(name) == Some(op) && name != LoopEscrow(op)
    ensures var r := Abandon(l, op, name); r.Done? && Inv(c, r.loop, sink)
  {
    hide Valid, Release, UnusedFrom, Paid, LoopOp, Inv;
    ReleaseSettles(l, Treasury, op, name, Failed, sink);
    SentStopped(c, l, op, intent, sink, Abandon(l, op, name).loop);
  }

  lemma ConcludeKeepsInv(c: Config, l: Loop, op: nat, intent: Intent, e: Evidence, sink: int)
    requires Sent(c, l, op, intent, sink) && e.usdg == intent.usdg && LoopOp(LoopSettle(op)) == Some(op)
    ensures var r := Conclude(l, op, intent, e); r.Done? && Inv(c, r.loop, sink)
  {
    hide Valid, Release, UnusedFrom, Paid, LoopOp, Inv;
    ReleaseSettles(l, ExternalSink, op, LoopSettle(op), Succeeded, sink);
    SentAcquired(c, l, op, intent, sink, Conclude(l, op, intent, e).loop, e);
  }

  lemma NamesOfLoop(op: nat)
    ensures LoopOp(LoopRefund(op)) == LoopOp(LoopRejected(op)) == LoopOp(LoopSettle(op)) == Some(op)
  {}

  lemma SentIsOpen(c: Config, l: Loop, op: nat, intent: Intent, sink: int)
    requires Sent(c, l, op, intent, sink)
    ensures op < |l.ops| && l.ops[op] == Operation(intent, Unresolved)
  {}

  lemma VerifiedMatches(intent: Intent, outcome: Outcome, evidence: Option<Evidence>)
    ensures var v := Verify(intent, outcome, evidence); v.Verified? ==> v.evidence.usdg == intent.usdg
  {}

  lemma AnsweredKeepsInv(c: Config, l: Loop, op: nat, intent: Intent, a: Answers, sink: int)
    requires Sent(c, l, op, intent, sink) && WellFormed(l)
    ensures var r := Answered(l, op, intent, a); r.Done? && Inv(c, r.loop, sink)
  {
    hide LoopOp, Abandon, Conclude, Inv, Sent, Verify;
    NamesOfLoop(op);
    SentIsOpen(c, l, op, intent, sink);
    VerifiedMatches(intent, a.outcome, a.evidence);
    match a.outcome
    case TimedOut =>
      SentTimedOut(c, l, op, intent, sink);
      assert Mark(l, op, Unresolved).ops == l.ops;
    case Failure => AbandonKeepsInv(c, l, op, intent, LoopRefund(op), sink);
    case Undetermined => AbandonKeepsInv(c, l, op, intent, LoopRefund(op), sink);
    case Success =>
      var v := Verify(intent, a.outcome, a.evidence);
      if v.Verified? { ConcludeKeepsInv(c, l, op, intent, v.evidence, sink); }
      else { AbandonKeepsInv(c, l, op, intent, LoopRejected(op), sink); }
  }

  lemma SubmitKeepsInv(c: Config, l: Loop, op: nat, intent: Intent, a: Answers, sink: int)
    requires Cleared(c, l, intent) && Funded(l, op, sink) && l.ops[op] == Operation(intent, Unresolved)
    requires forall t :: t in l.book.txIds && t.Chosen? && LoopOp(t.name) == Some(op) ==> t.name == LoopEscrow(op)
    ensures var r := Submit(l, op, intent, a); r.Done? && Inv(c, r.loop, sink)
  {
    hide Valid, LoopOp, UnusedFrom, Paid, Answered, Inv;
    var sent := l.(dispatches := l.dispatches + 1);
    assert sent.(dispatches := sent.dispatches - 1) == l;
    AnsweredKeepsInv(c, sent, op, intent, a, sink);
  }

  lemma FundingWorks(l: Loop, intent: Intent, sink: int)
    requires Money(l, sink) && l.pendingOp.None? && intent.amount > 0 && Balance(l.book, Treasury) >= intent.amount
    ensures var op, created := |l.ops|, l.(ops := l.ops + [Operation(intent, Unresolved)]);
            var r := Move(created, Treasury, Escrow, op, LoopEscrow(op));
            && r.Done? && Funded(r.loop, op, sink)
            && (forall t :: t in r.loop.book.txIds && t.Chosen? && LoopOp(t.name) == Some(op) ==> t.name == LoopEscrow(op))
  {
    var op := |l.ops|;
    TransferKeepsValid(l.book, Treasury, Escrow, intent.amount, Mentions(op), Some(LoopEscrow(op)));
    PaidAppend(l.ops, Operation(intent, Unresolved));
    assert Chosen(LoopEscrow(op)) !in l.book.txIds;
    hide Valid, Paid;
  }

  lemma UnfundedKeepsInv(c: Config, l: Loop, intent: Intent, sink: int)
    requires Cleared(c, l, intent) && Money(l, sink)
    ensures Inv(c, l.(ops := l.ops + [Operation(intent, Unfunded)], status := StoppedSpendLimit), sink)
  {
    PaidAppend(l.ops, Operation(intent, Unfunded));
    hide Valid, Paid, LoopOp;
  }

  lemma ExecuteKeepsInv(c: Config, l: Loop, intent: Intent, a: Answers, sink: int)
    requires Cleared(c, l, intent) && Money(l, sink)
    ensures var r := ExecuteAuthorized(l, intent, a); r.Done? && Inv(c, r.loop, sink)
  {
    hide Inv, Move, Submit, Funded, LoopOp, Valid, UnusedFrom, Paid;
    var op, created := |l.ops|, l.(ops := l.ops + [Operation(intent, Unresolved)]);
    if Balance(l.book, Treasury) >= intent.amount {
      FundingWorks(l, intent, sink);
      SubmitKeepsInv(c, Move(created, Treasury, Escrow, op, LoopEscrow(op)).loop, op, intent, a, sink);
    } else {
      UnfundedKeepsInv(c, l, intent, sink);
      assert Mark(created, op, Unfunded).ops == l.ops + [Operation(intent, Unfunded)];
    }
  }

  // ---------- the handlers ----------

  // The clamps inside `propose_purchase` have nothing left to cut.
  lemma ProposalIsAsSized(c: Config, l: Loop)
    requires Sized(c, l) > 0
    ensures var u := Sized(c, l);
            && NextIntent(c, l) == Intent(l.iteration + 1, u, Max(1, u * 90 / 100), Max(1, u / 1_000_000))
            && l.spent + u <= c.maxCumulative
  {}

  // The minimum asked for is positive and at most the amount.
  lemma SlippageBoundFits(c: Config, l: Loop)
    requires Sized(c, l) > 0
    ensures 0 < NextIntent(c, l).minCredit <= NextIntent(c, l).usdg
  {
    ProposalIsAsSized(c, l);
  }

  lemma BeginKeepsInv(c: Config, l: Loop, a: Answers, sink: int)
    requires Inv(c, l, sink) && l.status == Ready && !ObjectiveMet(l)
    ensures var r := Begin(c, l, a); Inv(c, r.loop, sink) && (c.tenantMatches ==> r.Done?)
  {
    hide Valid, ExecuteAuthorized, Sized, NextIntent;
    if Sized(c, l) > 0 && l.iteration < c.maxIterations {
      ProposalIsAsSized(c, l);
      var intent := NextIntent(c, l);
      assert intent !in l.completed;
      var counted := l.(iteration := l.iteration + 1);
      assert Cleared(c, counted, intent) && Money(counted, sink);
      ExecuteKeepsInv(c, counted, intent, a, sink);
    }
  }

  // The duplicate-intent branch is dead: a new proposal never repeats a completed one.
  lemma ProposalIsNew(c: Config, l: Loop, sink: int)
    requires Inv(c, l, sink) && l.status == Ready && Sized(c, l) > 0
    ensures NextIntent(c, l) !in l.completed
  {
    ProposalIsAsSized(c, l);
    hide Valid;
  }

  lemma HumanKeepsInv(c: Config, l: Loop, a: Answers, sink: int)
    requires Inv(c, l, sink) && l.status == WaitingHuman && !ObjectiveMet(l)
    ensures var r := HandleWaitingHuman(l, a); r.Done? && Inv(c, r.loop, sink)
  {
    hide Valid, ExecuteAuthorized;
    var cleared := l.(status := Ready);
    assert Cleared(c, cleared, l.pendingIntent.value) && Money(cleared, sink);
    ExecuteKeepsInv(c, cleared, l.pendingIntent.value, a, sink);
  }

  lemma PendingIsFunded(c: Config, l: Loop, sink: int)
    requires Inv(c, l, sink) && l.status == WaitingReconcile
    ensures var op := l.pendingOp.value;
            && Funded(l, op, sink)
            && LoopOp(PurchaseCommit(op)) == LoopOp(PurchaseRollback(op)) == Some(op)
  {
    hide Valid, UnusedFrom, Paid;
  }

  lemma ReconcilePaid(c: Config, l: Loop, e: Evidence, sink: int)
    requires Inv(c, l, sink) && l.status == WaitingReconcile && e.usdg == l.pendingIntent.value.usdg
    ensures var op := l.pendingOp.value;
            var r := Release(l, ExternalSink, op, PurchaseCommit(op));
            r.Done? && Inv(c, Acquire(Mark(r.loop, op, ReconciledPaid), l.pendingIntent.value, e), sink)
  {
    hide Valid, Release, UnusedFrom, Paid, LoopOp, Funded;
    PendingIsFunded(c, l, sink);
    ReleaseSettles(l, ExternalSink, l.pendingOp.value, PurchaseCommit(l.pendingOp.value), ReconciledPaid, sink);
  }

  lemma ReconcileRefunded(c: Config, l: Loop, sink: int)
    requires Inv(c, l, sink) && l.status == WaitingReconcile
    ensures var op := l.pendingOp.value;
            var r := Release(l, Treasury, op, PurchaseRollback(op));
            r.Done? && Inv(c, Mark(r.loop, op, ReconciledRefunded).(status := StoppedFailure, pendingOp := None, pendingIntent := None), sink)
  {
    hide Valid, Release, UnusedFrom, Paid, LoopOp, Funded;
    PendingIsFunded(c, l, sink);
    ReleaseSettles(l, Treasury, l.pendingOp.value, PurchaseRollback(l.pendingOp.value), ReconciledRefunded, sink);
  }

  lemma ReconcileKeepsInv(c: Config, l: Loop, a: Answers, sink: int)
    requires Inv(c, l, sink) && l.status == WaitingReconcile
    ensures var r := HandleReconcile(c, l, a); r.Done? && Inv(c, r.loop, sink)
  {
    hide Valid, Release, UnusedFrom, Paid, Mark, Acquire;
    var v := Verify(l.pendingIntent.value, a.outcome, a.evidence);
    if v.Verified? { ReconcilePaid(c, l, v.evidence, sink); }
    else if v.Rejected? { ReconcileRefunded(c, l, sink); }
  }

  lemma StepKeepsInv(c: Config, l: Loop, a: Answers, sink: int)
    requires Inv(c, l, sink)
    ensures var r := Step(c, l, a); Inv(c, r.loop, sink) && (c.tenantMatches ==> r.Done?)
  {
    hide Valid, HandleWaitingHuman, HandleReconcile, Begin;
    if !ObjectiveMet(l) {
      if l.status == WaitingHuman { HumanKeepsInv(c, l, a, sink); }
      else if l.status == WaitingReconcile { ReconcileKeepsInv(c, l, a, sink); }
      else if l.status == Ready { BeginKeepsInv(c, l, a, sink); }
    }
  }

  // The intent a loop waits for a human about is still what it would size now.
  ghost predicate PendingAsSized(c: Config, l: Loop) {
    l.status == WaitingHuman && l.pendingIntent.Some? ==> l.pendingIntent.value.amount == Max(1, Sized(c, l) / 1_000_000)
  }

  lemma StepKeepsPendingSized(c: Config, l: Loop, a: Answers)
    requires WellFormed(l) && PendingAsSized(c, l)
    ensures PendingAsSized(c, Step(c, l, a).loop)
  {
    hide ExecuteAuthorized, HandleReconcile;
    if l.pendingIntent.Some? { ExecuteStatus(l.(status := Ready), l.pendingIntent.value, a); }
    if l.status != WaitingHuman {
      ExecuteStatus(l.(iteration := l.iteration + 1), NextIntent(c, l), a);
      ReconcileStatus(c, l, a);
    }
    if Sized(c, l) > 0 { ProposalIsAsSized(c, l); }
    hide NextIntent;
    assert forall m :: Sized(c, l.(iteration := m)) == Sized(c, l);
  }

  // No execution leaves the loop waiting for a human.
  lemma ExecuteStatus(l: Loop, intent: Intent, a: Answers)
    requires WellFormed(l) && l.status != WaitingHuman
    ensures ExecuteAuthorized(l, intent, a).loop.status != WaitingHuman
  {
    hide Verify, Transfer;
  }

  lemma ReconcileStatus(c: Config, l: Loop, a: Answers)
    requires WellFormed(l) && l.status != WaitingHuman
    ensures HandleReconcile(c, l, a).loop.status != WaitingHuman
  {
    hide Verify, Transfer;
  }

  // ---------- runs ----------

  datatype Event = StepWith(answers: Answers) | ApprovalSupplied

  function Next(c: Config, l: Loop, e: Event): (l': Loop)
    requires WellFormed(l)
    ensures WellFormed(l')
  {
    match e
    case StepWith(a) => Step(c, l, a).loop
    case ApprovalSupplied => l.(hasApproval := true)
  }

  function Run(c: Config, l: Loop, events: seq<Event>): (l': Loop)
    requires WellFormed(l)
    ensures WellFormed(l')
    decreases |events|
  {
    if events == [] then l else Run(c, Next(c, l, events[0]), events[1..])
  }

  // A loop about to start over a ledger with nothing in escrow.
  ghost predicate Initial(c: Config, l: Loop) {
    && l.status == Ready && l.pendingOp.None? && l.ops == [] && l.dispatches == 0
    && Valid(l.book) && UnusedFrom(l.book, 0) && Balance(l.book, Escrow) == 0 && History(c, l)
  }

  lemma NextKeepsInv(c: Config, l: Loop, e: Event, sink: int)
    requires Inv(c, l, sink)
    ensures Inv(c, Next(c, l, e), sink)
  {
    if e.StepWith? { hide Inv, Step; StepKeepsInv(c, l, e.answers, sink); } else { hide Valid, LoopOp; }
  }

  lemma {:induction false} RunKeepsInv(c: Config, l: Loop, events: seq<Event>, sink: int)
    requires Inv(c, l, sink)
    ensures Inv(c, Run(c, l, events), sink)
    decreases |events|
  {
    assert WellFormed(l);
    hide Inv, Next;
    if events != [] {
      NextKeepsInv(c, l, events[0], sink);
      RunKeepsInv(c, Next(c, l, events[0]), events[1..], sink);
    }
  }

  lemma {:induction false} RunKeepsPendingSized(c: Config, l: Loop, events: seq<Event>)
    requires WellFormed(l) && PendingAsSized(c, l)
    ensures PendingAsSized(c, Run(c, l, events))
    decreases |events|
  {
    if events != [] {
      if events[0].StepWith? { StepKeepsPendingSized(c, l, events[0].answers); }
      assert events[0].ApprovalSupplied? ==> Sized(c, Next(c, l, events[0])) == Sized(c, l);
      hide Step, Sized;
      RunKeepsPendingSized(c, Next(c, l, events[0]), events[1..]);
    }
  }

  // Every reachable loop: escrow is exactly the pending operation, the sink exactly the paid ones,
  // the budget and the iteration limit hold, no purchase is counted twice.
  lemma EveryLoopIsSound(c: Config, start: Loop, events: seq<Event>)
    requires Initial(c, start)
    ensures var l := Run(c, start, events);
            && Balance(l.book, Escrow) == (if l.pendingOp.Some? then l.ops[l.pendingOp.value].intent.amount else 0)
            && Balance(l.book, ExternalSink) == Balance(start.book, ExternalSink) + Paid(l.ops)
            && l.spent <= c.maxCumulative
            && l.dispatches <= l.iteration <= c.maxIterations
            && (forall i, j :: 0 <= i < j < |l.completed| ==> l.completed[i] != l.completed[j])
            && (l.pendingOp.Some? <==> l.status == WaitingReconcile || l.status == StoppedUnknown)
  {
    RunKeepsInv(c, start, events, Balance(start.book, ExternalSink));
    hide Valid, UnusedFrom, Run;
  }

  // While an outcome is unresolved nothing is proposed, created or dispatched.
  lemma NothingNewWhileUnresolved(c: Config, l: Loop, a: Answers, sink: int)
    requires Inv(c, l, sink) && l.pendingOp.Some?
    ensures var l' := Step(c, l, a).loop;
            l'.iteration == l.iteration && l'.dispatches == l.dispatches && |l'.ops| == |l.ops|
  {
    hide Valid, UnusedFrom;
  }

  // ---------- completion ----------

  // The policy allows, the exchange fills at the expected rate, the receipt matches.
  function Ideal(c: Config, l: Loop): Answers {
    Answers(Allow, Success, Some(Evidence(Fill(c, Sized(c, l)), Sized(c, l), true)))
  }

  function Charge(u: int): int { Max(1, u / 1_000_000) }

  // At a rate of 90% or better the fill meets the slippage bound as soon as it is positive.
  lemma FillMeetsBound(c: Config, u: int)
    requires c.fillRateBps >= 9000 && u >= 0 && Fill(c, u) >= 1
    ensures Fill(c, u) >= Max(1, u * 90 / 100)
  {
    var b := Bps(c);
    assert u * 9000 <= u * b;
    DivMono(u * 9000, u * b);
    assert u * 9000 / 10_000 == u * 90 / 100;
  }

  lemma ConcludePays(l: Loop, op: nat, intent: Intent, e: Evidence, sink: int)
    requires Funded(l, op, sink) && l.pendingOp.None? && Chosen(LoopSettle(op)) !in l.book.txIds
    ensures var l' := Conclude(l, op, intent, e).loop;
            && l'.acquired == l.acquired + e.credit && l'.spent == l.spent + e.usdg && l'.activated
            && l'.iteration == l.iteration && l'.target == l.target
            && l'.status == (if l'.acquired >= l'.target then ObjectiveComplete else Ready)
            && Balance(l'.book, Treasury) == Balance(l.book, Treasury)
  {
    ReleaseSettles(l, ExternalSink, op, LoopSettle(op), Succeeded, sink);
    hide Valid, UnusedFrom, Paid;
  }

  function Created(l: Loop, intent: Intent): Loop {
    l.(ops := l.ops + [Operation(intent, Unresolved)])
  }

  // A funded, filled and verified purchase goes straight to settlement.
  lemma VerifiedPath(l: Loop, intent: Intent, a: Answers)
    requires WellFormed(l) && intent.amount > 0 && Balance(l.book, Treasury) >= intent.amount
    requires Move(Created(l, intent), Treasury, Escrow, |l.ops|, LoopEscrow(|l.ops|)).Done?
    requires a.outcome == Success && Verify(intent, Success, a.evidence).Verified?
    ensures var funded := Move(Created(l, intent), Treasury, Escrow, |l.ops|, LoopEscrow(|l.ops|)).loop;
            ExecuteAuthorized(l, intent, a) ==
            Conclude(funded.(dispatches := funded.dispatches + 1), |l.ops|, intent, Verify(intent, Success, a.evidence).evidence)
  {
    hide Move, Conclude, Verify;
  }

  lemma IdealExecution(l: Loop, intent: Intent, a: Answers, sink: int)
    requires Money(l, sink) && l.pendingOp.None? && intent.amount > 0 && Balance(l.book, Treasury) >= intent.amount
    requires a.outcome == Success && Verify(intent, Success, a.evidence).Verified?
    ensures var e, l' := Verify(intent, Success, a.evidence).evidence, ExecuteAuthorized(l, intent, a).loop;
            && l'.acquired == l.acquired + e.credit && l'.spent == l.spent + e.usdg && l'.activated
            && l'.iteration == l.iteration && l'.target == l.target
            && l'.status == (if l'.acquired >= l'.target then ObjectiveComplete else Ready)
            && Balance(l'.book, Treasury) == Balance(l.book, Treasury) - intent.amount
  {
    var op := |l.ops|;
    FundingWorks(l, intent, sink);
    FundingCharges(Created(l, intent), op);
    VerifiedPath(l, intent, a);
    var funded := Move(Created(l, intent), Treasury, Escrow, op, LoopEscrow(op)).loop;
    assert Chosen(LoopSettle(op)) !in funded.book.txIds;
    hide LoopOp, Money, UnusedFrom, Valid, Paid, Verify, ExecuteAuthorized, Conclude, Move, Funded;
    SentFunded(funded, op, sink);
    ConcludePays(funded.(dispatches := funded.dispatches + 1), op, intent, Verify(intent, Success, a.evidence).evidence, sink);
  }

  // One step of an ideal run buys what was sized and charges the treasury for it.
  lemma IdealStep(c: Config, l: Loop, sink: int)
    requires Inv(c, l, sink) && l.status == Ready && !ObjectiveMet(l) && c.tenantMatches && c.fillRateBps >= 9000
    requires l.iteration < c.maxIterations && Need(l) > 0 && Sized(c, l) > 0 && Fill(c, Sized(c, l)) >= 1
    requires Balance(l.book, Treasury) >= Charge(Sized(c, l))
    ensures var u, l' := Sized(c, l), Step(c, l, Ideal(c, l)).loop;
            && Inv(c, l', sink)
            && l'.acquired == l.acquired + Fill(c, u) && l'.spent == l.spent + u && l'.activated
            && l'.iteration == l.iteration + 1 && l'.target == l.target
            && l'.status == (if l'.acquired >= l'.target then ObjectiveComplete else Ready)
            && Balance(l'.book, Treasury) == Balance(l.book, Treasury) - Charge(u)
  {
    ProposalIsAsSized(c, l);
    ProposalIsNew(c, l, sink);
    FillMeetsBound(c, Sized(c, l));
    hide Valid, UnusedFrom, Paid, ExecuteAuthorized, NextIntent, Fill, Sized;
    StepKeepsInv(c, l, Ideal(c, l), sink);
    IdealExecution(l.(iteration := l.iteration + 1), NextIntent(c, l), Ideal(c, l), sink);
    assert l.spent < c.maxCumulative;
    assert Step(c, l, Ideal(c, l)) == Begin(c, l, Ideal(c, l));
  }

  lemma SentFunded(l: Loop, op: nat, sink: int)
    requires Funded(l, op, sink)
    ensures Funded(l.(dispatches := l.dispatches + 1), op, sink)
  {
    hide Valid, UnusedFrom;
  }

  lemma FundingCharges(l: Loop, op: nat)
    requires op < |l.ops| && Move(l, Treasury, Escrow, op, LoopEscrow(op)).Done?
    ensures Balance(Move(l, Treasury, Escrow, op, LoopEscrow(op)).loop.book, Treasury) == Balance(l.book, Treasury) - l.ops[op].intent.amount
  {}

  function RunIdeal(c: Config, l: Loop, k: nat): (l': Loop)
    requires WellFormed(l)
    ensures WellFormed(l')
    decreases k
  {
    if k == 0 then l else RunIdeal(c, Step(c, l, Ideal(c, l)).loop, k - 1)
  }

  // k capped fills cover the need inside the budget, the iteration limit and the treasury.
  predicate Affordable(c: Config, k: nat, need: int, spent: int, iteration: int, treasury: int) {
    && need <= k * Fill(c, c.maxSingle)
    && spent + k * c.maxSingle <= c.maxCumulative
    && iteration + k <= c.maxIterations
    && treasury >= k * Charge(c.maxSingle)
  }

  lemma AffordableNext(c: Config, k: nat, need: int, spent: int, iteration: int, treasury: int, charge: int)
    requires Affordable(c, k, need, spent, iteration, treasury) && k >= 1 && charge <= Charge(c.maxSingle)
    ensures Affordable(c, k - 1, need - Fill(c, c.maxSingle), spent + c.maxSingle, iteration + 1, treasury - charge)
  {
    hide Fill;
    KMinus(k, Fill(c, c.maxSingle));
    KMinus(k, c.maxSingle);
    KMinus(k, Charge(c.maxSingle));
  }

  lemma InvWellFormed(c: Config, l: Loop, sink: int)
    requires Inv(c, l, sink)
    ensures WellFormed(l)
  {}

  // Then k ideal steps are enough.
  lemma {:induction false} CompletesWithin(c: Config, l: Loop, k: nat, sink: int)
    requires Inv(c, l, sink) && l.status == Ready && !ObjectiveMet(l) && c.tenantMatches && c.fillRateBps >= 9000
    requires c.maxSingle > 0 && Need(l) > 0
    requires Affordable(c, k, Need(l), l.spent, l.iteration, Balance(l.book, Treasury))
    ensures var l' := RunIdeal(c, l, k); l'.status == ObjectiveComplete && l'.acquired >= l'.target
    decreases k
  {
    hide Sized, Fill, Inv, Affordable, Charge, Step, Ideal, WellFormed, Balance;
    InvWellFormed(c, l, sink);
    IdealSizing(c, l, k);
    AffordableNext(c, k, Need(l), l.spent, l.iteration, Balance(l.book, Treasury), Charge(Sized(c, l)));
    IdealStep(c, l, sink);
    var l' := Step(c, l, Ideal(c, l)).loop;
    if l'.acquired >= l'.target { StaysComplete(c, l', k - 1); } else { CompletesWithin(c, l', k - 1, sink); }
  }

  // A step either covers the need or spends the cap in full.
  lemma IdealSizing(c: Config, l: Loop, k: nat)
    requires c.maxSingle > 0 && Need(l) > 0
    requires Affordable(c, k, Need(l), l.spent, l.iteration, Balance(l.book, Treasury))
    ensures var u, cap := Sized(c, l), c.maxSingle;
            && k >= 1 && l.iteration < c.maxIterations && 0 < u <= cap && Fill(c, u) >= 1 && Charge(u) <= Charge(cap)
            && Balance(l.book, Treasury) >= Charge(u)
            && (Fill(c, u) >= Need(l) || u == cap)
  {
    var cap, need := c.maxSingle, Need(l);
    SizeIsLeast(c, need, cap);
    if Fill(c, cap) <= 0 { NonPositive(k, Fill(c, cap)); }
    KTimes(k, cap);
    KTimes(k, Charge(cap));
  }

  lemma NonPositive(k: nat, x: int)
    requires x <= 0
    ensures k * x <= 0
  {}

  lemma KTimes(k: nat, x: int)
    requires k >= 1 && x >= 0
    ensures k * x >= x
  {}

  lemma KMinus(k: nat, x: int)
    ensures (k - 1) * x == k * x - x
  {}

  lemma {:induction false} StaysComplete(c: Config, l: Loop, k: nat)
    requires ObjectiveMet(l) && l.status == ObjectiveComplete && WellFormed(l)
    ensures var l' := RunIdeal(c, l, k); l'.status == ObjectiveComplete && l'.acquired >= l'.target
    decreases k
  {
    if k > 0 { StaysComplete(c, Step(c, l, Ideal(c, l)).loop, k - 1); }
  }

  // ---------- the object ----------

  ghost predicate Ends(r: Result, l: Loop, raised: bool) { r.loop == l && (r.Raised? <==> raised) }

  class AgentLoop {
    const config: Config
    const ledger: DoubleEntryLedger
    const target: int
    var acquired: int
    var activated: bool
    var spent: int
    var iteration: nat
    var status: Status
    var completed: seq<Intent>
    var hasApproval: bool
    var pendingIntent: Option<Intent>
    var pendingOp: Option<nat>
    var ops: seq<Operation>
    var dispatches: nat

    ghost function State(): Loop
      reads this, ledger
    {
      Loop(target, acquired, activated, spent, iteration, status, completed, hasApproval, pendingIntent, pendingOp,
           ops, dispatches, ledger.State())
    }

    constructor (config: Config, ledger: DoubleEntryLedger, target: int)
      ensures this.config == config && this.ledger == ledger
      ensures State() == Loop(target, 0, false, 0, 0, Ready, [], false, None, None, [], 0, ledger.State())
    {
      this.config, this.ledger, this.target := config, ledger, target;
      acquired, activated, spent, iteration, status := 0, false, 0, 0, Ready;
      completed, hasApproval, pendingIntent, pendingOp, ops, dispatches := [], false, None, None, [], 0;
    }

    method SupplyHumanApproval()
      modifies this`hasApproval
      ensures State() == old(State()).(hasApproval := true)
    {
      hasApproval := true;
    }

    method MoveFor(from: Account, to: Account, op: nat, name: TxName) returns (raised: bool)
      requires op < |ops|
      modifies ledger
      ensures Ends(Move(old(State()), from, to, op, name), State(), raised)
    {
      hide Transfer;
      var refused := ledger.Move(from, to, ops[op].intent.amount, Mentions(op), Some(name));
      raised := refused.Some?;
    }

    method ReleaseTo(to: Account, op: nat, name: TxName) returns (raised: bool)
      requires op < |ops|
      modifies ledger
      ensures Ends(Release(old(State()), to, op, name), State(), raised)
    {
      hide Move;
      raised := false;
      if ledger.GetBalance(Escrow) >= ops[op].intent.amount { raised := MoveFor(Escrow, to, op, name); }
    }

    method AcquireFrom(intent: Intent, e: Evidence)
      modifies this
      ensures State() == Acquire(old(State()), intent, e)
    {
      acquired := acquired + e.credit;
      spent := spent + e.usdg;
      activated := true;
      completed := completed + [intent];
      pendingIntent, pendingOp := None, None;
      status := if acquired >= target then ObjectiveComplete else Ready;
    }

    method AbandonOp(op: nat, name: TxName) returns (raised: bool)
      requires op < |ops| && WellFormed(State())
      modifies this, ledger
      ensures Ends(Abandon(old(State()), op, name), State(), raised)
    {
      hide Release;
      raised := ReleaseTo(Treasury, op, name);
      if raised { return; }
      ops := ops[op := ops[op].(fate := Failed)];
      status := StoppedFailure;
      hasApproval := false;
    }

    method ConcludeOp(op: nat, intent: Intent, e: Evidence) returns (raised: bool)
      requires op < |ops| && WellFormed(State())
      modifies this, ledger
      ensures Ends(Conclude(old(State()), op, intent, e), State(), raised)
    {
      hide Release, Acquire;
      raised := ReleaseTo(ExternalSink, op, LoopSettle(op));
      if raised { return; }
      ops := ops[op := ops[op].(fate := Succeeded)];
      hasApproval := false;
      AcquireFrom(intent, e);
    }

    method HandleAnswer(op: nat, intent: Intent, a: Answers) returns (raised: bool)
      requires op < |ops| && WellFormed(State())
      modifies this, ledger
      ensures Ends(Answered(old(State()), op, intent, a), State(), raised)
    {
      hide Abandon, Conclude, Verify;
      raised := false;
      if a.outcome == TimedOut {
        ops := ops[op := ops[op].(fate := Unresolved)];
        pendingOp, pendingIntent, status := Some(op), Some(intent), WaitingReconcile;
      } else if a.outcome != Success {
        raised := AbandonOp(op, LoopRefund(op));
      } else {
        var report := Verify(intent, a.outcome, a.evidence);
        if report.Verified? { raised := ConcludeOp(op, intent, report.evidence); }
        else { raised := AbandonOp(op, LoopRejected(op)); }
      }
    }

    method ExecutePurchase(intent: Intent, a: Answers) returns (raised: bool)
      requires WellFormed(State())
      modifies this, ledger
      ensures Ends(ExecuteAuthorized(old(State()), intent, a), State(), raised)
    {
      hide Move, Answered;
      var op := |ops|;
      ops := ops + [Operation(intent, Unresolved)];
      if intent.amount > 0 && ledger.GetBalance(Treasury) < intent.amount {
        ops := ops[op := ops[op].(fate := Unfunded)];
        status := StoppedSpendLimit;
        return false;
      }
      raised := MoveFor(Treasury, Escrow, op, LoopEscrow(op));
      if raised { return; }
      dispatches := dispatches + 1;
      raised := HandleAnswer(op, intent, a);
    }

    method WaitForHuman(a: Answers) returns (raised: bool)
      requires WellFormed(State())
      modifies this, ledger
      ensures Ends(HandleWaitingHuman(old(State()), a), State(), raised)
    {
      hide ExecuteAuthorized;
      raised := false;
      if pendingIntent.None? { status := StoppedFailure; return; }
      if !hasApproval { return; }
      if a.decision != Allow {
        status := WaitingHuman;
        hasApproval := false;
        return;
      }
      status := Ready;
      raised := ExecutePurchase(pendingIntent.value, a);
    }

    method ReconcilePending(a: Answers) returns (raised: bool)
      requires WellFormed(State())
      modifies this, ledger
      ensures Ends(HandleReconcile(config, old(State()), a), State(), raised)
    {
      hide Release, Verify, Acquire;
      raised := false;
      if !config.hasReconciler || pendingOp.None? || pendingIntent.None? { status := StoppedUnknown; return; }
      var op, intent := pendingOp.value, pendingIntent.value;
      var report := Verify(intent, a.outcome, a.evidence);
      if report.Pending? { status := WaitingReconcile; return; }
      if report.Rejected? {
        raised := ReleaseTo(Treasury, op, PurchaseRollback(op));
        if raised { return; }
        ops := ops[op := ops[op].(fate := ReconciledRefunded)];
        status, pendingOp, pendingIntent := StoppedFailure, None, None;
        return;
      }
      raised := ReleaseTo(ExternalSink, op, PurchaseCommit(op));
      if raised { return; }
      ops := ops[op := ops[op].(fate := ReconciledPaid)];
      AcquireFrom(intent, report.evidence);
    }

    method StepOnce(a: Answers) returns (raised: bool)
      requires WellFormed(State())
      modifies this, ledger
      ensures WellFormed(State()) && Ends(Step(config, old(State()), a), State(), raised)
    {
      hide ExecuteAuthorized, HandleReconcile, HandleWaitingHuman;
      raised := false;
      if acquired >= target && activated { status := ObjectiveComplete; return; }
      if status == WaitingHuman { raised := WaitForHuman(a); return; }
      if status == WaitingReconcile { raised := ReconcilePending(a); return; }
      if status != Ready { return; }
      raised := ProposeAndRun(a);
    }

    method ProposeAndRun(a: Answers) returns (raised: bool)
      requires WellFormed(State())
      modifies this, ledger
      ensures Ends(Begin(config, old(State()), a), State(), raised)
    {
      hide ExecuteAuthorized, UsdgForCreditNeed;
      raised := false;
      if iteration >= config.maxIterations { status := StoppedIterationLimit; return; }
      if spent >= config.maxCumulative { status := StoppedSpendLimit; return; }
      var need := Max(0, target - acquired);
      if need <= 0 { status := ObjectiveComplete; return; }
      var usdg := Min(Min(UsdgForCreditNeed(config, need), config.maxSingle), config.maxCumulative - spent);
      if usdg <= 0 { status := StoppedSpendLimit; return; }
      if !config.tenantMatches { status := StoppedCrossTenant; return true; }
      var intent := ProposePurchase(usdg, Max(1, usdg * 90 / 100), Max(1, usdg / 1_000_000));
      if intent in completed { status := ObjectiveComplete; return; }
      iteration := iteration + 1;
      if a.decision == HumanConfirmationRequired { status, pendingIntent := WaitingHuman, Some(intent); return; }
      if a.decision == Deny { status := StoppedPolicyDeny; return; }
      raised := ExecutePurchase(intent, a);
    }

    method ProposePurchase(usdgIn: int, minCreditOut: int, amountCredits: int) returns (intent: Intent)
      ensures intent == Propose(config, State(), usdgIn, minCreditOut, amountCredits)
    {
      var usdg := usdgIn;
      if usdg > config.maxSingle { usdg := config.maxSingle; }
      var remaining := config.maxCumulative - spent;
      if usdg > remaining { usdg := Max(0, remaining); }
      intent := Intent(iteration + 1, usdg, minCreditOut, if amountCredits != 0 then amountCredits else Max(1, usdg / 1_000_000));
    }
  }
}
