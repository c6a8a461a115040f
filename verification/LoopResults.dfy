// What one step of the purchase loop does, told on statuses, counters and balances alone: by the
// policy's decision, the provider's outcome and the fields of its evidence.
module LoopResults {
  import opened Ledger
  import opened PurchaseLoop

  // Evidence that proves the purchase the intent asked for.
  predicate Matches(i: Intent, e: Option<Evidence>) {
    e.Some? && e.value.otherFieldsMatch && e.value.usdg == i.usdg && e.value.credit >= i.minCredit
  }

  lemma VerifiedIff(i: Intent, outcome: Outcome, e: Option<Evidence>)
    ensures Verify(i, outcome, e) ==
            if outcome == TimedOut || outcome == Undetermined then Pending
            else if outcome == Success && Matches(i, e) then Verified(e.value)
            else Rejected
  {}

  // Only the fate of operation `op` differs; it may be the next one.
  ghost predicate OnlyFate(l: Loop, l': Loop, op: nat, i: Intent, fate: Fate) {
    && op <= |l.ops| && |l'.ops| == (if op < |l.ops| then |l.ops| else op + 1)
    && (forall k :: 0 <= k < |l.ops| && k != op ==> l'.ops[k] == l.ops[k])
    && l'.ops[op] == Operation(i, fate)
  }

  ghost predicate SamePlan(l: Loop, l': Loop) { l'.target == l.target && l'.iteration == l.iteration }

  // The purchase is counted: credit acquired, USDG spent, the intent completed, nothing pending.
  ghost predicate Bought(l: Loop, l': Loop, i: Intent, e: Evidence) {
    && SamePlan(l, l')
    && l'.acquired == l.acquired + e.credit && l'.spent == l.spent + e.usdg && l'.activated
    && l'.completed == l.completed + [i] && l'.pendingOp.None? && l'.pendingIntent.None?
    && l'.status == (if l.acquired + e.credit >= l.target then ObjectiveComplete else Ready)
  }

  // Nothing is counted.
  ghost predicate NothingBought(l: Loop, l': Loop) {
    && SamePlan(l, l')
    && l'.acquired == l.acquired && l'.spent == l.spent && l'.activated == l.activated && l'.completed == l.completed
  }

  // ---------- an authorized purchase ----------

  // The treasury cannot cover it: the operation is on record as unfunded and nothing is sent.
  ghost predicate LeftUnfunded(l: Loop, l': Loop, i: Intent) {
    && NothingBought(l, l') && OnlyFate(l, l', |l.ops|, i, Unfunded) && l'.status == StoppedSpendLimit
    && l'.dispatches == l.dispatches && l'.book == l.book
    && l'.pendingOp == l.pendingOp && l'.pendingIntent == l.pendingIntent && l'.hasApproval == l.hasApproval
  }

  // Sent without an answer: the amount stays in escrow.
  ghost predicate LeftOpen(l: Loop, l': Loop, i: Intent) {
    && NothingBought(l, l') && OnlyFate(l, l', |l.ops|, i, Unresolved) && l'.status == WaitingReconcile
    && l'.pendingOp == Some(|l.ops|) && l'.pendingIntent == Some(i) && l'.hasApproval == l.hasApproval
    && l'.dispatches == l.dispatches + 1 && Shifted(l.book, l'.book, -i.amount, i.amount, 0)
  }

  // Sent, and the amount is the provider's.
  ghost predicate PaidFor(l: Loop, l': Loop, i: Intent, e: Evidence) {
    && Bought(l, l', i, e) && OnlyFate(l, l', |l.ops|, i, Succeeded) && !l'.hasApproval
    && l'.dispatches == l.dispatches + 1 && Shifted(l.book, l'.book, -i.amount, 0, i.amount)
  }

  // Sent in vain: every credit is back in the treasury.
  ghost predicate GivenBack(l: Loop, l': Loop, i: Intent) {
    && NothingBought(l, l') && OnlyFate(l, l', |l.ops|, i, Fate.Failed) && l'.status == StoppedFailure
    && l'.pendingOp == l.pendingOp && l'.pendingIntent == l.pendingIntent && !l'.hasApproval
    && l'.dispatches == l.dispatches + 1 && Shifted(l.book, l'.book, 0, 0, 0)
  }

  // By funds, then by the provider's outcome, then by the evidence.
  ghost predicate ExecutedAs(l: Loop, i: Intent, a: Answers, r: Result) {
    r.Done? &&
    if Balance(l.book, Treasury) < i.amount then LeftUnfunded(l, r.loop, i)
    else if a.outcome == TimedOut then LeftOpen(l, r.loop, i)
    else if a.outcome == Success && Matches(i, a.evidence) then PaidFor(l, r.loop, i, a.evidence.value)
    else GivenBack(l, r.loop, i)
  }

  lemma Releases(l: Loop, to: Account, op: nat, name: TxName, sink: int)
    requires Funded(l, op, sink) && (to == Treasury || to == ExternalSink) && Chosen(name) !in l.book.txIds
    ensures var r, amount := Release(l, to, op, name), l.ops[op].intent.amount;
            && r.Done? && r.loop == l.(book := r.loop.book)
            && Shifted(l.book, r.loop.book, if to == Treasury then amount else 0, -amount, if to == ExternalSink then amount else 0)
  {
    hide Valid, UnusedFrom, Paid;
    TransferIs(l.book, Escrow, to, l.ops[op].intent.amount, Mentions(op), name);
    hide Transfer, Balance;
  }

  // None of the transfers that end a purchase has been made for this operation.
  ghost predicate EndUnused(b: Book, op: nat) {
    Chosen(LoopRefund(op)) !in b.txIds && Chosen(LoopRejected(op)) !in b.txIds && Chosen(LoopSettle(op)) !in b.txIds
  }

  lemma Funds(l: Loop, i: Intent, sink: int)
    requires Money(l, sink) && l.pendingOp.None? && i.amount > 0 && Balance(l.book, Treasury) >= i.amount
    ensures var op := |l.ops|; var r := Move(Created(l, i), Treasury, Escrow, op, LoopEscrow(op));
            && r.Done? && r.loop == Created(l, i).(book := r.loop.book) && Funded(r.loop, op, sink)
            && Shifted(l.book, r.loop.book, -i.amount, i.amount, 0)
            && EndUnused(r.loop.book, op)
  {
    hide Funded, Money;
    FundingWorks(l, i, sink);
    TransferIs(l.book, Treasury, Escrow, i.amount, Mentions(|l.ops|), LoopEscrow(|l.ops|));
    hide Transfer, Balance;
  }

  lemma ShiftedTwice(b: Book, b': Book, b'': Book, t: int, e: int, x: int, t': int, e': int, x': int)
    requires Shifted(b, b', t, e, x) && Shifted(b', b'', t', e', x')
    ensures Shifted(b, b'', t + t', e + e', x + x')
  {
    hide Balance;
  }

  // The loop with its next operation funded and sent; `l` is the loop before.
  ghost predicate SentFrom(l: Loop, sent: Loop, i: Intent, sink: int) {
    && WellFormed(l) && l.pendingOp.None?
    && sent == Created(l, i).(book := sent.book, dispatches := l.dispatches + 1)
    && Funded(sent, |l.ops|, sink) && Shifted(l.book, sent.book, -i.amount, i.amount, 0)
  }

  lemma ConcludesPaid(l: Loop, sent: Loop, i: Intent, e: Evidence, sink: int)
    requires SentFrom(l, sent, i, sink) && Chosen(LoopSettle(|l.ops|)) !in sent.book.txIds
    ensures var r := Conclude(sent, |l.ops|, i, e); r.Done? && PaidFor(l, r.loop, i, e)
  {
    hide Funded, Release, Shifted, Balance;
    var op := |l.ops|;
    Releases(sent, ExternalSink, op, LoopSettle(op), sink);
    ShiftedTwice(l.book, sent.book, Release(sent, ExternalSink, op, LoopSettle(op)).loop.book, -i.amount, i.amount, 0, 0, -i.amount, i.amount);
  }

  lemma AbandonsWhole(l: Loop, sent: Loop, i: Intent, name: TxName, sink: int)
    requires SentFrom(l, sent, i, sink) && Chosen(name) !in sent.book.txIds
    ensures var r := Abandon(sent, |l.ops|, name); r.Done? && GivenBack(l, r.loop, i)
  {
    hide Funded, Release, Shifted, Balance;
    var op := |l.ops|;
    Releases(sent, Treasury, op, name, sink);
    ShiftedTwice(l.book, sent.book, Release(sent, Treasury, op, name).loop.book, -i.amount, i.amount, 0, i.amount, -i.amount, 0);
  }

  lemma StaysOpen(l: Loop, sent: Loop, i: Intent, sink: int)
    requires SentFrom(l, sent, i, sink)
    ensures LeftOpen(l, Mark(sent, |l.ops|, Unresolved).(pendingOp := Some(|l.ops|), pendingIntent := Some(i), status := WaitingReconcile), i)
  {
    hide Funded, Shifted;
  }

  lemma AnsweredByOutcome(l: Loop, sent: Loop, i: Intent, a: Answers, sink: int)
    requires SentFrom(l, sent, i, sink) && Balance(l.book, Treasury) >= i.amount && WellFormed(sent) && |l.ops| < |sent.ops|
    requires EndUnused(sent.book, |l.ops|)
    ensures ExecutedAs(l, i, a, Answered(sent, |l.ops|, i, a))
  {
    hide SentFrom, LeftOpen, PaidFor, GivenBack, Abandon, Conclude, Verify, Balance, WellFormed, Mark;
    var op := |l.ops|;
    VerifiedIff(i, a.outcome, a.evidence);
    if a.outcome == TimedOut { StaysOpen(l, sent, i, sink); }
    else if a.outcome == Success && Matches(i, a.evidence) { ConcludesPaid(l, sent, i, a.evidence.value, sink); }
    else { AbandonsWhole(l, sent, i, if a.outcome == Success then LoopRejected(op) else LoopRefund(op), sink); }
  }

  lemma FundedIsSent(l: Loop, i: Intent, a: Answers)
    requires WellFormed(l) && i.amount > 0 && Balance(l.book, Treasury) >= i.amount
    requires Move(Created(l, i), Treasury, Escrow, |l.ops|, LoopEscrow(|l.ops|)).Done?
    ensures var funded := Move(Created(l, i), Treasury, Escrow, |l.ops|, LoopEscrow(|l.ops|)).loop;
            && |l.ops| < |funded.ops| && WellFormed(funded.(dispatches := funded.dispatches + 1))
            && ExecuteAuthorized(l, i, a) == Answered(funded.(dispatches := funded.dispatches + 1), |l.ops|, i, a)
  {
    hide Move, Answered;
  }

  lemma UnfundedIsLeft(l: Loop, i: Intent, a: Answers)
    requires WellFormed(l) && i.amount > 0 && Balance(l.book, Treasury) < i.amount
    ensures ExecutedAs(l, i, a, ExecuteAuthorized(l, i, a))
  {
    hide Move, Submit, LeftOpen, PaidFor, GivenBack, Matches, Balance;
  }

  lemma MoneyWellFormed(l: Loop, sink: int)
    requires Money(l, sink)
    ensures WellFormed(l)
  {
    hide Valid, UnusedFrom, Paid;
  }

  lemma FundsAndSends(l: Loop, i: Intent, sink: int)
    requires Money(l, sink) && l.pendingOp.None? && i.amount > 0 && Balance(l.book, Treasury) >= i.amount
    ensures var op := |l.ops|; var r := Move(Created(l, i), Treasury, Escrow, op, LoopEscrow(op));
            r.Done? && SentFrom(l, r.loop.(dispatches := r.loop.dispatches + 1), i, sink) && EndUnused(r.loop.book, op)
  {
    hide Money, Funded, Move, Shifted, EndUnused, Balance, WellFormed;
    MoneyWellFormed(l, sink);
    Funds(l, i, sink);
    SentFunded(Move(Created(l, i), Treasury, Escrow, |l.ops|, LoopEscrow(|l.ops|)).loop, |l.ops|, sink);
  }

  lemma ExecutesByOutcome(l: Loop, i: Intent, a: Answers, sink: int)
    requires Money(l, sink) && l.pendingOp.None? && i.amount > 0
    ensures ExecutedAs(l, i, a, ExecuteAuthorized(l, i, a))
  {
    hide *;
    MoneyWellFormed(l, sink);
    if Balance(l.book, Treasury) >= i.amount {
      FundsAndSends(l, i, sink);
      FundedIsSent(l, i, a);
      var funded := Move(Created(l, i), Treasury, Escrow, |l.ops|, LoopEscrow(|l.ops|)).loop;
      AnsweredByOutcome(l, funded.(dispatches := funded.dispatches + 1), i, a, sink);
    } else {
      UnfundedIsLeft(l, i, a);
    }
  }

  // ---------- reconciliation ----------

  // The pending amount is the provider's, and the purchase counts.
  ghost predicate PendingPaid(l: Loop, l': Loop, op: nat, i: Intent, e: Evidence) {
    && Bought(l, l', i, e) && OnlyFate(l, l', op, i, ReconciledPaid)
    && l'.dispatches == l.dispatches && l'.hasApproval == l.hasApproval && Shifted(l.book, l'.book, 0, -i.amount, i.amount)
  }

  // The pending amount is back in the treasury, and nothing counts.
  ghost predicate PendingRefunded(l: Loop, l': Loop, op: nat, i: Intent) {
    && NothingBought(l, l') && OnlyFate(l, l', op, i, ReconciledRefunded) && l'.status == StoppedFailure
    && l'.pendingOp.None? && l'.pendingIntent.None?
    && l'.dispatches == l.dispatches && l'.hasApproval == l.hasApproval && Shifted(l.book, l'.book, i.amount, -i.amount, 0)
  }

  // By the provider's status and the evidence: matching evidence pays, anything else that is final refunds,
  // and an open status moves nothing.
  ghost predicate ReconciledAs(c: Config, l: Loop, a: Answers, r: Result)
    requires l.pendingOp.Some? && l.pendingIntent.Some?
  {
    var op, i := l.pendingOp.value, l.pendingIntent.value;
    r.Done? &&
    if !c.hasReconciler then r.loop == l.(status := StoppedUnknown)
    else if a.outcome == TimedOut || a.outcome == Undetermined then r.loop == l
    else if a.outcome == Success && Matches(i, a.evidence) then PendingPaid(l, r.loop, op, i, a.evidence.value)
    else PendingRefunded(l, r.loop, op, i)
  }

  lemma PendingSettles(c: Config, l: Loop, to: Account, name: TxName, sink: int)
    requires Inv(c, l, sink) && l.status == WaitingReconcile
    requires var op := l.pendingOp.value;
             (to == Treasury && name == PurchaseRollback(op)) || (to == ExternalSink && name == PurchaseCommit(op))
    ensures var op, amount := l.pendingOp.value, l.pendingIntent.value.amount; var r := Release(l, to, op, name);
            && r.Done? && r.loop == l.(book := r.loop.book) && l.ops[op].intent == l.pendingIntent.value && !ObjectiveMet(l)
            && Shifted(l.book, r.loop.book, if to == Treasury then amount else 0, -amount, if to == ExternalSink then amount else 0)
  {
    hide Funded, Valid, UnusedFrom, Paid, Release, Shifted, Balance;
    PendingIsFunded(c, l, sink);
    Releases(l, to, l.pendingOp.value, name, sink);
  }

  lemma PaysPending(c: Config, l: Loop, e: Evidence, sink: int)
    requires Inv(c, l, sink) && l.status == WaitingReconcile
    ensures var op, i := l.pendingOp.value, l.pendingIntent.value; var r := Release(l, ExternalSink, op, PurchaseCommit(op));
            r.Done? && PendingPaid(l, Acquire(Mark(r.loop, op, ReconciledPaid), i, e), op, i, e)
  {
    PendingSettles(c, l, ExternalSink, PurchaseCommit(l.pendingOp.value), sink);
    assert WellFormed(l);
    hide Inv, Release, Shifted;
  }

  lemma RefundsPending(c: Config, l: Loop, sink: int)
    requires Inv(c, l, sink) && l.status == WaitingReconcile
    ensures var op, i := l.pendingOp.value, l.pendingIntent.value; var r := Release(l, Treasury, op, PurchaseRollback(op));
            && r.Done?
            && PendingRefunded(l, Mark(r.loop, op, ReconciledRefunded).(status := StoppedFailure, pendingOp := None, pendingIntent := None), op, i)
  {
    PendingSettles(c, l, Treasury, PurchaseRollback(l.pendingOp.value), sink);
    assert WellFormed(l);
    hide Inv, Release, Shifted;
  }

  lemma WaitingIsPending(c: Config, l: Loop, sink: int)
    requires Inv(c, l, sink) && l.status == WaitingReconcile
    ensures l.pendingOp.Some? && l.pendingIntent.Some? && !ObjectiveMet(l) && WellFormed(l)
  {
    hide Valid, UnusedFrom, Paid;
  }

  lemma ReconcilesByEvidence(c: Config, l: Loop, a: Answers, sink: int)
    requires Inv(c, l, sink) && l.status == WaitingReconcile
    ensures ReconciledAs(c, l, a, Step(c, l, a))
  {
    hide Inv, Verify, Release, ObjectiveMet, PendingPaid, PendingRefunded, Acquire, Mark, WellFormed;
    WaitingIsPending(c, l, sink);
    VerifiedIff(l.pendingIntent.value, a.outcome, a.evidence);
    if a.evidence.Some? { PaysPending(c, l, a.evidence.value, sink); }
    RefundsPending(c, l, sink);
  }

  // ---------- the step ----------

  // At the expected rate, u USDG buy the CREDIT still missing.
  predicate Covers(c: Config, l: Loop, u: int) {
    u * (if c.fillRateBps > 1 then c.fillRateBps else 1) >= (l.target - l.acquired) * 10_000
  }

  // The size of the next purchase: within both limits, and the least that covers the need unless a limit
  // stops it short.
  ghost predicate RightSize(c: Config, l: Loop, u: int) {
    && 0 < u <= c.maxSingle && u <= c.maxCumulative - l.spent
    && (u == c.maxSingle || u == c.maxCumulative - l.spent || Covers(c, l, u))
    && (forall v :: 0 <= v < u ==> !Covers(c, l, v))
  }

  // What a loop ready for a purchase proposes.
  ghost predicate Proposed(c: Config, l: Loop, i: Intent) {
    && RightSize(c, l, i.usdg) && i.serial == l.iteration + 1
    && i.minCredit == (if i.usdg * 90 / 100 >= 1 then i.usdg * 90 / 100 else 1)
    && i.amount == (if i.usdg / 1_000_000 >= 1 then i.usdg / 1_000_000 else 1)
  }

  lemma SizedRight(c: Config, l: Loop)
    requires l.acquired < l.target && c.maxSingle > 0 && l.spent < c.maxCumulative
    ensures RightSize(c, l, Sized(c, l))
  {
    var need, rate := Need(l), Bps(c);
    SizeIsLeast(c, need, 0);
    forall v | 0 <= v < Sized(c, l) ensures !Covers(c, l, v) {
      SizeIsLeast(c, need, v);
      if v * rate >= need * 10_000 { DivMono(need * 10_000, v * rate); }
    }
    DivBounds(UsdgForCreditNeed(c, need) * rate, 10_000);
  }

  lemma ProposesRight(c: Config, l: Loop)
    requires l.acquired < l.target && c.maxSingle > 0 && l.spent < c.maxCumulative
    ensures Sized(c, l) > 0 && Proposed(c, l, NextIntent(c, l))
  {
    SizedRight(c, l);
    ProposalIsAsSized(c, l);
    hide RightSize, Sized;
  }

  // At most one intent is right.
  lemma ProposedIsOne(c: Config, l: Loop, i: Intent, j: Intent)
    requires Proposed(c, l, i) && Proposed(c, l, j)
    ensures i == j
  {
    hide Covers;
    assert i.usdg < j.usdg ==> !Covers(c, l, i.usdg);
    assert j.usdg < i.usdg ==> !Covers(c, l, j.usdg);
  }

  // The two limits stop the loop, then a met target, then a single-purchase limit of nothing, then a foreign
  // tenant; otherwise exactly the right intent is proposed and the policy decides.
  ghost predicate BeganAs(c: Config, l: Loop, a: Answers, r: Result) {
    if l.iteration >= c.maxIterations then r == Done(l.(status := StoppedIterationLimit))
    else if l.spent >= c.maxCumulative then r == Done(l.(status := StoppedSpendLimit))
    else if l.acquired >= l.target then r == Done(l.(status := ObjectiveComplete))
    else if c.maxSingle <= 0 then r == Done(l.(status := StoppedSpendLimit))
    else if !c.tenantMatches then r == Raised(l.(status := StoppedCrossTenant))
    else exists i :: Proposed(c, l, i) && DecidedAs(l.(iteration := l.iteration + 1), i, a, r)
  }

  ghost predicate DecidedAs(l: Loop, i: Intent, a: Answers, r: Result) {
    match a.decision
    case Allow => ExecutedAs(l, i, a, r)
    case HumanConfirmationRequired => r == Done(l.(status := WaitingHuman, pendingIntent := Some(i)))
    case Deny => r == Done(l.(status := StoppedPolicyDeny))
  }

  // The policy's decision about the next intent.
  function Decide(l: Loop, i: Intent, a: Answers): Result
    requires WellFormed(l)
  {
    match a.decision
    case HumanConfirmationRequired => Done(l.(status := WaitingHuman, pendingIntent := Some(i)))
    case Deny => Done(l.(status := StoppedPolicyDeny))
    case Allow => ExecuteAuthorized(l, i, a)
  }

  lemma DecidesOn(c: Config, l: Loop, i: Intent, a: Answers, sink: int)
    requires Inv(c, l, sink) && l.status == Ready && i.amount > 0
    ensures DecidedAs(l.(iteration := l.iteration + 1), i, a, Decide(l.(iteration := l.iteration + 1), i, a))
  {
    assert l.pendingOp.None? && Money(l.(iteration := l.iteration + 1), sink) by { hide Valid, UnusedFrom, Paid; }
    hide Inv, Money, ExecuteAuthorized, ExecutedAs;
    ExecutesByOutcome(l.(iteration := l.iteration + 1), i, a, sink);
  }

  lemma ReachesDecision(c: Config, l: Loop, a: Answers)
    requires WellFormed(l) && l.status == Ready && !ObjectiveMet(l) && l.iteration < c.maxIterations
    requires l.acquired < l.target && l.spent < c.maxCumulative && Sized(c, l) > 0 && c.tenantMatches
    requires NextIntent(c, l) !in l.completed
    ensures Step(c, l, a) == Decide(l.(iteration := l.iteration + 1), NextIntent(c, l), a)
  {
    hide Sized, NextIntent, ExecuteAuthorized;
  }

  lemma StopsEarly(c: Config, l: Loop, a: Answers)
    requires WellFormed(l) && l.status == Ready && !ObjectiveMet(l)
    requires l.iteration >= c.maxIterations || l.acquired >= l.target || l.spent >= c.maxCumulative || c.maxSingle <= 0 || !c.tenantMatches
    ensures BeganAs(c, l, a, Step(c, l, a))
  {
    if l.acquired < l.target && c.maxSingle > 0 && l.spent < c.maxCumulative { ProposesRight(c, l); }
    hide NextIntent, ExecuteAuthorized, RightSize, Proposed, DecidedAs, UsdgForCreditNeed;
  }

  lemma BeganByDecision(c: Config, l: Loop, i: Intent, a: Answers, r: Result)
    requires l.iteration < c.maxIterations && l.acquired < l.target && l.spent < c.maxCumulative && c.maxSingle > 0 && c.tenantMatches
    requires Proposed(c, l, i) && DecidedAs(l.(iteration := l.iteration + 1), i, a, r)
    ensures BeganAs(c, l, a, r)
  {
    hide Proposed, DecidedAs;
  }

  lemma BeginsByDecision(c: Config, l: Loop, a: Answers, sink: int)
    requires Inv(c, l, sink) && l.status == Ready && !ObjectiveMet(l)
    ensures BeganAs(c, l, a, Step(c, l, a))
  {
    hide Inv, NextIntent, Sized, RightSize, DecidedAs, ObjectiveMet, Step, Decide, WellFormed, BeganAs;
    InvWellFormed(c, l, sink);
    if l.acquired < l.target && c.maxSingle > 0 && l.spent < c.maxCumulative && l.iteration < c.maxIterations && c.tenantMatches {
      ProposesRight(c, l);
      ProposalIsNew(c, l, sink);
      ReachesDecision(c, l, a);
      DecidesOn(c, l, NextIntent(c, l), a, sink);
      BeganByDecision(c, l, NextIntent(c, l), a, Step(c, l, a));
    } else {
      StopsEarly(c, l, a);
    }
  }

  // Every step of every sound loop, by its status: a met objective completes it, a human's approval lets the
  // policy decide once more about the same intent, and a stopped loop stays as it is.
  lemma StepByCase(c: Config, l: Loop, a: Answers, sink: int)
    requires Inv(c, l, sink)
    ensures var r := Step(c, l, a);
            if l.acquired >= l.target && l.activated then r == Done(l.(status := ObjectiveComplete))
            else match l.status
                 case Ready => BeganAs(c, l, a, r)
                 case WaitingHuman =>
                   && l.pendingIntent.Some?
                   && (!l.hasApproval ==> r == Done(l))
                   && (l.hasApproval && a.decision != Allow ==> r == Done(l.(hasApproval := false)))
                   && (l.hasApproval && a.decision == Allow ==> ExecutedAs(l, l.pendingIntent.value, a, r))
                 case WaitingReconcile => l.pendingOp.Some? && l.pendingIntent.Some? && ReconciledAs(c, l, a, r)
                 case _ => r == Done(l)
  {
    hide Valid, UnusedFrom, Paid, Begin, HandleReconcile, ExecuteAuthorized, BeganAs, ReconciledAs, LoopOp, Balance;
    if !ObjectiveMet(l) {
      match l.status
      case Ready => BeginsByDecision(c, l, a, sink);
      case WaitingHuman => ExecutesByOutcome(l.(status := Ready), l.pendingIntent.value, a, sink);
      case WaitingReconcile => ReconcilesByEvidence(c, l, a, sink);
      case _ =>
    }
  }
}
