// What one call at the execution boundary does, told on operation states, settlements on record and
// balances alone: by the provider's answer, by the reconciled status, and for each refusal.
module ExecutionResults {
  import opened Ledger
  import opened Execution

  // Only operation i differs, and only in its state and error; a new one has been appended.
  ghost predicate OnlyOp(s: Store, t: Store, i: nat, identity: Identity) {
    && i <= |s.ops| && |t.ops| == (if i < |s.ops| then |s.ops| else i + 1)
    && (forall j :: 0 <= j < |s.ops| && j != i ==> t.ops[j] == s.ops[j])
    && t.ops[i].identity == identity
  }

  // ---------- the call ----------

  // All checks before the operation is looked up.
  predicate Admissible(req: Request) {
    req.approved && req.token == Signed(req.identity.decision) && req.otherChecksPass && req.capable
  }

  // The operation the request belongs to: the one of this identity, or a new one.
  predicate Resolves(s: Store, req: Request, i: nat) {
    if i < |s.ops| then s.ops[i].identity == req.identity
    else i == |s.ops| && forall j :: 0 <= j < |s.ops| ==> s.ops[j].identity.key != req.identity.key
  }

  ghost predicate HasLock(s: Store, i: nat) {
    i < |s.ops| && Locked(s, i)
  }

  // Nothing stands between the request and the provider.
  ghost predicate Ready(s: Store, req: Request, i: nat) {
    && Admissible(req) && Resolves(s, req, i)
    && (i < |s.ops| ==> Presubmission(s.ops[i].state))
    && (i == |s.ops| || s.ops[i].state == Created ==> req.identity.decision !in s.journal)
    && (HasLock(s, i) || req.identity.amount <= Balance(s.book, Treasury))
  }

  // The provider heard of operation i once more, its token is used up, and the answer decides where the amount
  // goes: to the sink, back to the treasury, or nowhere until reconciliation.
  ghost predicate AnsweredAs(s: Store, i: nat, identity: Identity, result: ProviderResult, p: Progress) {
    p.Stop? && OnlyOp(s, p.store, i, identity) && p.store.dispatched == s.dispatched + [i] &&
    p.store.journal == s.journal + {identity.decision} &&
    var t, amount := p.store, identity.amount;
    var held := if HasLock(s, i) then amount else 0;
    var op := t.ops[i];
    match result
    case Success =>
      && p.outcome == Receipt && op.state == Succeeded
      && (Committed(t, i) <==> amount > 0) && !RolledBack(t, i)
      && Shifted(s.book, t.book, held - amount, -held, amount)
    case Failure =>
      && p.outcome == RejectedByProvider && op.state == Failed && op.error == ProviderRejected
      && (RolledBack(t, i) <==> amount > 0) && !Committed(t, i)
      && Shifted(s.book, t.book, held, -held, 0)
    case _ =>
      && p.outcome == OutcomeUnknown && op.state == Unknown && op.error == Ambiguous
      && !Committed(t, i) && !RolledBack(t, i)
      && Shifted(s.book, t.book, held - amount, amount - held, 0)
  }

  // The settlement transfer followed by a final state.
  function Settled(s: Store, i: nat, to: Account, name: TxName, final: OpState, error: ErrorMessage): Store
    requires i < |s.ops| && AllowedMove(s.ops[i].state, final)
  {
    match Transfer(s.book, Escrow, to, s.ops[i].identity.amount, Mentions(i), Some(name))
    case Posted(book, _) => SetState(s.(book := book), i, final, error)
    case Refused(_) => SetState(s, i, final, error)
  }

  // What it shows: the side the amount went to, and that side's settlement on record.
  lemma SettledShows(s: Store, i: nat, to: Account, name: TxName, final: OpState, error: ErrorMessage)
    requires Inv(s) && i < |s.ops| && s.ops[i].identity.amount > 0 && AllowedMove(s.ops[i].state, final)
    requires s.ops[i].state == Submitted || s.ops[i].state == Reconciling
    requires IsSettlement(s, i, to, name) && !Committed(s, i) && !RolledBack(s, i)
    requires Inv(Settled(s, i, to, name, final, error)) && OwnsToken(Settled(s, i, to, name, final, error).ops[i])
    ensures var t, amount := Settled(s, i, to, name, final, error), s.ops[i].identity.amount;
            && Shifted(s.book, t.book, if to == Treasury then amount else 0, 0 - amount, if to == ExternalSink then amount else 0)
            && (Committed(t, i) <==> to == ExternalSink) && (RolledBack(t, i) <==> to == Treasury)
  {
    hide Inv, Transfer, Balance;
    SettleInv(s, i, to, name);
    TransferIs(s.book, Escrow, to, s.ops[i].identity.amount, Mentions(i), name);
    OpOkAt(Settled(s, i, to, name, final, error), i);
  }

  lemma ConcludeIsSettled(s: Store, i: nat, to: Account, name: TxName, final: OpState, error: ErrorMessage, outcome: Outcome, fuel: nat)
    requires i < |s.ops| && AllowedMove(s.ops[i].state, final) && fuel >= 2
    requires s.ops[i].identity.amount > 0 ==> Transfer(s.book, Escrow, to, s.ops[i].identity.amount, Mentions(i), Some(name)).Posted?
    ensures Conclude(s, i, to, name, final, error, outcome, fuel) ==
            Stop(if s.ops[i].identity.amount > 0 then Settled(s, i, to, name, final, error) else SetState(s, i, final, error), outcome)
  {
    hide Transfer;
  }

  // A settlement with two writes left: what is on record and what has moved.
  lemma Concludes(s: Store, i: nat, to: Account, name: TxName, final: OpState, error: ErrorMessage, outcome: Outcome, fuel: nat)
    requires Inv(s) && i < |s.ops| && IsSettlement(s, i, to, name) && !Committed(s, i) && !RolledBack(s, i) && fuel >= 2
    requires s.ops[i].state == Submitted && final == (if name.Commit? then Succeeded else Failed) && (name.Commit? || name.Rollback?)
    requires error == (if final == Failed then ProviderRejected else NoError)
    ensures var p := Conclude(s, i, to, name, final, error, outcome, fuel); var amount: int := s.ops[i].identity.amount;
            && p.Stop? && p.outcome == outcome && OnlyOp(s, p.store, i, s.ops[i].identity)
            && p.store.dispatched == s.dispatched && p.store.journal == s.journal
            && p.store.ops[i].state == final && (error != NoError ==> p.store.ops[i].error == error)
            && Shifted(s.book, p.store.book, if to == Treasury then amount else 0, 0 - amount, if to == ExternalSink then amount else 0)
            && (Committed(p.store, i) <==> amount > 0 && to == ExternalSink)
            && (RolledBack(p.store, i) <==> amount > 0 && to == Treasury)
  {
    hide Inv, Transfer, Balance, Conclude;
    OpOkAt(s, i);
    ConcludeKeepsInv(s, i, to, name, final, error, outcome, fuel);
    if s.ops[i].identity.amount > 0 {
      SettlePosts(s, i, to, name);
      ConcludeIsSettled(s, i, to, name, final, error, outcome, fuel);
      SettledShows(s, i, to, name, final, error);
    } else {
      ConcludeIsSettled(s, i, to, name, final, error, outcome, fuel);
    }
  }

  // `before` is the store when the dispatch was about to be counted.
  lemma SettlesByAnswer(before: Store, s: Store, i: nat, result: ProviderResult, fuel: nat)
    requires Inv(s) && i < |s.ops| && s.ops[i].state == Submitted && !Committed(s, i) && !RolledBack(s, i) && fuel >= 2
    requires s == before.(dispatched := before.dispatched + [i])
    ensures AnsweredAs(before, i, s.ops[i].identity, result, Settle(s, i, s.ops[i].identity.decision, result, fuel))
  {
    hide Inv, Conclude;
    var d := s.ops[i].identity.decision;
    OpOkAt(s, i);
    if result == Success { Concludes(s, i, ExternalSink, Commit(d), Succeeded, NoError, Receipt, fuel); }
    else if result == Failure { Concludes(s, i, Treasury, Rollback(d), Failed, ProviderRejected, RejectedByProvider, fuel); }
  }

  // ---------- the phases before it ----------

  ghost function LockedCredits(s: Store, i: nat, identity: Identity): int {
    if HasLock(s, i) then identity.amount else 0
  }

  // Operation i has come further without the provider: at most its lock has been taken.
  ghost predicate Prepared(s: Store, t: Store, i: nat, identity: Identity, state: OpState) {
    && OnlyOp(s, t, i, identity) && t.ops[i].state == state && t.dispatched == s.dispatched
    && s.journal <= t.journal <= s.journal + {identity.decision}
    && var taken := LockedCredits(t, i, identity) - LockedCredits(s, i, identity);
       Shifted(s.book, t.book, -taken, taken, 0)
  }

  lemma AnsweredFromEarlier(s: Store, t: Store, i: nat, identity: Identity, state: OpState, result: ProviderResult, p: Progress)
    requires Prepared(s, t, i, identity, state) && AnsweredAs(t, i, identity, result, p)
    ensures AnsweredAs(s, i, identity, result, p)
  {
    hide Balance, Locked, Committed, RolledBack;
  }

  lemma Creates(s: Store, req: Request, i: nat, fuel: nat)
    requires Inv(s) && Admissible(req) && Resolves(s, req, i) && fuel >= 1
    ensures var p := Create(s, req, fuel);
            && p.Continue? && p.op == i && p.fuel >= fuel - 1 && Inv(p.store) && p.store.journal == s.journal && p.store.book == s.book
            && Prepared(s, p.store, i, req.identity, if i < |s.ops| then s.ops[i].state else Created)
  {
    CreatePhase(s, req, fuel);
    var found := Find(s.ops, req.identity.key);
    if i < |s.ops| {
      assert UniqueKeys(s);
      assert found == Some(i);
    } else {
      assert found.None?;
      if Chosen(Reservation(i)) in s.book.txIds { IdHasEntry(s, Chosen(Reservation(i))); }
    }
  }

  lemma Authorizes(s: Store, i: nat, fuel: nat)
    requires Inv(s) && i < |s.ops| && s.ops[i].state == Created && s.ops[i].identity.decision !in s.journal && fuel >= 2
    ensures var p := Authorize(s, i, s.ops[i].identity.decision, fuel);
            && p.Continue? && p.op == i && p.fuel == fuel - 2 && Inv(p.store) && p.store.book == s.book
            && Prepared(s, p.store, i, s.ops[i].identity, Authorized)
  {
    AuthorizePhase(s, i, fuel);
    hide Inv;
  }

  lemma Locks(s: Store, i: nat, fuel: nat)
    requires Inv(s) && i < |s.ops| && s.ops[i].state == Authorized && fuel >= 1
    requires Locked(s, i) || s.ops[i].identity.amount <= Balance(s.book, Treasury)
    ensures var p := Lock(s, i, fuel);
            && p.Continue? && p.op == i && p.fuel >= fuel - 1 && p.store == s.(book := p.store.book)
            && var taken := LockedCredits(p.store, i, s.ops[i].identity) - LockedCredits(s, i, s.ops[i].identity);
               Shifted(s.book, p.store.book, -taken, taken, 0)
  {
    hide Inv, Transfer, Balance, FindEntry, IsLock;
    LockPhase(s, i, fuel);
    var amount := s.ops[i].identity.amount;
    if !Locked(s, i) && amount > 0 {
      LockIsUnused(s, i);
      TransferIs(s.book, Treasury, Escrow, amount, Mentions(i), Reservation(i));
    }
  }

  lemma LockIsUnused(s: Store, i: nat)
    requires Inv(s) && i < |s.ops| && !Locked(s, i)
    ensures FindEntry(s.book.entries, {Chosen(Reservation(i))}).None?
  {}

  lemma LocksUp(s: Store, i: nat, fuel: nat)
    requires Inv(s) && i < |s.ops| && s.ops[i].state == Authorized && fuel >= 2
    requires Locked(s, i) || s.ops[i].identity.amount <= Balance(s.book, Treasury)
    ensures var p := Lockup(s, i, fuel);
            && p.Continue? && p.op == i && p.fuel >= fuel - 2 && Inv(p.store)
            && Prepared(s, p.store, i, s.ops[i].identity, Escrowed)
  {
    hide Inv, Lock, Shifted;
    LockupPhase(s, i, fuel);
    Locks(s, i, fuel);
  }

  // ---------- the whole call ----------

  lemma EscrowedByAnswer(s: Store, i: nat, result: ProviderResult, fuel: nat)
    requires Inv(s) && i < |s.ops| && s.ops[i].state == Escrowed && fuel >= 4
    ensures AnsweredAs(s, i, s.ops[i].identity, result, FromEscrowed(s, i, s.ops[i].identity.decision, result, fuel))
  {
    hide Inv, Settle, Balance;
    DispatchPhase(s, i, fuel);
    var t := Dispatch(s, i, fuel).store;
    var before := SetState(s, i, Submitted, NoError);
    assert Prepared(s, before, i, s.ops[i].identity, Submitted);
    hide Prepared, AnsweredAs, Locked, Committed, RolledBack;
    assert t == before.(dispatched := before.dispatched + [i]) && t.ops[i].identity == s.ops[i].identity;
    assert FromEscrowed(s, i, s.ops[i].identity.decision, result, fuel) == Settle(t, i, s.ops[i].identity.decision, result, fuel - 2);
    SettlesByAnswer(before, t, i, result, fuel - 2);
    AnsweredFromEarlier(s, before, i, s.ops[i].identity, Submitted, result, Settle(t, i, s.ops[i].identity.decision, result, fuel - 2));
  }

  lemma AuthorizedByAnswer(s: Store, i: nat, result: ProviderResult, fuel: nat)
    requires Inv(s) && i < |s.ops| && s.ops[i].state == Authorized && fuel >= 6
    requires Locked(s, i) || s.ops[i].identity.amount <= Balance(s.book, Treasury)
    ensures AnsweredAs(s, i, s.ops[i].identity, result, FromAuthorized(s, i, s.ops[i].identity.decision, result, fuel))
  {
    hide Inv, Lockup, FromEscrowed, AnsweredAs, Balance, Locked;
    LocksUp(s, i, fuel);
    var e := Lockup(s, i, fuel);
    EscrowedByAnswer(e.store, i, result, e.fuel);
    AnsweredFromEarlier(s, e.store, i, s.ops[i].identity, Escrowed, result, FromEscrowed(e.store, i, s.ops[i].identity.decision, result, e.fuel));
  }

  lemma CreatedByAnswer(s: Store, i: nat, result: ProviderResult, fuel: nat)
    requires Inv(s) && i < |s.ops| && s.ops[i].state == Created && s.ops[i].identity.decision !in s.journal && fuel >= 8
    requires s.ops[i].identity.amount <= Balance(s.book, Treasury)
    ensures AnsweredAs(s, i, s.ops[i].identity, result, FromCreated(s, i, s.ops[i].identity.decision, result, fuel))
  {
    hide Inv, Authorize, FromAuthorized, AnsweredAs, Balance, Locked;
    Authorizes(s, i, fuel);
    var a := Authorize(s, i, s.ops[i].identity.decision, fuel);
    AuthorizedByAnswer(a.store, i, result, a.fuel);
    AnsweredFromEarlier(s, a.store, i, s.ops[i].identity, Authorized, result, FromAuthorized(a.store, i, s.ops[i].identity.decision, result, a.fuel));
  }

  lemma LockNeedsToken(s: Store, i: nat)
    requires Inv(s) && i < |s.ops| && s.ops[i].state == Created
    ensures !Locked(s, i)
  {
    OpOkAt(s, i);
  }

  // One call that goes through, from whatever point an earlier call left its operation at: the provider's
  // answer alone decides the final state, the settlement on record and where the amount ends.
  lemma ExecuteByAnswer(s: Store, req: Request, i: nat, result: ProviderResult, fuel: nat)
    requires Inv(s) && Ready(s, req, i) && fuel >= 9
    ensures AnsweredAs(s, i, req.identity, result, ExecuteProposal(s, req, result, fuel))
  {
    hide Inv, Create, FromCreated, FromAuthorized, FromEscrowed, AnsweredAs, Balance;
    Creates(s, req, i, fuel);
    var c := Create(s, req, fuel);
    if c.store.ops[i].state == Created { LockNeedsToken(c.store, i); }
    hide Locked;
    match c.store.ops[i].state {
      case Created => CreatedByAnswer(c.store, i, result, c.fuel);
      case Authorized => AuthorizedByAnswer(c.store, i, result, c.fuel);
      case Escrowed => EscrowedByAnswer(c.store, i, result, c.fuel);
    }
    AnsweredFromEarlier(s, c.store, i, req.identity, c.store.ops[i].state, result, ExecuteProposal(s, req, result, fuel));
  }

  // ---------- calls that never reach the provider ----------

  // A request that fails a check is refused with nothing changed, approval first and then the rest.
  lemma RefusedAtOnce(s: Store, req: Request, result: ProviderResult, fuel: nat)
    requires !Admissible(req)
    ensures ExecuteProposal(s, req, result, fuel) == Stop(s, if req.approved then Unauthorized else PolicyViolation)
  {}

  // A key that is taken admits only its own tenant, organisation and identity; an operation that has already
  // been sent is answered from its state and nothing changes.
  lemma AnsweredFromRecord(s: Store, req: Request, i: nat, result: ProviderResult, fuel: nat)
    requires Inv(s) && Admissible(req) && i < |s.ops| && s.ops[i].identity.key == req.identity.key
    requires s.ops[i].identity == req.identity ==> !Presubmission(s.ops[i].state)
    ensures var found, p := s.ops[i].identity, ExecuteProposal(s, req, result, fuel);
            && p.Stop? && p.store == s
            && (found.tenant != req.identity.tenant || found.org != req.identity.org ==> p.outcome == CrossTenant)
            && (found.tenant == req.identity.tenant && found.org == req.identity.org && found != req.identity ==>
                  p.outcome == IdempotencyConflict)
            && (found == req.identity ==>
                  p.outcome == match s.ops[i].state
                               case Succeeded => ReplayedReceipt
                               case Failed => PreviouslyFailed
                               case Reconciled => UnexpectedState
                               case _ => Unresolved)
  {
    assert UniqueKeys(s);
    assert Find(s.ops, req.identity.key) == Some(i);
    hide Inv;
  }

  // A consumed token stops an operation that was only created: it fails for good and nothing moves.
  lemma ReplayedTokenFails(s: Store, req: Request, i: nat, result: ProviderResult, fuel: nat)
    requires Inv(s) && Admissible(req) && Resolves(s, req, i) && fuel >= 2
    requires (i < |s.ops| ==> s.ops[i].state == Created) && req.identity.decision in s.journal
    ensures var p := ExecuteProposal(s, req, result, fuel);
            && p.Stop? && p.outcome == TokenReplay && OnlyOp(s, p.store, i, req.identity)
            && p.store.ops[i].state == Failed && p.store.ops[i].error == TokenConsumed
            && p.store.book == s.book && p.store.journal == s.journal && p.store.dispatched == s.dispatched
  {
    hide Inv, Create, FromAuthorized;
    Creates(s, req, i, fuel);
  }

  // Without the credits to lock, the operation keeps its token and waits authorized.
  lemma UnfundedWaits(s: Store, req: Request, i: nat, result: ProviderResult, fuel: nat)
    requires Inv(s) && Admissible(req) && Resolves(s, req, i) && fuel >= 4
    requires i < |s.ops| ==> s.ops[i].state == Authorized || s.ops[i].state == Created
    requires i == |s.ops| || s.ops[i].state == Created ==> req.identity.decision !in s.journal
    requires !HasLock(s, i) && req.identity.amount > Balance(s.book, Treasury)
    ensures var p := ExecuteProposal(s, req, result, fuel);
            && p.Stop? && p.outcome == LedgerRefused(InsufficientCredits) && OnlyOp(s, p.store, i, req.identity)
            && p.store.ops[i].state == Authorized && p.store.book == s.book && p.store.dispatched == s.dispatched
  {
    hide Inv, Create, FromAuthorized, Balance, Authorize;
    Creates(s, req, i, fuel);
    var c := Create(s, req, fuel);
    if c.store.ops[i].state == Created {
      LockNeedsToken(c.store, i);
      Authorizes(c.store, i, c.fuel);
      UnfundedLock(Authorize(c.store, i, req.identity.decision, c.fuel).store, i, result, c.fuel - 2);
    } else {
      UnfundedLock(c.store, i, result, c.fuel);
    }
  }

  lemma UnfundedLock(s: Store, i: nat, result: ProviderResult, fuel: nat)
    requires Inv(s) && i < |s.ops| && s.ops[i].state == Authorized && fuel >= 1
    requires !Locked(s, i) && s.ops[i].identity.amount > Balance(s.book, Treasury)
    ensures FromAuthorized(s, i, s.ops[i].identity.decision, result, fuel) == Stop(s, LedgerRefused(InsufficientCredits))
  {
    TreasuryNonNegative(s);
    LockIsUnused(s, i);
    hide Inv, FromEscrowed;
  }

  lemma TreasuryNonNegative(s: Store)
    requires Inv(s)
    ensures Balance(s.book, Treasury) >= 0
  {}

  // ---------- reconciliation ----------

  predicate Open(state: OpState) { state == Submitted || state == Unknown || state == Reconciling }

  // What reconciliation leaves behind, by the provider's status: the missing settlement is made, one already
  // on record is not made again, and an unclear status moves nothing.
  ghost predicate ReconciledAs(s: Store, i: nat, status: ProviderResult, p: Progress)
    requires i < |s.ops|
  {
    p.Stop? && OnlyOp(s, p.store, i, s.ops[i].identity) &&
    p.store.dispatched == s.dispatched && p.store.journal == s.journal &&
    var t, amount := p.store, s.ops[i].identity.amount;
    var op := t.ops[i];
    match status
    case Success =>
      var paid := if Committed(s, i) then 0 else amount;
      && p.outcome == Returned && op.state == Reconciled && op.error == s.ops[i].error
      && (Committed(t, i) <==> amount > 0) && !RolledBack(t, i)
      && Shifted(s.book, t.book, 0, -paid, paid)
    case Failure =>
      var refunded := if RolledBack(s, i) then 0 else amount;
      && p.outcome == Returned && op.state == Reconciled && op.error == ProviderRejected
      && (RolledBack(t, i) <==> amount > 0) && !Committed(t, i)
      && Shifted(s.book, t.book, refunded, -refunded, 0)
    case Raised =>
      p.outcome == StatusRaised && op.state == Reconciling && op.error == s.ops[i].error && t.book == s.book
    case _ =>
      p.outcome == Returned && op.state == Unknown && op.error == Ambiguous && t.book == s.book
  }

  lemma SettlesWhenReconciled(s: Store, i: nat, to: Account, name: TxName, error: ErrorMessage, fuel: nat)
    requires Inv(s) && i < |s.ops| && s.ops[i].state == Reconciling && fuel >= 2
    requires (to == ExternalSink && name == ReconcileCommit(i)) || (to == Treasury && name == ReconcileRollback(i))
    requires !(if to == Treasury then Committed(s, i) else RolledBack(s, i)) && error != TokenConsumed
    ensures var already := if to == Treasury then RolledBack(s, i) else Committed(s, i);
            var p := ReconcileTo(s, i, to, name, already, error, fuel);
            var moved := if already then 0 else s.ops[i].identity.amount;
            && p.Stop? && p.outcome == Returned && OnlyOp(s, p.store, i, s.ops[i].identity)
            && p.store.dispatched == s.dispatched && p.store.journal == s.journal
            && p.store.ops[i].state == Reconciled && p.store.ops[i].error == (if error == NoError then s.ops[i].error else error)
            && Shifted(s.book, p.store.book, if to == Treasury then moved else 0, 0 - moved, if to == ExternalSink then moved else 0)
            && (Committed(p.store, i) <==> s.ops[i].identity.amount > 0 && to == ExternalSink)
            && (RolledBack(p.store, i) <==> s.ops[i].identity.amount > 0 && to == Treasury)
  {
    hide Inv, Transfer, Balance;
    OpOkAt(s, i);
    var already := if to == Treasury then RolledBack(s, i) else Committed(s, i);
    ReconcileToKeepsInv(s, i, to, name, already, error, fuel);
    var p := ReconcileTo(s, i, to, name, already, error, fuel);
    if already || s.ops[i].identity.amount == 0 {
      assert p == Stop(SetState(s, i, Reconciled, error), Returned);
    } else {
      SettlePosts(s, i, to, name);
      EscrowCovers(s, i);
      assert p == Stop(Settled(s, i, to, name, Reconciled, error), Returned);
      SettledShows(s, i, to, name, Reconciled, error);
    }
  }

  lemma EscrowCovers(s: Store, i: nat)
    requires Inv(s) && i < |s.ops|
    ensures Balance(s.book, Escrow) >= Held(s, i)
  {
    HeldSumCovers(s, i, |s.ops|);
  }

  lemma ResolvesByStatus(s: Store, i: nat, status: ProviderResult, fuel: nat)
    requires Inv(s) && i < |s.ops| && s.ops[i].state == Reconciling && !Contradicts(s, i, status) && fuel >= 2
    ensures ReconciledAs(s, i, status, Resolve(s, i, status, fuel))
  {
    hide Inv, ReconcileTo, AlreadyCommitted, AlreadyRefunded;
    ScanIsExact(s, i);
    if status == Success { SettlesWhenReconciled(s, i, ExternalSink, ReconcileCommit(i), NoError, fuel); }
    if status == Failure { SettlesWhenReconciled(s, i, Treasury, ReconcileRollback(i), ProviderRejected, fuel); }
  }

  // Reconciliation by the provider's status, for every status that does not deny a recorded settlement.
  lemma ReconcileByStatus(s: Store, i: nat, tenant: nat, org: nat, status: ProviderResult, fuel: nat)
    requires Inv(s) && i < |s.ops| && s.ops[i].identity.tenant == tenant && s.ops[i].identity.org == org
    requires Open(s.ops[i].state) && !Contradicts(s, i, status) && fuel >= 3
    ensures ReconciledAs(s, i, status, Reconcile(s, i, tenant, org, status, fuel))
  {
    hide Inv, Resolve, Balance;
    if s.ops[i].state == Reconciling {
      ResolvesByStatus(s, i, status, fuel);
    } else {
      BeginInv(s, i, status);
      ResolvesByStatus(SetState(s, i, Reconciling, NoError), i, status, fuel - 1);
    }
  }

  // Everything else is answered without a change.
  lemma ReconcileLeavesRest(s: Store, i: nat, tenant: nat, org: nat, status: ProviderResult, fuel: nat)
    requires i < |s.ops| && s.ops[i].identity.tenant == tenant && s.ops[i].identity.org == org ==> !Open(s.ops[i].state)
    ensures var p := Reconcile(s, i, tenant, org, status, fuel);
            && p.Stop? && p.store == s
            && p.outcome == if i >= |s.ops| then NotFound
                            else if s.ops[i].identity.tenant != tenant || s.ops[i].identity.org != org then Unauthorized
                            else if Presubmission(s.ops[i].state) then NotReconcilable
                            else Returned
  {}

  // ---------- the audit ----------

  // An operation that failed on a consumed token passes the ledger part of the audit exactly when the operation
  // that owns the token was rolled back, for the same amount: the audit looks for the token's id alone.
  lemma ReplayerAuditedIff(s: Store, i: nat)
    requires Inv(s) && i < |s.ops| && s.ops[i].state == Failed && s.ops[i].error == TokenConsumed && s.ops[i].identity.amount > 0
    ensures var d, amount := s.ops[i].identity.decision, s.ops[i].identity.amount;
            AuditAccepts(s, i, d) <==>
              exists j: nat :: Owns(s, j, d) && Chosen(Rollback(d)) in s.book.txIds && s.ops[j].identity.amount == amount
  {
    var d := s.ops[i].identity.decision;
    var found := FindEntry(s.book.entries, SettlementIds(s, i, d));
    if found.Some? {
      assert EntryOk(s, found.value);
      var owner := found.value.memo.id;
      assert found.value.tx == Chosen(Rollback(d)) && found.value.tx in s.book.txIds && Owns(s, owner, d);
      forall j: nat | Owns(s, j, d) ensures j == owner { SameOwner(s, j, owner, d); }
    } else if Chosen(Rollback(d)) in s.book.txIds {
      IdHasEntry(s, Chosen(Rollback(d)));
    }
  }
}
