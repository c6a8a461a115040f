// The consequential execution boundary: proposals become operations that are authorized,
// escrowed, submitted and settled, and ambiguous ones are reconciled later. Each phase makes
// durable writes one at a time; the process may die before any of them.
module Execution {
  import opened Ledger

  datatype OpState = Created | Authorized | Escrowed | Submitted | Succeeded | Failed | Unknown | Reconciling | Reconciled

  predicate AllowedMove(from: OpState, to: OpState) {
    match from
    case Created => to == Authorized || to == Failed
    case Authorized => to == Escrowed || to == Failed
    case Escrowed => to == Submitted || to == Failed
    case Submitted => to == Succeeded || to == Failed || to == Unknown || to == Reconciling
    case Unknown => to == Reconciling
    case Reconciling => to == Reconciled || to == Unknown
    case Succeeded => false
    case Failed => false
    case Reconciled => false
  }

  datatype ErrorMessage = NoError | TokenConsumed | ProviderRejected | Ambiguous

  // Everything the operation fingerprint covers.
  datatype Identity = Identity(tenant: nat, org: nat, proposal: nat, decision: nat, key: nat,
                               content: string, amount: nat, provider: nat)

  datatype Operation = Operation(identity: Identity, state: OpState, error: ErrorMessage)

  // A signed token is named by the decision it was issued for: one token, one nonce per decision.
  datatype Token = Missing | Forged | Signed(decision: nat)

  datatype Request = Request(identity: Identity, approved: bool, token: Token, otherChecksPass: bool, capable: bool)

  datatype ProviderResult = Raised | Success | Failure | TimedOut | Undetermined

  // What survives a crash, and the provider's own record of the dispatches it received.
  // The position of an operation is its id.
  datatype Store = Store(book: Book, journal: set<nat>, ops: seq<Operation>, dispatched: seq<nat>)

  datatype Outcome =
    | Receipt | ReplayedReceipt | PolicyViolation | Unauthorized | CrossTenant | IdempotencyConflict
    | Unresolved | PreviouslyFailed | TokenReplay | RejectedByProvider | OutcomeUnknown
    | BadEscrowEntry | LedgerRefused(reason: Refusal) | UnexpectedState
    | NotFound | NotReconcilable | Returned | StatusRaised | Crashed

  datatype Progress = Continue(store: Store, op: nat, fuel: nat) | Stop(store: Store, outcome: Outcome)

  function Find(ops: seq<Operation>, key: nat): (r: Option<nat>)
    ensures r.Some? ==> r.value < |ops| && ops[r.value].identity.key == key
    ensures r.None? ==> forall i :: 0 <= i < |ops| ==> ops[i].identity.key != key
  {
    if ops == [] then None
    else if ops[|ops| - 1].identity.key == key then Some(|ops| - 1)
    else Find(ops[..|ops| - 1], key)
  }

  // The first entry carrying one of the given ids.
  function FindEntry(entries: seq<Entry>, ids: set<TxId>): (r: Option<Entry>)
    ensures r.Some? ==> r.value in entries && r.value.tx in ids
    ensures r.None? ==> forall e :: e in entries ==> e.tx !in ids
  {
    if entries == [] then None
    else if entries[0].tx in ids then Some(entries[0])
    else FindEntry(entries[1..], ids)
  }

  // `transition_to` raises on a move outside the table; the requires says it never does.
  function SetState(s: Store, i: nat, to: OpState, error: ErrorMessage): Store
    requires i < |s.ops| && AllowedMove(s.ops[i].state, to)
  {
    s.(ops := s.ops[i := s.ops[i].(state := to, error := if error == NoError then s.ops[i].error else error)])
  }

  function Create(s: Store, req: Request, fuel: nat): Progress {
    if !req.approved then Stop(s, PolicyViolation)
    else if !req.token.Signed? || req.token.decision != req.identity.decision || !req.otherChecksPass || !req.capable
    then Stop(s, Unauthorized)
    else
      match Find(s.ops, req.identity.key)
      case Some(i) =>
        var found := s.ops[i].identity;
        if found.tenant != req.identity.tenant || found.org != req.identity.org then Stop(s, CrossTenant)
        else if found != req.identity then Stop(s, IdempotencyConflict)
        else Continue(s, i, fuel)
      case None =>
        if fuel == 0 then Stop(s, Crashed)
        else Continue(s.(ops := s.ops + [Operation(req.identity, Created, NoError)]), |s.ops|, fuel - 1)
  }

  function Authorize(s: Store, i: nat, token: nat, fuel: nat): Progress
    requires i < |s.ops| && s.ops[i].state == Created
  {
    if fuel == 0 then Stop(s, Crashed)
    else if token in s.journal then Stop(SetState(s, i, Failed, TokenConsumed), TokenReplay)
    else
      var consumed := s.(journal := s.journal + {token});
      if fuel == 1 then Stop(consumed, Crashed)
      else Continue(SetState(consumed, i, Authorized, NoError), i, fuel - 2)
  }

  predicate IsLock(e: Entry, i: nat, amount: nat) {
    e.from == Treasury && e.to == Escrow && e.amount == amount && e.memo == Mentions(i)
  }

  function Lock(s: Store, i: nat, fuel: nat): Progress
    requires i < |s.ops|
  {
    var amount := s.ops[i].identity.amount;
    if amount == 0 then Continue(s, i, fuel)
    else
      match FindEntry(s.book.entries, {Chosen(Reservation(i))})
      case Some(e) => if IsLock(e, i, amount) then Continue(s, i, fuel) else Stop(s, BadEscrowEntry)
      case None => Post(s, i, Treasury, Escrow, Reservation(i), fuel)
  }

  // One ledger transfer on behalf of operation i.
  function Post(s: Store, i: nat, from: Account, to: Account, name: TxName, fuel: nat): (p: Progress)
    requires i < |s.ops|
    ensures p.store == s.(book := p.store.book)
    ensures p.Stop? ==> p.store == s
  {
    if fuel == 0 then Stop(s, Crashed)
    else
      match Transfer(s.book, from, to, s.ops[i].identity.amount, Mentions(i), Some(name))
      case Refused(reason) => Stop(s, LedgerRefused(reason))
      case Posted(book, _) => Continue(s.(book := book), i, fuel - 1)
  }

  function Save(s: Store, i: nat, to: OpState, error: ErrorMessage, fuel: nat): Progress
    requires i < |s.ops| && AllowedMove(s.ops[i].state, to)
  {
    if fuel == 0 then Stop(s, Crashed) else Continue(SetState(s, i, to, error), i, fuel - 1)
  }

  function Lockup(s: Store, i: nat, fuel: nat): Progress
    requires i < |s.ops| && s.ops[i].state == Authorized
  {
    var p := Lock(s, i, fuel);
    if p.Stop? then p else Save(p.store, i, Escrowed, NoError, p.fuel)
  }

  function Dispatch(s: Store, i: nat, fuel: nat): Progress
    requires i < |s.ops| && s.ops[i].state == Escrowed
  {
    var p := Save(s, i, Submitted, NoError, fuel);
    if p.Stop? then p
    else if p.fuel == 0 then Stop(p.store, Crashed)
    else Continue(p.store.(dispatched := p.store.dispatched + [i]), i, p.fuel - 1)
  }

  // The settlement transfer, if there is anything to move, and then the terminal state.
  function Conclude(s: Store, i: nat, to: Account, name: TxName, final: OpState, error: ErrorMessage, outcome: Outcome, fuel: nat): Progress
    requires i < |s.ops| && AllowedMove(s.ops[i].state, final)
  {
    if s.ops[i].identity.amount == 0 then Finish(s, i, final, error, outcome, fuel)
    else
      match Post(s, i, Escrow, to, name, fuel)
      case Stop(t, o) => Stop(t, o)
      case Continue(t, _, left) => Finish(t, i, final, error, outcome, left)
  }

  function Finish(s: Store, i: nat, final: OpState, error: ErrorMessage, outcome: Outcome, fuel: nat): Progress
    requires i < |s.ops| && AllowedMove(s.ops[i].state, final)
  {
    var q := Save(s, i, final, error, fuel);
    if q.Stop? then q else Stop(q.store, outcome)
  }

  function Settle(s: Store, i: nat, token: nat, result: ProviderResult, fuel: nat): Progress
    requires i < |s.ops| && s.ops[i].state == Submitted
  {
    if result == Success then Conclude(s, i, ExternalSink, Commit(token), Succeeded, NoError, Receipt, fuel)
    else if result == Failure then Conclude(s, i, Treasury, Rollback(token), Failed, ProviderRejected, RejectedByProvider, fuel)
    else Finish(s, i, Unknown, Ambiguous, OutcomeUnknown, fuel)
  }

  function FromEscrowed(s: Store, i: nat, token: nat, result: ProviderResult, fuel: nat): Progress
    requires i < |s.ops| && s.ops[i].state == Escrowed
  {
    var d := Dispatch(s, i, fuel);
    if d.Stop? then d else Settle(d.store, i, token, result, d.fuel)
  }

  function FromAuthorized(s: Store, i: nat, token: nat, result: ProviderResult, fuel: nat): Progress
    requires i < |s.ops| && s.ops[i].state == Authorized
  {
    var e := Lockup(s, i, fuel);
    if e.Stop? then e else FromEscrowed(e.store, i, token, result, e.fuel)
  }

  function FromCreated(s: Store, i: nat, token: nat, result: ProviderResult, fuel: nat): Progress
    requires i < |s.ops| && s.ops[i].state == Created
  {
    var a := Authorize(s, i, token, fuel);
    if a.Stop? then a else FromAuthorized(a.store, i, token, result, a.fuel)
  }

  // From an existing operation to the end of the call.
  function Advance(s: Store, i: nat, token: nat, result: ProviderResult, fuel: nat): Progress
    requires i < |s.ops|
  {
    match s.ops[i].state
    case Succeeded => Stop(s, ReplayedReceipt)
    case Unknown => Stop(s, Unresolved)
    case Reconciling => Stop(s, Unresolved)
    case Submitted => Stop(s, Unresolved)
    case Failed => Stop(s, PreviouslyFailed)
    case Reconciled => Stop(s, UnexpectedState)
    case Created => FromCreated(s, i, token, result, fuel)
    case Authorized => FromAuthorized(s, i, token, result, fuel)
    case Escrowed => FromEscrowed(s, i, token, result, fuel)
  }

  function ExecuteProposal(s: Store, req: Request, result: ProviderResult, fuel: nat): Progress {
    var c := Create(s, req, fuel);
    if c.Stop? then c else Advance(c.store, c.op, req.token.decision, result, c.fuel)
  }

  // ---------- reconciliation ----------

  predicate AlreadyCommitted(entries: seq<Entry>, i: nat, amount: nat) {
    exists e :: e in entries && e.to == ExternalSink && e.amount == amount
                && (e.memo == Mentions(i) || (e.tx == Chosen(ReconcileCommit(i)) && e.from == Escrow))
  }

  predicate AlreadyRefunded(entries: seq<Entry>, i: nat, amount: nat) {
    exists e :: e in entries && e.to == Treasury && e.from == Escrow && e.amount == amount
                && (e.memo == Mentions(i) || e.tx == Chosen(ReconcileRollback(i)))
  }

  // A duplicate-id refusal is swallowed by the service; any other refusal propagates.
  function ReconcilePost(s: Store, i: nat, to: Account, name: TxName, already: bool, fuel: nat): (p: Progress)
    requires i < |s.ops|
    ensures p.store == s.(book := p.store.book)
  {
    var amount := s.ops[i].identity.amount;
    if amount == 0 || already || Balance(s.book, Escrow) < amount then Continue(s, i, fuel)
    else
      var p := Post(s, i, Escrow, to, name, fuel);
      if p.Stop? && p.outcome == LedgerRefused(DuplicateTransaction) then Continue(s, i, fuel) else p
  }

  function ReconcileTo(s: Store, i: nat, to: Account, name: TxName, already: bool, error: ErrorMessage, fuel: nat): Progress
    requires i < |s.ops| && s.ops[i].state == Reconciling
  {
    match ReconcilePost(s, i, to, name, already, fuel)
    case Stop(t, o) => Stop(t, o)
    case Continue(t, _, left) => Finish(t, i, Reconciled, error, Returned, left)
  }

  function Resolve(s: Store, i: nat, status: ProviderResult, fuel: nat): Progress
    requires i < |s.ops| && s.ops[i].state == Reconciling
  {
    var entries, amount := s.book.entries, s.ops[i].identity.amount;
    if status == Raised then Stop(s, StatusRaised)
    else if status == Success then ReconcileTo(s, i, ExternalSink, ReconcileCommit(i), AlreadyCommitted(entries, i, amount), NoError, fuel)
    else if status == Failure then ReconcileTo(s, i, Treasury, ReconcileRollback(i), AlreadyRefunded(entries, i, amount), ProviderRejected, fuel)
    else Finish(s, i, Unknown, Ambiguous, Returned, fuel)
  }

  function Reconcile(s: Store, i: nat, tenant: nat, org: nat, status: ProviderResult, fuel: nat): Progress {
    if i >= |s.ops| then Stop(s, NotFound)
    else if s.ops[i].identity.tenant != tenant || s.ops[i].identity.org != org then Stop(s, Unauthorized)
    else
      match s.ops[i].state
      case Succeeded => Stop(s, Returned)
      case Failed => Stop(s, Returned)
      case Reconciled => Stop(s, Returned)
      case Created => Stop(s, NotReconcilable)
      case Authorized => Stop(s, NotReconcilable)
      case Escrowed => Stop(s, NotReconcilable)
      case Reconciling => Resolve(s, i, status, fuel)
      case _ =>
        var p := Save(s, i, Reconciling, NoError, fuel);
        if p.Stop? then p else Resolve(p.store, i, status, p.fuel)
  }

  // ---------- the invariant ----------

  // Operations that got past the replay barrier: they own their token.
  predicate OwnsToken(op: Operation) {
    op.state != Created && !(op.state == Failed && op.error == TokenConsumed)
  }

  ghost predicate Locked(s: Store, i: nat)
    requires i < |s.ops|
  {
    Chosen(Reservation(i)) in s.book.txIds
  }

  ghost predicate Committed(s: Store, i: nat)
    requires i < |s.ops|
  {
    OwnsToken(s.ops[i]) &&
    (Chosen(Commit(s.ops[i].identity.decision)) in s.book.txIds || Chosen(ReconcileCommit(i)) in s.book.txIds)
  }

  ghost predicate RolledBack(s: Store, i: nat)
    requires i < |s.ops|
  {
    OwnsToken(s.ops[i]) &&
    (Chosen(Rollback(s.ops[i].identity.decision)) in s.book.txIds || Chosen(ReconcileRollback(i)) in s.book.txIds)
  }

  // Credits of operation i that are in escrow according to the log.
  ghost function Held(s: Store, i: nat): nat
    requires i < |s.ops|
  {
    if Locked(s, i) && !Committed(s, i) && !RolledBack(s, i) then s.ops[i].identity.amount else 0
  }

  ghost function HeldSum(s: Store, n: nat): nat
    requires n <= |s.ops|
  {
    if n == 0 then 0 else HeldSum(s, n - 1) + Held(s, n - 1)
  }

  ghost predicate Owns(s: Store, i: nat, d: nat) {
    i < |s.ops| && OwnsToken(s.ops[i]) && s.ops[i].identity.decision == d
  }

  // Each entry is either foreign to this protocol or exactly the move its id announces.
  ghost predicate EntryOk(s: Store, e: Entry) {
    match e.tx
    case Chosen(Reservation(i)) => i < |s.ops| && IsLock(e, i, s.ops[i].identity.amount)
    case Chosen(Commit(d)) =>
      e.memo.Mentions? && Owns(s, e.memo.id, d) && e.from == Escrow && e.to == ExternalSink && e.amount == s.ops[e.memo.id].identity.amount
    case Chosen(Rollback(d)) =>
      e.memo.Mentions? && Owns(s, e.memo.id, d) && e.from == Escrow && e.to == Treasury && e.amount == s.ops[e.memo.id].identity.amount
    case Chosen(ReconcileCommit(i)) =>
      i < |s.ops| && OwnsToken(s.ops[i]) && e.memo == Mentions(i) && e.from == Escrow && e.to == ExternalSink && e.amount == s.ops[i].identity.amount
    case Chosen(ReconcileRollback(i)) =>
      i < |s.ops| && OwnsToken(s.ops[i]) && e.memo == Mentions(i) && e.from == Escrow && e.to == Treasury && e.amount == s.ops[i].identity.amount
    case _ => e.from != Escrow && e.to != Escrow && e.memo == Plain
  }

  // At most one settlement per operation, and the state agrees with the log.
  ghost predicate OpOk(s: Store, i: nat)
    requires i < |s.ops|
  {
    var op, ids := s.ops[i], s.book.txIds;
    var locked, committed, rolledBack := Locked(s, i), Committed(s, i), RolledBack(s, i);
    var paid := op.identity.amount > 0;
    && !(committed && rolledBack)
    && (OwnsToken(op) ==>
          && !(Chosen(Commit(op.identity.decision)) in ids && Chosen(ReconcileCommit(i)) in ids)
          && !(Chosen(Rollback(op.identity.decision)) in ids && Chosen(ReconcileRollback(i)) in ids))
    && (committed || rolledBack ==> locked)
    && (locked ==> paid && OwnsToken(op))
    && (OwnsToken(op) ==> op.identity.decision in s.journal)
    && match op.state
       case Created => true
       case Authorized => !committed && !rolledBack
       case Escrowed => locked == paid && !committed && !rolledBack
       case Submitted => locked == paid
       case Unknown => locked == paid
       case Reconciling => locked == paid
       case Succeeded => (Chosen(Commit(op.identity.decision)) in ids) == paid
       case Failed => op.error == TokenConsumed || (Chosen(Rollback(op.identity.decision)) in ids) == paid
       case Reconciled => (committed || rolledBack) == paid
  }

  ghost predicate UniqueKeys(s: Store) {
    forall i, j :: 0 <= i < j < |s.ops| ==> s.ops[i].identity.key != s.ops[j].identity.key
  }

  ghost predicate UniqueTokens(s: Store) {
    forall i, j :: 0 <= i < j < |s.ops| && OwnsToken(s.ops[i]) && OwnsToken(s.ops[j]) ==>
      s.ops[i].identity.decision != s.ops[j].identity.decision
  }

  predicate Presubmission(st: OpState) { st == Created || st == Authorized || st == Escrowed }

  ghost predicate DispatchOk(s: Store) {
    && (forall k :: 0 <= k < |s.dispatched| ==>
          s.dispatched[k] < |s.ops| && OwnsToken(s.ops[s.dispatched[k]]) && !Presubmission(s.ops[s.dispatched[k]].state))
    && (forall k, l :: 0 <= k < l < |s.dispatched| ==> s.dispatched[k] != s.dispatched[l])
  }

  ghost predicate Inv(s: Store) {
    && Valid(s.book)
    && (forall e :: e in s.book.entries ==> EntryOk(s, e))
    && (forall i :: 0 <= i < |s.ops| ==> OpOk(s, i))
    && UniqueKeys(s) && UniqueTokens(s) && DispatchOk(s)
    && Balance(s.book, Escrow) == HeldSum(s, |s.ops|)
  }

  // ---------- single durable writes keep the invariant ----------

  lemma {:induction false} HeldSumShift(s: Store, s': Store, k: nat, n: nat)
    requires n <= |s.ops| && n <= |s'.ops| && k < |s.ops| && k < |s'.ops|
    requires forall i :: 0 <= i < n && i != k ==> Held(s, i) == Held(s', i)
    ensures HeldSum(s', n) == HeldSum(s, n) + (if k < n then Held(s', k) - Held(s, k) else 0)
  {
    if n > 0 { HeldSumShift(s, s', k, n - 1); }
  }

  lemma {:induction false} HeldSumAgree(s: Store, s': Store, n: nat)
    requires n <= |s.ops| && n <= |s'.ops|
    requires forall i :: 0 <= i < n ==> Held(s, i) == Held(s', i)
    ensures HeldSum(s', n) == HeldSum(s, n)
  {
    if n > 0 { HeldSumAgree(s, s', n - 1); }
  }

  lemma {:induction false} HeldSumCovers(s: Store, k: nat, n: nat)
    requires k < n <= |s.ops|
    ensures Held(s, k) <= HeldSum(s, n)
  {
    if k < n - 1 { HeldSumCovers(s, k, n - 1); }
  }

  // An id is on record exactly when some entry carries it.
  lemma IdHasEntry(s: Store, t: TxId)
    requires Inv(s) && t in s.book.txIds
    ensures exists e :: e in s.book.entries && e.tx == t && EntryOk(s, e)
  {}

  lemma OpOkAt(s: Store, i: nat)
    requires Inv(s) && i < |s.ops|
    ensures OpOk(s, i)
  {}

  lemma OwnersJournaled(s: Store)
    requires Inv(s)
    ensures forall k :: 0 <= k < |s.ops| && OwnsToken(s.ops[k]) ==> s.ops[k].identity.decision in s.journal
  {
    forall k | 0 <= k < |s.ops| && OwnsToken(s.ops[k]) ensures s.ops[k].identity.decision in s.journal {
      assert OpOk(s, k);
    }
  }

  lemma CreateInv(s: Store, id: Identity)
    requires Inv(s) && Find(s.ops, id.key).None?
    ensures Inv(s.(ops := s.ops + [Operation(id, Created, NoError)]))
  {
    hide Valid;
    var s' := s.(ops := s.ops + [Operation(id, Created, NoError)]);
    var n := |s.ops|;
    if Locked(s', n) { IdHasEntry(s, Chosen(Reservation(n))); }
    forall i | 0 <= i < n ensures OpOk(s', i) && Held(s', i) == Held(s, i) {
      assert OpOk(s, i) && s'.ops[i] == s.ops[i];
    }
    forall e | e in s'.book.entries ensures EntryOk(s', e) { assert EntryOk(s, e); }
    HeldSumAgree(s, s', n);
  }

  lemma ConsumeInv(s: Store, token: nat)
    requires Inv(s)
    ensures Inv(s.(journal := s.journal + {token}))
  {
    hide Valid;
    var s' := s.(journal := s.journal + {token});
    forall i | 0 <= i < |s'.ops| ensures OpOk(s', i) && Held(s', i) == Held(s, i) { assert OpOk(s, i); }
    forall e | e in s'.book.entries ensures EntryOk(s', e) { assert EntryOk(s, e); }
    HeldSumAgree(s, s', |s.ops|);
  }

  // Consuming a fresh token lets exactly one operation past CREATED.
  lemma AuthorizeInv(s: Store, i: nat)
    requires Inv(s) && i < |s.ops| && s.ops[i].state == Created
    requires s.ops[i].identity.decision !in s.journal
    ensures Inv(SetState(s.(journal := s.journal + {s.ops[i].identity.decision}), i, Authorized, NoError))
  {
    hide Valid;
    var d := s.ops[i].identity.decision;
    var s' := SetState(s.(journal := s.journal + {d}), i, Authorized, NoError);
    assert OpOk(s, i);
    OwnersJournaled(s);
    forall t | t in {Chosen(Commit(d)), Chosen(Rollback(d)), Chosen(ReconcileCommit(i)), Chosen(ReconcileRollback(i))}
      ensures t !in s.book.txIds
    {
      if t in s.book.txIds { IdHasEntry(s, t); }
    }
    forall j | 0 <= j < |s'.ops| ensures OpOk(s', j) && Held(s', j) == Held(s, j) { assert OpOk(s, j); }
    forall e | e in s'.book.entries ensures EntryOk(s', e) { assert EntryOk(s, e); }
    HeldSumAgree(s, s', |s.ops|);
  }

  // Every other state write: ownership of the token does not change.
  lemma MoveInv(s: Store, i: nat, to: OpState, error: ErrorMessage)
    requires Inv(s) && i < |s.ops| && AllowedMove(s.ops[i].state, to)
    requires OwnsToken(SetState(s, i, to, error).ops[i]) == OwnsToken(s.ops[i])
    requires OpOk(SetState(s, i, to, error), i)
    ensures Inv(SetState(s, i, to, error))
  {
    hide Valid;
    var s' := SetState(s, i, to, error);
    forall j | 0 <= j < |s'.ops| ensures OpOk(s', j) && Held(s', j) == Held(s, j) {
      assert OpOk(s, j);
      assert j != i ==> s'.ops[j] == s.ops[j];
    }
    forall e | e in s'.book.entries ensures EntryOk(s', e) { assert EntryOk(s, e); }
    HeldSumAgree(s, s', |s.ops|);
  }

  // SUBMITTED is on record before the provider hears of the operation.
  lemma DispatchInv(s: Store, i: nat)
    requires Inv(s) && i < |s.ops| && s.ops[i].state == Escrowed
    ensures var s' := SetState(s, i, Submitted, NoError);
            Inv(s') && Inv(s'.(dispatched := s'.dispatched + [i]))
  {
    hide Valid;
    assert OpOk(s, i);
    MoveInv(s, i, Submitted, NoError);
    var s' := SetState(s, i, Submitted, NoError);
    var s'' := s'.(dispatched := s'.dispatched + [i]);
    assert i !in s.dispatched;
    forall j | 0 <= j < |s''.ops| ensures OpOk(s'', j) && Held(s'', j) == Held(s', j) { assert OpOk(s', j); }
    forall e | e in s''.book.entries ensures EntryOk(s'', e) { assert EntryOk(s', e); }
    HeldSumAgree(s', s'', |s.ops|);
  }

  ghost predicate IsSettlement(s: Store, i: nat, to: Account, name: TxName)
    requires i < |s.ops|
  {
    || (to == ExternalSink && (name == Commit(s.ops[i].identity.decision) || name == ReconcileCommit(i)))
    || (to == Treasury && (name == Rollback(s.ops[i].identity.decision) || name == ReconcileRollback(i)))
  }

  lemma LockInv(s: Store, i: nat)
    requires Inv(s) && i < |s.ops| && s.ops[i].state == Authorized && s.ops[i].identity.amount > 0
    requires Transfer(s.book, Treasury, Escrow, s.ops[i].identity.amount, Mentions(i), Some(Reservation(i))).Posted?
    ensures Inv(s.(book := Transfer(s.book, Treasury, Escrow, s.ops[i].identity.amount, Mentions(i), Some(Reservation(i))).book))
  {
    hide Valid;
    var p := Transfer(s.book, Treasury, Escrow, s.ops[i].identity.amount, Mentions(i), Some(Reservation(i)));
    var s' := s.(book := p.book);
    TransferKeepsValid(s.book, Treasury, Escrow, s.ops[i].identity.amount, Mentions(i), Some(Reservation(i)));
    forall j | 0 <= j < |s'.ops| ensures OpOk(s', j) && (j != i ==> Held(s', j) == Held(s, j)) { assert OpOk(s, j); }
    forall e | e in s'.book.entries ensures EntryOk(s', e) { if e != p.entry { assert EntryOk(s, e); } }
    HeldSumShift(s, s', i, |s.ops|);
  }

  // A settlement of i says nothing about any other operation.
  lemma SettleOther(s: Store, s': Store, i: nat, j: nat, to: Account, name: TxName)
    requires Inv(s) && i < |s.ops| && j < |s.ops| && i != j && IsSettlement(s, i, to, name) && OwnsToken(s.ops[i])
    requires s' == s.(book := s'.book) && s'.book.txIds == s.book.txIds + {Chosen(name)}
    ensures OpOk(s', j) && Held(s', j) == Held(s, j)
  {
    hide Valid;
    assert OpOk(s, j);
    assert OwnsToken(s.ops[j]) ==> s.ops[j].identity.decision != s.ops[i].identity.decision;
    assert Locked(s', j) == Locked(s, j);
    assert Committed(s', j) == Committed(s, j);
    assert RolledBack(s', j) == RolledBack(s, j);
  }

  lemma SettleOwn(s: Store, s': Store, i: nat, to: Account, name: TxName)
    requires Inv(s) && i < |s.ops| && s.ops[i].identity.amount > 0 && IsSettlement(s, i, to, name)
    requires s.ops[i].state == Submitted || s.ops[i].state == Reconciling
    requires !Committed(s, i) && !RolledBack(s, i)
    requires s' == s.(book := s'.book) && s'.book.txIds == s.book.txIds + {Chosen(name)}
    ensures OpOk(s', i) && Held(s, i) == s.ops[i].identity.amount && Held(s', i) == 0
    ensures Committed(s', i) <==> to == ExternalSink
    ensures RolledBack(s', i) <==> to == Treasury
  {
    hide Valid;
    assert OpOk(s, i);
  }

  lemma SettleEntries(s: Store, s': Store, i: nat, to: Account, name: TxName)
    requires Inv(s) && i < |s.ops| && IsSettlement(s, i, to, name) && OwnsToken(s.ops[i])
    requires s' == s.(book := s'.book)
    requires s'.book.entries == s.book.entries + [Entry(Chosen(name), Escrow, to, s.ops[i].identity.amount, Mentions(i))]
    ensures forall e :: e in s'.book.entries ==> EntryOk(s', e)
  {
    hide Valid;
    forall e | e in s'.book.entries ensures EntryOk(s', e) {
      if e in s.book.entries { assert EntryOk(s, e); }
    }
  }

  // A settlement always finds its credits in escrow.
  lemma SettlePosts(s: Store, i: nat, to: Account, name: TxName)
    requires Inv(s) && i < |s.ops| && s.ops[i].identity.amount > 0 && IsSettlement(s, i, to, name)
    requires s.ops[i].state == Submitted || s.ops[i].state == Reconciling
    requires !Committed(s, i) && !RolledBack(s, i)
    ensures Transfer(s.book, Escrow, to, s.ops[i].identity.amount, Mentions(i), Some(name)).Posted?
  {
    assert OpOk(s, i);
    HeldSumCovers(s, i, |s.ops|);
  }

  // It is the operation's only settlement.
  lemma SettleInv(s: Store, i: nat, to: Account, name: TxName)
    requires Inv(s) && i < |s.ops| && s.ops[i].identity.amount > 0 && IsSettlement(s, i, to, name)
    requires s.ops[i].state == Submitted || s.ops[i].state == Reconciling
    requires !Committed(s, i) && !RolledBack(s, i)
    ensures var p := Transfer(s.book, Escrow, to, s.ops[i].identity.amount, Mentions(i), Some(name));
            && p.Posted?
            && Inv(s.(book := p.book))
            && (to == ExternalSink ==> Committed(s.(book := p.book), i))
            && (to == Treasury ==> RolledBack(s.(book := p.book), i))
            && Chosen(name) in p.book.txIds
  {
    hide Valid;
    SettlePosts(s, i, to, name);
    var p := Transfer(s.book, Escrow, to, s.ops[i].identity.amount, Mentions(i), Some(name));
    var s' := s.(book := p.book);
    TransferKeepsValid(s.book, Escrow, to, s.ops[i].identity.amount, Mentions(i), Some(name));
    SettleOwn(s, s', i, to, name);
    forall j | 0 <= j < |s'.ops| && j != i ensures OpOk(s', j) && Held(s', j) == Held(s, j) {
      SettleOther(s, s', i, j, to, name);
    }
    SettleEntries(s, s', i, to, name);
    HeldSumShift(s, s', i, |s.ops|);
  }

  // ---------- phases ----------

  lemma CreatePhase(s: Store, req: Request, fuel: nat)
    requires Inv(s)
    ensures var p := Create(s, req, fuel);
            && Inv(p.store)
            && (p.Continue? ==> p.op < |p.store.ops| && p.store.ops[p.op].identity == req.identity && req.token == Signed(req.identity.decision))
  {
    if Find(s.ops, req.identity.key).None? { CreateInv(s, req.identity); }
  }

  lemma AuthorizePhase(s: Store, i: nat, fuel: nat)
    requires Inv(s) && i < |s.ops| && s.ops[i].state == Created
    ensures var p := Authorize(s, i, s.ops[i].identity.decision, fuel);
            Inv(p.store) && (p.Stop? ==> p.outcome == Crashed || p.outcome == TokenReplay)
  {
    var d := s.ops[i].identity.decision;
    if d in s.journal {
      assert OpOk(s, i);
      MoveInv(s, i, Failed, TokenConsumed);
    } else {
      ConsumeInv(s, d);
      AuthorizeInv(s, i);
    }
  }

  lemma EscrowedInv(s: Store, i: nat)
    requires Inv(s) && i < |s.ops| && s.ops[i].state == Authorized
    requires Locked(s, i) <==> s.ops[i].identity.amount > 0
    ensures Inv(SetState(s, i, Escrowed, NoError))
  {
    assert OpOk(s, i);
    MoveInv(s, i, Escrowed, NoError);
  }

  // The lock of an operation that died between the transfer and the state write is found again,
  // and nothing is transferred a second time.
  lemma LockPhase(s: Store, i: nat, fuel: nat)
    requires Inv(s) && i < |s.ops| && s.ops[i].state == Authorized
    ensures var p := Lock(s, i, fuel);
            && Inv(p.store) && p.store.ops == s.ops
            && (Locked(s, i) ==> p.Continue? && p.store == s)
            && (p.Continue? ==> (Locked(p.store, i) <==> s.ops[i].identity.amount > 0))
            && (p.Stop? ==> p.store == s && (p.outcome == Crashed || p.outcome == LedgerRefused(InsufficientCredits)))
  {
    assert OpOk(s, i);
    var found := FindEntry(s.book.entries, {Chosen(Reservation(i))});
    if Locked(s, i) { IdHasEntry(s, Chosen(Reservation(i))); }
    if found.Some? { assert EntryOk(s, found.value); }
    else if s.ops[i].identity.amount > 0 {
      assert Chosen(Reservation(i)) !in s.book.txIds;
      hide Inv;
      if Lock(s, i, fuel).Continue? { LockInv(s, i); }
    }
  }

  lemma LockupPhase(s: Store, i: nat, fuel: nat)
    requires Inv(s) && i < |s.ops| && s.ops[i].state == Authorized
    ensures var p := Lockup(s, i, fuel);
            && Inv(p.store)
            && (p.Stop? ==> p.outcome == Crashed || p.outcome == LedgerRefused(InsufficientCredits))
            && (p.Stop? && p.outcome != Crashed ==> p.store == s)
  {
    hide Inv;
    LockPhase(s, i, fuel);
    var p := Lock(s, i, fuel);
    if p.Continue? { EscrowedInv(p.store, i); }
  }

  lemma DispatchPhase(s: Store, i: nat, fuel: nat)
    requires Inv(s) && i < |s.ops| && s.ops[i].state == Escrowed
    ensures var p := Dispatch(s, i, fuel);
            && Inv(p.store)
            && (p.Stop? ==> p.outcome == Crashed)
            && (p.Continue? ==> !Committed(p.store, i) && !RolledBack(p.store, i))
  {
    assert OpOk(s, i);
    DispatchInv(s, i);
  }

  // Settlement transfer, then the terminal state.
  lemma SettleMoves(s: Store, i: nat, to: Account, name: TxName, final: OpState, error: ErrorMessage)
    requires Inv(s) && i < |s.ops| && IsSettlement(s, i, to, name) && !Committed(s, i) && !RolledBack(s, i)
    requires || (s.ops[i].state == Submitted && final == (if name.Commit? then Succeeded else Failed) && (name.Commit? || name.Rollback?))
             || (s.ops[i].state == Reconciling && final == Reconciled)
    requires error != TokenConsumed && (final == Failed ==> error == ProviderRejected)
    ensures var p := Transfer(s.book, Escrow, to, s.ops[i].identity.amount, Mentions(i), Some(name));
            if s.ops[i].identity.amount > 0
            then p.Posted? && Inv(s.(book := p.book)) && Inv(SetState(s.(book := p.book), i, final, error))
            else Inv(SetState(s, i, final, error))
  {
    hide Inv, Transfer;
    OpOkAt(s, i);
    if s.ops[i].identity.amount > 0 {
      SettleInv(s, i, to, name);
      var p := Transfer(s.book, Escrow, to, s.ops[i].identity.amount, Mentions(i), Some(name));
      SettledMove(s.(book := p.book), i, name, final, error);
    } else {
      MoveInv(s, i, final, error);
    }
  }

  lemma SettledMove(s: Store, i: nat, name: TxName, final: OpState, error: ErrorMessage)
    requires Inv(s) && i < |s.ops| && Chosen(name) in s.book.txIds && (Committed(s, i) || RolledBack(s, i))
    requires || (s.ops[i].state == Submitted && final == (if name.Commit? then Succeeded else Failed)
                 && (name == Commit(s.ops[i].identity.decision) || name == Rollback(s.ops[i].identity.decision)))
             || (s.ops[i].state == Reconciling && final == Reconciled)
    requires error != TokenConsumed && (final == Failed ==> error == ProviderRejected)
    ensures Inv(SetState(s, i, final, error))
  {
    hide Inv;
    OpOkAt(s, i);
    MoveInv(s, i, final, error);
  }

  // Where a crash can leave the store.
  lemma ConcludeStops(s: Store, i: nat, to: Account, name: TxName, final: OpState, error: ErrorMessage, outcome: Outcome, fuel: nat)
    requires i < |s.ops| && AllowedMove(s.ops[i].state, final)
    requires s.ops[i].identity.amount > 0 ==> Transfer(s.book, Escrow, to, s.ops[i].identity.amount, Mentions(i), Some(name)).Posted?
    ensures var p := Conclude(s, i, to, name, final, error, outcome, fuel);
            && p.Stop? && (p.outcome == Crashed || p.outcome == outcome)
            && (p.store == s || p.store == Moved(s, i, to, name) || p.store == SetState(Moved(s, i, to, name), i, final, error))
  {
    var p := if s.ops[i].identity.amount > 0 then Post(s, i, Escrow, to, name, fuel) else Continue(s, i, fuel);
    if p.Stop? {
      assert p == Stop(s, Crashed);
    } else {
      assert p.store == Moved(s, i, to, name);
      var q := Finish(p.store, i, final, error, outcome, p.fuel);
      assert q.Stop? && (q == Stop(p.store, Crashed) || q == Stop(SetState(p.store, i, final, error), outcome));
    }
  }

  ghost function Moved(s: Store, i: nat, to: Account, name: TxName): Store
    requires i < |s.ops|
  {
    match Transfer(s.book, Escrow, to, s.ops[i].identity.amount, Mentions(i), Some(name))
    case Posted(book, _) => s.(book := book)
    case Refused(_) => s
  }

  lemma ConcludeKeepsInv(s: Store, i: nat, to: Account, name: TxName, final: OpState, error: ErrorMessage, outcome: Outcome, fuel: nat)
    requires Inv(s) && i < |s.ops| && IsSettlement(s, i, to, name) && !Committed(s, i) && !RolledBack(s, i)
    requires s.ops[i].state == Submitted && final == (if name.Commit? then Succeeded else Failed) && (name.Commit? || name.Rollback?)
    requires error == (if final == Failed then ProviderRejected else NoError)
    ensures var p := Conclude(s, i, to, name, final, error, outcome, fuel);
            Inv(p.store) && p.Stop? && (p.outcome == Crashed || p.outcome == outcome)
  {
    SettleMoves(s, i, to, name, final, error);
    ConcludeStops(s, i, to, name, final, error, outcome, fuel);
  }

  lemma ParkInv(s: Store, i: nat)
    requires Inv(s) && i < |s.ops| && (s.ops[i].state == Submitted || s.ops[i].state == Reconciling)
    ensures Inv(SetState(s, i, Unknown, Ambiguous))
  {
    hide Inv;
    OpOkAt(s, i);
    MoveInv(s, i, Unknown, Ambiguous);
  }

  // The provider's answer is always settled: no transfer is refused at this point.
  lemma SettlePhase(s: Store, i: nat, result: ProviderResult, fuel: nat)
    requires Inv(s) && i < |s.ops| && s.ops[i].state == Submitted && !Committed(s, i) && !RolledBack(s, i)
    ensures var p := Settle(s, i, s.ops[i].identity.decision, result, fuel);
            Inv(p.store) && p.Stop? && !p.outcome.LedgerRefused? && p.outcome != BadEscrowEntry
  {
    var d := s.ops[i].identity.decision;
    if result == Success { ConcludeKeepsInv(s, i, ExternalSink, Commit(d), Succeeded, NoError, Receipt, fuel); }
    else if result == Failure { ConcludeKeepsInv(s, i, Treasury, Rollback(d), Failed, ProviderRejected, RejectedByProvider, fuel); }
    else { ParkInv(s, i); }
  }

  // Whatever happens and wherever the process dies, the invariant survives the call.
  lemma ExecuteKeepsInv(s: Store, req: Request, result: ProviderResult, fuel: nat)
    requires Inv(s)
    ensures var p := ExecuteProposal(s, req, result, fuel);
            && Inv(p.store)
            && p.Stop?
            && p.outcome != BadEscrowEntry
            && (p.outcome.LedgerRefused? ==> p.outcome.reason == InsufficientCredits)
  {
    hide Inv, Authorize, FromAuthorized, FromEscrowed;
    CreatePhase(s, req, fuel);
    var c := Create(s, req, fuel);
    if c.Continue? {
      var t, i := c.store, c.op;
      match t.ops[i].state
      case Created =>
        CreatedKeepsInv(t, i, result, c.fuel);
      case Authorized => AuthorizedKeepsInv(t, i, result, c.fuel);
      case Escrowed => EscrowedKeepsInv(t, i, result, c.fuel);
      case Submitted =>
      case Succeeded =>
      case Failed =>
      case Unknown =>
      case Reconciling =>
      case Reconciled =>
    }
  }

  lemma CreatedKeepsInv(s: Store, i: nat, result: ProviderResult, fuel: nat)
    requires Inv(s) && i < |s.ops| && s.ops[i].state == Created
    ensures var p := FromCreated(s, i, s.ops[i].identity.decision, result, fuel);
            Inv(p.store) && p.Stop? && p.outcome != BadEscrowEntry
            && (p.outcome.LedgerRefused? ==> p.outcome.reason == InsufficientCredits)
  {
    hide Inv, FromAuthorized;
    AuthorizePhase(s, i, fuel);
    var a := Authorize(s, i, s.ops[i].identity.decision, fuel);
    if a.Continue? { AuthorizedKeepsInv(a.store, i, result, a.fuel); }
  }

  lemma EscrowedKeepsInv(s: Store, i: nat, result: ProviderResult, fuel: nat)
    requires Inv(s) && i < |s.ops| && s.ops[i].state == Escrowed
    ensures var p := FromEscrowed(s, i, s.ops[i].identity.decision, result, fuel);
            Inv(p.store) && p.Stop? && p.outcome != BadEscrowEntry && !p.outcome.LedgerRefused?
  {
    hide Inv, Settle;
    DispatchPhase(s, i, fuel);
    var d := Dispatch(s, i, fuel);
    if d.Continue? { SettlePhase(d.store, i, result, d.fuel); }
  }

  lemma AuthorizedKeepsInv(s: Store, i: nat, result: ProviderResult, fuel: nat)
    requires Inv(s) && i < |s.ops| && s.ops[i].state == Authorized
    ensures var p := FromAuthorized(s, i, s.ops[i].identity.decision, result, fuel);
            Inv(p.store) && p.Stop? && p.outcome != BadEscrowEntry
            && (p.outcome.LedgerRefused? ==> p.outcome.reason == InsufficientCredits)
  {
    hide Inv, FromEscrowed, Transfer;
    LockupPhase(s, i, fuel);
    var e := Lockup(s, i, fuel);
    if e.Continue? { EscrowedKeepsInv(e.store, i, result, e.fuel); }
  }

  // ---------- reconciliation ----------

  // The provider's status denies a settlement that is already on the ledger.
  ghost predicate Contradicts(s: Store, i: nat, status: ProviderResult) {
    i < |s.ops| && ((status == Success && RolledBack(s, i)) || (status == Failure && Committed(s, i)))
  }

  // The service's scan of the log finds exactly the recorded settlements.
  lemma ScanIsExact(s: Store, i: nat)
    requires Inv(s) && i < |s.ops| && s.ops[i].state == Reconciling
    ensures AlreadyCommitted(s.book.entries, i, s.ops[i].identity.amount) <==> Committed(s, i)
    ensures AlreadyRefunded(s.book.entries, i, s.ops[i].identity.amount) <==> RolledBack(s, i)
  {
    var d, entries, amount := s.ops[i].identity.decision, s.book.entries, s.ops[i].identity.amount;
    assert OwnsToken(s.ops[i]);
    forall e | e in entries && e.memo == Mentions(i)
      ensures e.to == ExternalSink ==> Committed(s, i)
      ensures e.to == Treasury && e.from == Escrow ==> RolledBack(s, i)
    {
      assert EntryOk(s, e) && e.tx in s.book.txIds;
    }
    forall t | t in {Chosen(Commit(d)), Chosen(ReconcileCommit(i)), Chosen(Rollback(d)), Chosen(ReconcileRollback(i))} && t in s.book.txIds
      ensures exists e :: e in entries && e.tx == t && e.memo == Mentions(i) && e.amount == amount && e.from == Escrow
                          && e.to == (if t.name.Commit? || t.name.ReconcileCommit? then ExternalSink else Treasury)
    {
      IdHasEntry(s, t);
      var e :| e in entries && e.tx == t && EntryOk(s, e);
      if t.name.Commit? || t.name.Rollback? { SameOwner(s, e.memo.id, i, d); }
    }
  }

  lemma SameOwner(s: Store, i: nat, j: nat, d: nat)
    requires Inv(s) && Owns(s, i, d) && Owns(s, j, d)
    ensures i == j
  {}

  lemma FinishInv(s: Store, i: nat, error: ErrorMessage)
    requires Inv(s) && i < |s.ops| && s.ops[i].state == Reconciling && (Committed(s, i) || RolledBack(s, i))
    ensures Inv(SetState(s, i, Reconciled, error))
  {
    hide Inv;
    OpOkAt(s, i);
    MoveInv(s, i, Reconciled, error);
  }

  lemma ReconcileToKeepsInv(s: Store, i: nat, to: Account, name: TxName, already: bool, error: ErrorMessage, fuel: nat)
    requires Inv(s) && i < |s.ops| && s.ops[i].state == Reconciling && IsSettlement(s, i, to, name)
    requires already <==> Committed(s, i) || RolledBack(s, i)
    requires error != TokenConsumed
    ensures Inv(ReconcileTo(s, i, to, name, already, error, fuel).store)
  {
    hide Inv, IsSettlement, Committed, RolledBack;
    if already { FinishInv(s, i, error); } else { SettleMoves(s, i, to, name, Reconciled, error); }
  }

  lemma ResolveKeepsInv(s: Store, i: nat, status: ProviderResult, fuel: nat)
    requires Inv(s) && i < |s.ops| && s.ops[i].state == Reconciling && !Contradicts(s, i, status)
    ensures Inv(Resolve(s, i, status, fuel).store)
  {
    hide Inv, AlreadyCommitted, AlreadyRefunded, ReconcileTo;
    ScanIsExact(s, i);
    OpOkAt(s, i);
    if status == Success { ReconcileToKeepsInv(s, i, ExternalSink, ReconcileCommit(i), Committed(s, i), NoError, fuel); }
    else if status == Failure { ReconcileToKeepsInv(s, i, Treasury, ReconcileRollback(i), RolledBack(s, i), ProviderRejected, fuel); }
    else if status != Raised { ParkInv(s, i); }
  }

  lemma BeginInv(s: Store, i: nat, status: ProviderResult)
    requires Inv(s) && i < |s.ops| && (s.ops[i].state == Submitted || s.ops[i].state == Unknown)
    ensures Inv(SetState(s, i, Reconciling, NoError))
    ensures Contradicts(SetState(s, i, Reconciling, NoError), i, status) <==> Contradicts(s, i, status)
  {
    hide Inv;
    OpOkAt(s, i);
    MoveInv(s, i, Reconciling, NoError);
  }

  lemma ReconcileKeepsInv(s: Store, i: nat, tenant: nat, org: nat, status: ProviderResult, fuel: nat)
    requires Inv(s) && !Contradicts(s, i, status)
    ensures Inv(Reconcile(s, i, tenant, org, status, fuel).store)
  {
    hide Inv, Resolve, Contradicts;
    if i < |s.ops| {
      if s.ops[i].state == Reconciling { ResolveKeepsInv(s, i, status, fuel); }
      if s.ops[i].state == Submitted || s.ops[i].state == Unknown {
        BeginInv(s, i, status);
        if fuel > 0 { ResolveKeepsInv(SetState(s, i, Reconciling, NoError), i, status, fuel - 1); }
      }
    }
  }

  // Exactly when reconciliation is safe: it breaks the accounts if and only if the provider
  // denies a recorded settlement while other operations' credits are there to be moved.
  lemma ResolveSafeIff(s: Store, i: nat, status: ProviderResult, fuel: nat)
    requires Inv(s) && i < |s.ops| && s.ops[i].state == Reconciling && fuel >= 2
    ensures Inv(Resolve(s, i, status, fuel).store) <==>
            !(Contradicts(s, i, status) && Balance(s.book, Escrow) >= s.ops[i].identity.amount)
  {
    if !Contradicts(s, i, status) { ResolveKeepsInv(s, i, status, fuel); }
    else if Balance(s.book, Escrow) < s.ops[i].identity.amount { FinishInvContradicted(s, i, status, fuel); }
    else { DoubleSettlement(s, i, status, fuel); }
  }

  lemma FinishInvContradicted(s: Store, i: nat, status: ProviderResult, fuel: nat)
    requires Inv(s) && i < |s.ops| && s.ops[i].state == Reconciling && fuel >= 2
    requires Contradicts(s, i, status) && Balance(s.book, Escrow) < s.ops[i].identity.amount
    ensures Inv(Resolve(s, i, status, fuel).store)
  {
    FinishInv(s, i, if status == Success then NoError else ProviderRejected);
  }

  // A contradicting status makes the service settle the operation a second time.
  lemma DoubleSettlement(s: Store, i: nat, status: ProviderResult, fuel: nat)
    requires Inv(s) && i < |s.ops| && s.ops[i].state == Reconciling && fuel >= 2
    requires Contradicts(s, i, status) && Balance(s.book, Escrow) >= s.ops[i].identity.amount
    ensures var s' := Resolve(s, i, status, fuel).store;
            i < |s'.ops| && Committed(s', i) && RolledBack(s', i) && !Inv(s')
  {
    assert OpOk(s, i);
    ScanIsExact(s, i);
    var s' := Resolve(s, i, status, fuel).store;
    assert Committed(s', i) && RolledBack(s', i);
    assert !OpOk(s', i);
  }

  // ---------- runs ----------

  datatype Step =
    | Execute(req: Request, result: ProviderResult, fuel: nat)
    | Reconciliation(op: nat, tenant: nat, org: nat, status: ProviderResult, fuel: nat)
    | LedgerUse(call: Call)

  // Other users of the ledger leave escrow and this protocol's ids and memos alone.
  predicate Foreign(c: Call) {
    match c
    case CallMint(to, amount) => to != Escrow && amount > 0
    case CallDeposit(_, name) => name.None? || name.value.Given?
    case CallTransfer(from, to, _, memo, name) => from != Escrow && to != Escrow && memo == Plain && (name.None? || name.value.Given?)
  }

  function Next(s: Store, step: Step): Store {
    match step
    case Execute(req, result, fuel) => ExecuteProposal(s, req, result, fuel).store
    case Reconciliation(i, tenant, org, status, fuel) => Reconcile(s, i, tenant, org, status, fuel).store
    case LedgerUse(call) => s.(book := After(s.book, call))
  }

  ghost predicate Honest(s: Store, step: Step) {
    match step
    case Execute(_, _, _) => true
    case Reconciliation(i, _, _, status, _) => !Contradicts(s, i, status)
    case LedgerUse(call) => Foreign(call)
  }

  function Run(s: Store, steps: seq<Step>): Store
    decreases |steps|
  {
    if steps == [] then s else Run(Next(s, steps[0]), steps[1..])
  }

  ghost predicate HonestRun(s: Store, steps: seq<Step>)
    decreases |steps|
  {
    steps != [] ==> Honest(s, steps[0]) && HonestRun(Next(s, steps[0]), steps[1..])
  }

  lemma LedgerUseInv(s: Store, c: Call)
    requires Inv(s) && Foreign(c)
    ensures Inv(s.(book := After(s.book, c)))
  {
    assert c.CallMint? ==> c.amount > 0;
    hide Valid, Foreign;
    if Try(s.book, c).Posted? {
      AfterKeepsValid(s.book, c);
      ForeignEntry(s.book, c);
      hide Try, After, Inv;
      ForeignKeepsInv(s, s.(book := After(s.book, c)), Try(s.book, c).entry);
    }
  }

  lemma ForeignKeepsInv(s: Store, s': Store, e: Entry)
    requires Inv(s) && s' == s.(book := s'.book) && Valid(s'.book)
    requires ForeignId(e.tx) && e.from != Escrow && e.to != Escrow && e.memo == Plain
    requires s'.book.entries == s.book.entries + [e] && s'.book.txIds == s.book.txIds + {e.tx}
    requires Balance(s'.book, Escrow) == Balance(s.book, Escrow)
    ensures Inv(s')
  {
    hide Valid;
    forall j | 0 <= j < |s'.ops| ensures OpOk(s', j) && Held(s', j) == Held(s, j) { ForeignOp(s, s', e, j); }
    forall x | x in s'.book.entries ensures EntryOk(s', x) { if x in s.book.entries { assert EntryOk(s, x); } }
    HeldSumAgree(s, s', |s.ops|);
  }

  predicate ForeignId(t: TxId) { t.Generated? || t.name.Given? }

  lemma ForeignEntry(b: Book, c: Call)
    requires Foreign(c) && Try(b, c).Posted?
    ensures var e, b' := Try(b, c).entry, After(b, c);
            && ForeignId(e.tx) && e.from != Escrow && e.to != Escrow && e.memo == Plain
            && b'.entries == b.entries + [e] && b'.txIds == b.txIds + {e.tx} && Balance(b', Escrow) == Balance(b, Escrow)
  {}

  lemma ForeignOp(s: Store, s': Store, e: Entry, j: nat)
    requires j < |s.ops| && OpOk(s, j) && ForeignId(e.tx)
    requires s' == s.(book := s'.book) && s'.book.txIds == s.book.txIds + {e.tx}
    ensures OpOk(s', j) && Held(s', j) == Held(s, j)
  {
    assert Locked(s', j) == Locked(s, j);
    assert Committed(s', j) == Committed(s, j);
    assert RolledBack(s', j) == RolledBack(s, j);
  }

  lemma NextKeepsInv(s: Store, step: Step)
    requires Inv(s) && Honest(s, step)
    ensures Inv(Next(s, step))
  {
    hide Inv, ExecuteProposal, Reconcile;
    match step
    case Execute(req, result, fuel) => ExecuteKeepsInv(s, req, result, fuel);
    case Reconciliation(i, tenant, org, status, fuel) => ReconcileKeepsInv(s, i, tenant, org, status, fuel);
    case LedgerUse(call) => LedgerUseInv(s, call);
  }

  lemma {:induction false} RunKeepsInv(s: Store, steps: seq<Step>)
    requires Inv(s) && HonestRun(s, steps)
    ensures Inv(Run(s, steps))
    decreases |steps|
  {
    hide Inv, Next, Honest;
    if steps != [] {
      NextKeepsInv(s, steps[0]);
      RunKeepsInv(Next(s, steps[0]), steps[1..]);
    }
  }

  function Start(initialTreasury: int): Store {
    Store(Open(initialTreasury), {}, [], [])
  }

  lemma StartInv(initialTreasury: int)
    ensures Inv(Start(initialTreasury))
  {
    OpenIsPlain(initialTreasury);
    hide Valid, Open;
  }

  // At most one of the four settlement ids of an operation is on record: a commit or a rollback, by the
  // call itself or by reconciliation.
  ghost predicate SettledOnce(s: Store, i: nat)
    requires i < |s.ops|
  {
    forall t, u :: t in SettlementsOf(s, i) && u in SettlementsOf(s, i) && t in s.book.txIds && u in s.book.txIds ==> t == u
  }

  function SettlementsOf(s: Store, i: nat): set<TxId>
    requires i < |s.ops|
  {
    var d := s.ops[i].identity.decision;
    {Chosen(Commit(d)), Chosen(Rollback(d)), Chosen(ReconcileCommit(i)), Chosen(ReconcileRollback(i))}
  }

  lemma OpOkSettledOnce(s: Store, i: nat)
    requires i < |s.ops| && OpOk(s, i)
    ensures OwnsToken(s.ops[i]) ==> SettledOnce(s, i)
  {}

  // Escrow is the sum of what is locked and not settled, at every point of every run.
  lemma EscrowIsWhatIsHeld(initialTreasury: int, steps: seq<Step>)
    requires HonestRun(Start(initialTreasury), steps)
    ensures var s := Run(Start(initialTreasury), steps);
            && Balance(s.book, Escrow) == HeldSum(s, |s.ops|)
            && DistinctIds(s.book.entries)
            && (forall i :: 0 <= i < |s.ops| ==> !(Committed(s, i) && RolledBack(s, i)))
            && (forall i :: 0 <= i < |s.ops| && (Committed(s, i) || RolledBack(s, i)) ==> Locked(s, i))
            && (forall i :: 0 <= i < |s.ops| && OwnsToken(s.ops[i]) ==> SettledOnce(s, i))
  {
    StartInv(initialTreasury);
    RunKeepsInv(Start(initialTreasury), steps);
    hide Start, HonestRun;
    var s := Run(Start(initialTreasury), steps);
    assert DistinctIds(s.book.entries);
    hide Valid, SettledOnce;
    forall i | 0 <= i < |s.ops|
      ensures !(Committed(s, i) && RolledBack(s, i)) && (Committed(s, i) || RolledBack(s, i) ==> Locked(s, i))
      ensures OwnsToken(s.ops[i]) ==> SettledOnce(s, i)
    {
      assert OpOk(s, i);
      OpOkSettledOnce(s, i);
    }
  }

  // ---------- a run into the double settlement ----------

  // A complete request for a new operation.
  predicate Fresh(s: Store, req: Request) {
    && req.approved && req.token == Signed(req.identity.decision) && req.otherChecksPass && req.capable
    && Find(s.ops, req.identity.key).None? && req.identity.decision !in s.journal
    && 0 < req.identity.amount <= Balance(s.book, Treasury)
  }

  function LockOf(s: Store, req: Request): Posting {
    Transfer(s.book, Treasury, Escrow, req.identity.amount, Mentions(|s.ops|), Some(Reservation(|s.ops|)))
  }

  // The store when the provider is called for it.
  function Called(s: Store, req: Request): Store
    requires LockOf(s, req).Posted?
  {
    Store(LockOf(s, req).book, s.journal + {req.identity.decision},
          s.ops + [Operation(req.identity, Submitted, NoError)], s.dispatched + [|s.ops|])
  }

  lemma LockIsNew(s: Store, req: Request)
    requires Inv(s) && Fresh(s, req)
    ensures LockOf(s, req).Posted? && FindEntry(s.book.entries, {Chosen(Reservation(|s.ops|))}).None?
  {
    var i := |s.ops|;
    if Chosen(Reservation(i)) in s.book.txIds { IdHasEntry(s, Chosen(Reservation(i))); }
    forall e | e in s.book.entries ensures e.tx !in {Chosen(Reservation(i))} { assert EntryOk(s, e); }
    hide Inv;
    TransferIs(s.book, Treasury, Escrow, req.identity.amount, Mentions(i), Reservation(i));
  }

  // With enough writes left a fresh request gets as far as settlement.
  lemma ReachesSettlement(s: Store, req: Request, result: ProviderResult, fuel: nat)
    requires Inv(s) && Fresh(s, req) && fuel >= 7
    ensures LockOf(s, req).Posted?
    ensures ExecuteProposal(s, req, result, fuel) ==
            Settle(Called(s, req), |s.ops|, req.identity.decision, result, fuel - 7)
  {
    hide *;
    LockIsNew(s, req);
    CreatesFresh(s, req, fuel);
    PhaseStates(s, req);
    AuthorizesFresh(s, req, fuel - 1);
    LocksFresh(s, req, fuel - 3);
    DispatchesFresh(s, req, fuel - 5);
    var i, d := |s.ops|, req.identity.decision;
    var a, e := AuthorizedWith(s, req), EscrowedWith(s, req);
    ThroughCreate(s, req, result, fuel, With(s, req, Created), fuel - 1);
    ThroughAuthorize(With(s, req, Created), i, d, result, fuel - 1, a, fuel - 3);
    ThroughLockup(a, i, d, result, fuel - 3, e, fuel - 5);
    ThroughDispatch(e, i, d, result, fuel - 5, Called(s, req), fuel - 7);
  }

  function AuthorizedWith(s: Store, req: Request): Store {
    With(s, req, Authorized).(journal := s.journal + {req.identity.decision})
  }

  function EscrowedWith(s: Store, req: Request): Store
    requires LockOf(s, req).Posted?
  {
    With(s, req, Escrowed).(journal := s.journal + {req.identity.decision}, book := LockOf(s, req).book)
  }

  lemma PhaseStates(s: Store, req: Request)
    requires LockOf(s, req).Posted?
    ensures |s.ops| < |With(s, req, Created).ops| && With(s, req, Created).ops[|s.ops|].state == Created
    ensures |s.ops| < |AuthorizedWith(s, req).ops| && AuthorizedWith(s, req).ops[|s.ops|].state == Authorized
    ensures |s.ops| < |EscrowedWith(s, req).ops| && EscrowedWith(s, req).ops[|s.ops|].state == Escrowed
    ensures |s.ops| < |Called(s, req).ops| && Called(s, req).ops[|s.ops|].state == Submitted
  {
    hide LockOf;
  }

  // Each phase that continues hands over to the next.
  lemma ThroughCreate(s: Store, req: Request, result: ProviderResult, fuel: nat, t: Store, left: nat)
    requires Create(s, req, fuel) == Continue(t, |s.ops|, left) && |s.ops| < |t.ops| && t.ops[|s.ops|].state == Created
    requires req.token.Signed? && req.token.decision == req.identity.decision
    ensures ExecuteProposal(s, req, result, fuel) == FromCreated(t, |s.ops|, req.identity.decision, result, left)
  {
    hide Create, FromCreated;
  }

  lemma ThroughAuthorize(s: Store, i: nat, d: nat, result: ProviderResult, fuel: nat, t: Store, left: nat)
    requires i < |s.ops| && s.ops[i].state == Created && Authorize(s, i, d, fuel) == Continue(t, i, left)
    requires i < |t.ops| && t.ops[i].state == Authorized
    ensures FromCreated(s, i, d, result, fuel) == FromAuthorized(t, i, d, result, left)
  {
    hide Authorize, FromAuthorized;
  }

  lemma ThroughLockup(s: Store, i: nat, d: nat, result: ProviderResult, fuel: nat, t: Store, left: nat)
    requires i < |s.ops| && s.ops[i].state == Authorized && Lockup(s, i, fuel) == Continue(t, i, left)
    requires i < |t.ops| && t.ops[i].state == Escrowed
    ensures FromAuthorized(s, i, d, result, fuel) == FromEscrowed(t, i, d, result, left)
  {
    hide Lockup, FromEscrowed;
  }

  lemma ThroughDispatch(s: Store, i: nat, d: nat, result: ProviderResult, fuel: nat, t: Store, left: nat)
    requires i < |s.ops| && s.ops[i].state == Escrowed && Dispatch(s, i, fuel) == Continue(t, i, left)
    requires i < |t.ops| && t.ops[i].state == Submitted
    ensures FromEscrowed(s, i, d, result, fuel) == Settle(t, i, d, result, left)
  {
    hide Dispatch, Settle;
  }

  function With(s: Store, req: Request, state: OpState): Store {
    s.(ops := s.ops + [Operation(req.identity, state, NoError)])
  }

  lemma CreatesFresh(s: Store, req: Request, fuel: nat)
    requires Fresh(s, req) && fuel >= 1
    ensures Create(s, req, fuel) == Continue(With(s, req, Created), |s.ops|, fuel - 1)
    ensures req.token.Signed? && req.token.decision == req.identity.decision
  {}

  lemma AuthorizesFresh(s: Store, req: Request, fuel: nat)
    requires Fresh(s, req) && fuel >= 2
    ensures |s.ops| < |With(s, req, Created).ops| && With(s, req, Created).ops[|s.ops|].state == Created
    ensures Authorize(With(s, req, Created), |s.ops|, req.identity.decision, fuel) ==
            Continue(AuthorizedWith(s, req), |s.ops|, fuel - 2)
  {
    assert With(s, req, Created).ops[|s.ops| := Operation(req.identity, Authorized, NoError)] == With(s, req, Authorized).ops;
  }

  lemma LocksFresh(s: Store, req: Request, fuel: nat)
    requires Fresh(s, req) && fuel >= 2 && LockOf(s, req).Posted?
    requires FindEntry(s.book.entries, {Chosen(Reservation(|s.ops|))}).None?
    ensures |s.ops| < |AuthorizedWith(s, req).ops| && AuthorizedWith(s, req).ops[|s.ops|].state == Authorized
    ensures Lockup(AuthorizedWith(s, req), |s.ops|, fuel) == Continue(EscrowedWith(s, req), |s.ops|, fuel - 2)
  {
    assert With(s, req, Authorized).ops[|s.ops| := Operation(req.identity, Escrowed, NoError)] == With(s, req, Escrowed).ops;
    hide Transfer, FindEntry;
  }

  lemma DispatchesFresh(s: Store, req: Request, fuel: nat)
    requires fuel >= 2 && LockOf(s, req).Posted?
    ensures |s.ops| < |EscrowedWith(s, req).ops| && EscrowedWith(s, req).ops[|s.ops|].state == Escrowed
    ensures Dispatch(EscrowedWith(s, req), |s.ops|, fuel) == Continue(Called(s, req), |s.ops|, fuel - 2)
  {
    assert With(s, req, Escrowed).ops[|s.ops| := Operation(req.identity, Submitted, NoError)] == With(s, req, Submitted).ops;
    hide Transfer;
  }

  // The process dies between the settlement transfer and the state write.
  lemma DiesAfterCommit(s: Store, req: Request)
    requires Inv(s) && Fresh(s, req)
    ensures var s' := ExecuteProposal(s, req, Success, 8).store; var i := |s.ops|;
            && s'.ops == s.ops + [Operation(req.identity, Submitted, NoError)] && s'.journal == s.journal + {req.identity.decision}
            && Chosen(Commit(req.identity.decision)) in s'.book.txIds
            && Balance(s'.book, Treasury) == Balance(s.book, Treasury) - req.identity.amount
  {
    hide Inv, ExecuteProposal, Transfer, Balance, LockOf, Settle;
    ReachesSettlement(s, req, Success, 8);
    var i, d, amount := |s.ops|, req.identity.decision, req.identity.amount;
    var t := Called(s, req);
    CalledIs(s, req);
    CommitIsNew(s, t, i);
    TransferIs(t.book, Escrow, ExternalSink, amount, Mentions(i), Commit(d));
    SettleDies(t, i, d);
  }

  lemma SettleDies(t: Store, i: nat, d: nat)
    requires i < |t.ops| && t.ops[i].state == Submitted && t.ops[i].identity.amount > 0
    ensures var p := Transfer(t.book, Escrow, ExternalSink, t.ops[i].identity.amount, Mentions(i), Some(Commit(d)));
            p.Posted? ==> Settle(t, i, d, Success, 1).store == t.(book := p.book)
  {
    hide Transfer;
  }

  // The invariant holds when the provider is called; the lock is the only ledger entry so far.
  lemma CalledIs(s: Store, req: Request)
    requires Inv(s) && Fresh(s, req)
    ensures LockOf(s, req).Posted? && Inv(Called(s, req))
    ensures var t := Called(s, req);
            && t.book.txIds == s.book.txIds + {Chosen(Reservation(|s.ops|))}
            && Balance(t.book, Treasury) == Balance(s.book, Treasury) - req.identity.amount
            && Balance(t.book, Escrow) == Balance(s.book, Escrow) + req.identity.amount
  {
    hide Inv, ExecuteProposal, Transfer, Balance;
    LockIsNew(s, req);
    TransferIs(s.book, Treasury, Escrow, req.identity.amount, Mentions(|s.ops|), Reservation(|s.ops|));
    ReachesSettlement(s, req, Undetermined, 7);
    ExecuteKeepsInv(s, req, Undetermined, 7);
  }

  lemma CommitIsNew(s: Store, t: Store, i: nat)
    requires Inv(t) && i < |t.ops| && t.ops[i].state == Submitted && t.ops[i].identity.amount > 0 && i == |s.ops|
    requires Inv(s) && t.ops[i].identity.decision !in s.journal && t.book.txIds == s.book.txIds + {Chosen(Reservation(i))}
    ensures Chosen(Commit(t.ops[i].identity.decision)) !in t.book.txIds
    ensures Balance(t.book, Escrow) >= t.ops[i].identity.amount
  {
    NothingSettled(s, i, t.ops[i].identity.decision);
    assert OpOk(t, i);
    HeldSumCovers(t, i, |t.ops|);
  }

  // No settlement id of an operation not yet created, or of a token not yet consumed, is on record.
  lemma NothingSettled(s: Store, i: nat, d: nat)
    requires Inv(s) && i >= |s.ops| && d !in s.journal
    ensures forall t :: t in {Chosen(Commit(d)), Chosen(Rollback(d)), Chosen(ReconcileCommit(i)), Chosen(ReconcileRollback(i))} ==>
              t !in s.book.txIds
  {
    OwnersJournaled(s);
    forall e | e in s.book.entries
      ensures e.tx !in {Chosen(Commit(d)), Chosen(Rollback(d)), Chosen(ReconcileCommit(i)), Chosen(ReconcileRollback(i))}
    {
      assert EntryOk(s, e);
    }
    assert s.book.txIds == (set e | e in s.book.entries :: e.tx);
    hide Inv, EntryOk;
  }

  // The provider's answer to another operation stays open: its credits remain in escrow.
  lemma StaysOpen(s: Store, req: Request)
    requires Inv(s) && Fresh(s, req)
    ensures var s' := ExecuteProposal(s, req, Undetermined, 100).store;
            && |s'.ops| == |s.ops| + 1 && s.ops <= s'.ops && s.book.txIds <= s'.book.txIds
            && Balance(s'.book, Escrow) == Balance(s.book, Escrow) + req.identity.amount
  {
    hide Inv, ExecuteProposal, Transfer, Balance, LockOf;
    ReachesSettlement(s, req, Undetermined, 100);
    CalledIs(s, req);
  }

  function Purchase(k: nat): Request {
    Request(Identity(0, 0, k, k, k, "", 5, 0), true, Signed(k), true, true)
  }

  // Operation 0 dies right after its commit, operation 1 leaves its credits in escrow, and then the
  // provider denies operation 0: reconciliation pays its amount back out of operation 1's credits.
  lemma DoubleSettlementIsReached()
    ensures var steps := [Step.Execute(Purchase(0), Success, 8), Step.Execute(Purchase(1), Undetermined, 100)];
            var s := Run(Start(100), steps);
            var s' := Next(s, Reconciliation(0, 0, 0, Failure, 10));
            && HonestRun(Start(100), steps) && Inv(s)
            && 0 < |s'.ops| && Committed(s', 0) && RolledBack(s', 0) && !Inv(s')
  {
    var steps := [Step.Execute(Purchase(0), Success, 8), Step.Execute(Purchase(1), Undetermined, 100)];
    hide Inv, ExecuteProposal, Reconcile, Start, Balance, Committed, RolledBack, Purchase, Run, HonestRun;
    FirstDies();
    var s1 := Next(Start(100), steps[0]);
    SecondStaysOpen(s1);
    RunTwo(Start(100), steps);
    ReconcileTwice(Next(s1, steps[1]));
  }

  lemma FirstDies()
    ensures var s := Next(Start(100), Step.Execute(Purchase(0), Success, 8));
            && Inv(s) && s.ops == [Operation(Purchase(0).identity, Submitted, NoError)] && s.journal == {0}
            && Chosen(Commit(0)) in s.book.txIds && Balance(s.book, Treasury) == 95
  {
    StartInv(100);
    OpenHolds(100);
    hide Inv, ExecuteProposal, Open;
    DiesAfterCommit(Start(100), Purchase(0));
    ExecuteKeepsInv(Start(100), Purchase(0), Success, 8);
  }

  lemma SecondStaysOpen(s: Store)
    requires Inv(s) && s.ops == [Operation(Purchase(0).identity, Submitted, NoError)] && s.journal == {0}
    requires Balance(s.book, Treasury) == 95
    ensures var t := Next(s, Step.Execute(Purchase(1), Undetermined, 100));
            && Inv(t) && |t.ops| > 0 && t.ops[0] == s.ops[0] && s.book.txIds <= t.book.txIds && Balance(t.book, Escrow) >= 5
            && t.ops[0].identity.amount == 5 && t.ops[0].identity.decision == t.ops[0].identity.tenant == t.ops[0].identity.org == 0
  {
    EscrowNonNegative(s);
    hide Inv, ExecuteProposal, Balance;
    assert Fresh(s, Purchase(1));
    StaysOpen(s, Purchase(1));
    ExecuteKeepsInv(s, Purchase(1), Undetermined, 100);
  }

  lemma EscrowNonNegative(s: Store)
    requires Inv(s)
    ensures Balance(s.book, Escrow) >= 0
  {}

  lemma RunTwo(s: Store, steps: seq<Step>)
    requires |steps| == 2
    ensures Run(s, steps) == Next(Next(s, steps[0]), steps[1])
    ensures HonestRun(s, steps) <==> Honest(s, steps[0]) && Honest(Next(s, steps[0]), steps[1])
  {
    hide Next, Honest;
    assert steps[1..][1..] == [];
    var t := Next(s, steps[0]);
    assert Run(t, steps[1..]) == Next(t, steps[1]);
    assert HonestRun(t, steps[1..]) == Honest(t, steps[1]);
  }

  lemma ReconcileTwice(s: Store)
    requires Inv(s) && |s.ops| > 0 && s.ops[0].state == Submitted && s.ops[0].identity.amount == 5
    requires s.ops[0].identity.tenant == s.ops[0].identity.org == 0 && Balance(s.book, Escrow) >= 5
    requires Chosen(Commit(s.ops[0].identity.decision)) in s.book.txIds
    ensures var s' := Next(s, Reconciliation(0, 0, 0, Failure, 10));
            0 < |s'.ops| && Committed(s', 0) && RolledBack(s', 0) && !Inv(s')
  {
    var t := SetState(s, 0, Reconciling, NoError);
    BeginInv(s, 0, Failure);
    assert Contradicts(t, 0, Failure);
    hide Inv, Resolve, Contradicts;
    DoubleSettlement(t, 0, Failure, 9);
    assert Next(s, Reconciliation(0, 0, 0, Failure, 10)) == Resolve(t, 0, Failure, 9).store;
  }

  // The provider hears of each idempotency key and of each authorization token at most once.
  lemma DispatchedAtMostOnce(initialTreasury: int, steps: seq<Step>, k: nat, l: nat)
    requires HonestRun(Start(initialTreasury), steps)
    requires k < l < |Run(Start(initialTreasury), steps).dispatched|
    ensures var s := Run(Start(initialTreasury), steps);
            && s.dispatched[k] < |s.ops| && s.dispatched[l] < |s.ops|
            && s.ops[s.dispatched[k]].identity.key != s.ops[s.dispatched[l]].identity.key
            && s.ops[s.dispatched[k]].identity.decision != s.ops[s.dispatched[l]].identity.decision
  {
    StartInv(initialTreasury);
    RunKeepsInv(Start(initialTreasury), steps);
  }

  // ---------- the auditor's ledger check ----------

  function SettlementIds(s: Store, i: nat, token: nat): set<TxId>
    requires i < |s.ops|
  {
    match s.ops[i].state
    case Succeeded => {Chosen(Commit(token))}
    case Failed => {Chosen(Rollback(token))}
    case _ => {Chosen(ReconcileCommit(i)), Chosen(ReconcileRollback(i)), Chosen(Commit(token)), Chosen(Rollback(token))}
  }

  predicate AuditAccepts(s: Store, i: nat, token: nat)
    requires i < |s.ops|
  {
    var op := s.ops[i];
    op.identity.amount > 0 && (op.state == Succeeded || op.state == Failed || op.state == Reconciled) ==>
      var found := FindEntry(s.book.entries, SettlementIds(s, i, token));
      found.Some? && found.value.amount == op.identity.amount
  }

  // The independent audit confirms every operation that ever passed the replay barrier.
  lemma AuditConfirmsOwners(s: Store, i: nat)
    requires Inv(s) && i < |s.ops| && OwnsToken(s.ops[i])
    ensures AuditAccepts(s, i, s.ops[i].identity.decision)
  {
    var op := s.ops[i];
    var d := op.identity.decision;
    assert OpOk(s, i);
    var found := FindEntry(s.book.entries, SettlementIds(s, i, d));
    if found.Some? {
      assert EntryOk(s, found.value);
      if found.value.tx.name.Commit? || found.value.tx.name.Rollback? { SameOwner(s, found.value.memo.id, i, d); }
    } else if op.identity.amount > 0 {
      forall t | t in SettlementIds(s, i, d) ensures t !in s.book.txIds {
        if t in s.book.txIds { IdHasEntry(s, t); }
      }
    }
  }

  // ---------- the objects ----------

  // What a method did, against the progress its specification function predicts.
  ghost predicate Ends(p: Progress, s: Store, out: Option<Outcome>, op: nat, left: nat) {
    && p.store == s
    && match p
       case Stop(_, outcome) => out.Some? && out.value == outcome
       case Continue(_, i, fuel) => out.None? && i == op && fuel == left
  }

  // `fuel` is the number of durable writes and dispatches the process lives to make.
  class ExecutionManager {
    const ledger: DoubleEntryLedger
    var journal: set<nat>
    var ops: seq<Operation>
    var dispatched: seq<nat>

    ghost function State(): Store
      reads this, ledger
    {
      Store(ledger.State(), journal, ops, dispatched)
    }

    constructor (ledger: DoubleEntryLedger)
      ensures this.ledger == ledger && State() == Store(ledger.State(), {}, [], [])
    {
      this.ledger := ledger;
      journal, ops, dispatched := {}, [], [];
    }

    method SaveState(i: nat, to: OpState, error: ErrorMessage)
      requires i < |ops| && AllowedMove(ops[i].state, to)
      modifies this`ops
      ensures State() == SetState(old(State()), i, to, error)
    {
      var op := ops[i];
      op := op.(state := to);
      if error != NoError { op := op.(error := error); }
      ops := ops[i := op];
    }

    method CreateOperation(req: Request, fuel: nat) returns (out: Option<Outcome>, op: nat, left: nat)
      modifies this`ops
      ensures Ends(Create(old(State()), req, fuel), State(), out, op, left)
      ensures out.None? ==> op < |ops| && req.token.Signed?
    {
      op, left := 0, fuel;
      if !req.approved { return Some(PolicyViolation), op, left; }
      if !req.token.Signed? { return Some(Unauthorized), op, left; }
      if req.token.decision != req.identity.decision || !req.otherChecksPass { return Some(Unauthorized), op, left; }
      if !req.capable { return Some(Unauthorized), op, left; }
      var existing := Find(ops, req.identity.key);
      if existing.Some? {
        op := existing.value;
        var found := ops[op].identity;
        if found.tenant != req.identity.tenant || found.org != req.identity.org { return Some(CrossTenant), op, left; }
        if found != req.identity { return Some(IdempotencyConflict), op, left; }
        return None, op, left;
      }
      if left == 0 { return Some(Crashed), op, left; }
      op, left := |ops|, left - 1;
      ops := ops + [Operation(req.identity, Created, NoError)];
      return None, op, left;
    }

    method AuthorizeOperation(i: nat, token: nat, fuel: nat) returns (out: Option<Outcome>, left: nat)
      requires i < |ops| && ops[i].state == Created
      modifies this`ops, this`journal
      ensures Ends(Authorize(old(State()), i, token, fuel), State(), out, i, left)
      ensures out.None? ==> i < |ops| && ops[i].state == Authorized
    {
      left := fuel;
      if left == 0 { return Some(Crashed), left; }
      left := left - 1;
      if token in journal {
        SaveState(i, Failed, TokenConsumed);
        return Some(TokenReplay), left;
      }
      journal := journal + {token};
      if left == 0 { return Some(Crashed), left; }
      SaveState(i, Authorized, NoError);
      return None, left - 1;
    }

    method EscrowOperation(i: nat, fuel: nat) returns (out: Option<Outcome>, left: nat)
      requires i < |ops| && ops[i].state == Authorized
      modifies this`ops, ledger
      ensures Ends(Lockup(old(State()), i, fuel), State(), out, i, left)
      ensures out.None? ==> i < |ops| && ops[i].state == Escrowed
    {
      left := fuel;
      var amount := ops[i].identity.amount;
      if amount > 0 {
        var existing := FindEntry(ledger.entries, {Chosen(Reservation(i))});
        if existing.Some? {
          if !IsLock(existing.value, i, amount) { return Some(BadEscrowEntry), left; }
        } else {
          out, left := PostFor(i, Treasury, Escrow, Reservation(i), left);
          if out.Some? { return out, left; }
        }
      }
      if left == 0 { return Some(Crashed), left; }
      SaveState(i, Escrowed, NoError);
      return None, left - 1;
    }

    method PostFor(i: nat, from: Account, to: Account, name: TxName, fuel: nat) returns (out: Option<Outcome>, left: nat)
      requires i < |ops|
      modifies ledger
      ensures Ends(Post(old(State()), i, from, to, name, fuel), State(), out, i, left)
    {
      hide Transfer;
      if fuel == 0 { return Some(Crashed), 0; }
      var refused := ledger.Move(from, to, ops[i].identity.amount, Mentions(i), Some(name));
      if refused.Some? { return Some(LedgerRefused(refused.value)), fuel; }
      return None, fuel - 1;
    }

    method FinishWith(i: nat, final: OpState, error: ErrorMessage, outcome: Outcome, fuel: nat) returns (out: Outcome)
      requires i < |ops| && AllowedMove(ops[i].state, final)
      modifies this`ops
      ensures Ends(Finish(old(State()), i, final, error, outcome, fuel), State(), Some(out), 0, 0)
    {
      if fuel == 0 { return Crashed; }
      SaveState(i, final, error);
      return outcome;
    }

    method SettleWith(i: nat, to: Account, name: TxName, final: OpState, error: ErrorMessage, outcome: Outcome, fuel: nat)
      returns (out: Outcome)
      requires i < |ops| && AllowedMove(ops[i].state, final)
      modifies this`ops, ledger
      ensures Ends(Conclude(old(State()), i, to, name, final, error, outcome, fuel), State(), Some(out), 0, 0)
    {
      hide Post, Finish, AllowedMove;
      var left := fuel;
      if ops[i].identity.amount > 0 {
        var stop;
        stop, left := PostFor(i, Escrow, to, name, fuel);
        if stop.Some? { return stop.value; }
      }
      out := FinishWith(i, final, error, outcome, left);
    }

    method SubmitOperation(i: nat, token: nat, result: ProviderResult, fuel: nat) returns (out: Outcome)
      requires i < |ops| && ops[i].state == Escrowed
      modifies this`ops, this`dispatched, ledger
      ensures Ends(FromEscrowed(old(State()), i, token, result, fuel), State(), Some(out), 0, 0)
    {
      hide Conclude, Finish;
      if fuel == 0 { return Crashed; }
      SaveState(i, Submitted, NoError);
      if fuel == 1 { return Crashed; }
      dispatched := dispatched + [i];
      var left := fuel - 2;
      if result == Success {
        out := SettleWith(i, ExternalSink, Commit(token), Succeeded, NoError, Receipt, left);
      } else if result == Failure {
        out := SettleWith(i, Treasury, Rollback(token), Failed, ProviderRejected, RejectedByProvider, left);
      } else {
        out := FinishWith(i, Unknown, Ambiguous, OutcomeUnknown, left);
      }
    }

    method Execute(req: Request, result: ProviderResult, fuel: nat) returns (out: Outcome)
      modifies this, ledger
      ensures Ends(ExecuteProposal(old(State()), req, result, fuel), State(), Some(out), 0, 0)
    {
      hide Create, Authorize, Lockup, FromEscrowed;
      var stop, i, left := CreateOperation(req, fuel);
      if stop.Some? { return stop.value; }
      var st := ops[i].state;
      if st == Succeeded { return ReplayedReceipt; }
      if st == Unknown || st == Reconciling || st == Submitted { return Unresolved; }
      if st == Failed { return PreviouslyFailed; }
      if st == Created {
        stop, left := AuthorizeOperation(i, req.token.decision, left);
        if stop.Some? { return stop.value; }
      }
      if ops[i].state == Authorized {
        stop, left := EscrowOperation(i, left);
        if stop.Some? { return stop.value; }
      }
      if ops[i].state == Escrowed {
        out := SubmitOperation(i, req.token.decision, result, left);
        return out;
      }
      return UnexpectedState;
    }
  
    method ReconcilePostFor(i: nat, to: Account, name: TxName, already: bool, fuel: nat) returns (out: Option<Outcome>, left: nat)
      requires i < |ops|
      modifies ledger
      ensures Ends(ReconcilePost(old(State()), i, to, name, already, fuel), State(), out, i, left)
    {
      hide Post;
      var amount := ops[i].identity.amount;
      if amount == 0 || already || ledger.GetBalance(Escrow) < amount { return None, fuel; }
      out, left := PostFor(i, Escrow, to, name, fuel);
      if out == Some(LedgerRefused(DuplicateTransaction)) { return None, fuel; }
    }

    method ReconcileWith(i: nat, to: Account, name: TxName, already: bool, error: ErrorMessage, fuel: nat) returns (out: Outcome)
      requires i < |ops| && ops[i].state == Reconciling
      modifies this`ops, ledger
      ensures Ends(ReconcileTo(old(State()), i, to, name, already, error, fuel), State(), Some(out), 0, 0)
    {
      hide ReconcilePost, Finish;
      var stop, left := ReconcilePostFor(i, to, name, already, fuel);
      if stop.Some? { return stop.value; }
      out := FinishWith(i, Reconciled, error, Returned, left);
    }

    method ReconcileOperation(i: nat, tenant: nat, org: nat, status: ProviderResult, fuel: nat) returns (out: Outcome)
      modifies this`ops, ledger
      ensures Ends(Reconcile(old(State()), i, tenant, org, status, fuel), State(), Some(out), 0, 0)
    {
      hide Resolve;
      if i >= |ops| { return NotFound; }
      if ops[i].identity.tenant != tenant || ops[i].identity.org != org { return Unauthorized; }
      var st := ops[i].state;
      if st == Succeeded || st == Failed || st == Reconciled { return Returned; }
      if st != Unknown && st != Reconciling && st != Submitted { return NotReconcilable; }
      var left := fuel;
      if st != Reconciling {
        if left == 0 { return Crashed; }
        SaveState(i, Reconciling, NoError);
        left := left - 1;
      }
      out := ResolveWith(i, status, left);
    }

    method ResolveWith(i: nat, status: ProviderResult, fuel: nat) returns (out: Outcome)
      requires i < |ops| && ops[i].state == Reconciling
      modifies this`ops, ledger
      ensures Ends(Resolve(old(State()), i, status, fuel), State(), Some(out), 0, 0)
    {
      hide ReconcileTo, Finish, AlreadyCommitted, AlreadyRefunded;
      if status == Raised { return StatusRaised; }
      var amount := ops[i].identity.amount;
      if status == Success {
        out := ReconcileWith(i, ExternalSink, ReconcileCommit(i), AlreadyCommitted(ledger.entries, i, amount), NoError, fuel);
      } else if status == Failure {
        out := ReconcileWith(i, Treasury, ReconcileRollback(i), AlreadyRefunded(ledger.entries, i, amount), ProviderRejected, fuel);
      } else {
        out := FinishWith(i, Unknown, Ambiguous, Returned, fuel);
      }
    }
  }
}
