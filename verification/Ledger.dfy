// The double-entry ledger: balances, the entry log, the recorded transaction ids
// and the minted total, changed in place by mint, deposit and transfer.
module Ledger {

  datatype Option<+T> = None | Some(value: T)

  datatype Account =
    | SystemMint | Treasury | Escrow | ExternalSink | Revenue | SurplusReserve
    | Other(name: string)

  // Transaction ids chosen by callers. A digest of an id is modelled by the id itself,
  // so two names are equal exactly when the hashed ids are.
  datatype TxName =
    | Reservation(op: nat) | Commit(token: nat) | Rollback(token: nat)
    | ReconcileCommit(op: nat) | ReconcileRollback(op: nat)
    | LoopEscrow(op: nat) | LoopRefund(op: nat) | LoopRejected(op: nat) | LoopSettle(op: nat)
    | PurchaseCommit(op: nat) | PurchaseRollback(op: nat)
    | OrderLock(order: nat) | OrderRelease(order: nat) | OrderRefund(order: nat) | OrderRevenue(order: nat)
    | SurplusCost(group: nat) | SurplusKept(group: nat) | SurplusMission(group: nat)
    | Given(text: string)

  // A generated id stands for a fresh uuid: it carries the position of its entry.
  datatype TxId = Generated(serial: nat) | Chosen(name: TxName)

  datatype Memo = Plain | Mentions(id: nat)

  datatype Entry = Entry(tx: TxId, from: Account, to: Account, amount: int, memo: Memo)

  datatype Book = Book(balances: map<Account, int>, entries: seq<Entry>, txIds: set<TxId>, minted: int)

  datatype Refusal = DuplicateTransaction | NonPositiveAmount | SameAccount | InsufficientCredits

  datatype Posting = Posted(book: Book, entry: Entry) | Refused(reason: Refusal)

  function Balance(b: Book, a: Account): int {
    if a in b.balances then b.balances[a] else 0
  }

  function FreshId(b: Book, name: Option<TxName>): TxId {
    if name.Some? then Chosen(name.value) else Generated(|b.entries|)
  }

  function Empty(): Book {
    Book(map[], [], {}, 0)
  }

  // Unlike a deposit, a mint is not checked: any amount is posted.
  function Mint(b: Book, to: Account, amount: int): Posting {
    var e := Entry(Generated(|b.entries|), SystemMint, to, amount, Plain);
    Posted(Book(b.balances[to := Balance(b, to) + amount], b.entries + [e], b.txIds + {e.tx}, b.minted + amount), e)
  }

  function Deposit(b: Book, amount: int, name: Option<TxName>): Posting {
    if amount <= 0 then Refused(NonPositiveAmount)
    else if FreshId(b, name) in b.txIds then Refused(DuplicateTransaction)
    else
      var e := Entry(FreshId(b, name), SystemMint, Revenue, amount, Plain);
      Posted(Book(b.balances[Revenue := Balance(b, Revenue) + amount], b.entries + [e], b.txIds + {e.tx}, b.minted + amount), e)
  }

  function Transfer(b: Book, from: Account, to: Account, amount: int, memo: Memo, name: Option<TxName>): Posting {
    if FreshId(b, name) in b.txIds then Refused(DuplicateTransaction)
    else if amount <= 0 then Refused(NonPositiveAmount)
    else if from == to then Refused(SameAccount)
    else if Balance(b, from) < amount then Refused(InsufficientCredits)
    else
      var e := Entry(FreshId(b, name), from, to, amount, memo);
      var debited := b.balances[from := Balance(b, from) - amount];
      Posted(Book(debited[to := Balance(b, to) + amount], b.entries + [e], b.txIds + {e.tx}, b.minted), e)
  }

  function Open(initialTreasury: int): Book {
    if initialTreasury > 0 then Mint(Empty(), Treasury, initialTreasury).book else Empty()
  }

  // ---------- what the log says ----------

  function Flow(e: Entry, a: Account): int {
    (if e.to == a then e.amount else 0) - (if e.from == a then e.amount else 0)
  }

  function Net(entries: seq<Entry>, a: Account): int {
    if entries == [] then 0 else Net(entries[..|entries| - 1], a) + Flow(entries[|entries| - 1], a)
  }

  lemma NetAppend(entries: seq<Entry>, e: Entry, a: Account)
    ensures Net(entries + [e], a) == Net(entries, a) + Flow(e, a)
  {
    assert (entries + [e])[..|entries|] == entries;
  }

  // Sum of the balances of a set of accounts.
  ghost function Total(keys: set<Account>, m: map<Account, int>): int
    requires keys <= m.Keys
  {
    if keys == {} then 0
    else var k :| k in keys; m[k] + Total(keys - {k}, m)
  }

  lemma {:induction false} TotalTake(keys: set<Account>, m: map<Account, int>, k: Account)
    requires k in keys && keys <= m.Keys
    ensures Total(keys, m) == m[k] + Total(keys - {k}, m)
    decreases keys
  {
    var c :| c in keys && Total(keys, m) == m[c] + Total(keys - {c}, m);
    if c != k {
      TotalTake(keys - {c}, m, k);
      TotalTake(keys - {k}, m, c);
      assert keys - {c} - {k} == keys - {k} - {c};
    }
  }

  lemma {:induction false} TotalCongruent(keys: set<Account>, m: map<Account, int>, m': map<Account, int>)
    requires keys <= m.Keys && keys <= m'.Keys && forall k :: k in keys ==> m[k] == m'[k]
    ensures Total(keys, m) == Total(keys, m')
    decreases keys
  {
    if keys != {} {
      var k :| k in keys;
      TotalTake(keys, m, k);
      TotalTake(keys, m', k);
      TotalCongruent(keys - {k}, m, m');
    }
  }

  lemma TotalSet(m: map<Account, int>, k: Account, v: int)
    ensures Total(m[k := v].Keys, m[k := v]) == Total(m.Keys, m) + v - (if k in m then m[k] else 0)
  {
    var m' := m[k := v];
    TotalTake(m'.Keys, m', k);
    assert m'.Keys - {k} == m.Keys - {k};
    TotalCongruent(m.Keys - {k}, m, m');
    if k in m { TotalTake(m.Keys, m, k); } else { assert m.Keys - {k} == m.Keys; }
  }

  // The check the auditor runs: the non-mint balances add up to what was minted.
  ghost predicate Conserved(b: Book) {
    Total(b.balances.Keys - {SystemMint}, b.balances) == b.minted
  }

  ghost predicate DistinctIds(entries: seq<Entry>) {
    forall i, j :: 0 <= i < j < |entries| ==> entries[i].tx != entries[j].tx
  }

  // What every reachable book satisfies, whatever was minted: log, ids, balances and totals agree.
  ghost predicate Consistent(b: Book) {
    && DistinctIds(b.entries)
    && b.txIds == (set e | e in b.entries :: e.tx)
    && (forall t :: t in b.txIds && t.Generated? ==> t.serial < |b.entries|)
    && (forall a :: a != SystemMint ==> Balance(b, a) == Net(b.entries, a))
    && Total(b.balances.Keys, b.balances) == b.minted
  }

  // ... and nothing is overdrawn, as long as nothing but positive amounts was minted.
  ghost predicate Valid(b: Book) {
    && Consistent(b)
    && (forall a :: Balance(b, a) >= 0)
    && (forall i :: 0 <= i < |b.entries| ==> b.entries[i].amount > 0)
  }

  // Common part of the three write operations: one entry is logged under a new id.
  lemma PostKeepsLog(b: Book, b': Book, e: Entry)
    requires Consistent(b)
    requires e.tx !in b.txIds && (e.tx.Generated? ==> e.tx.serial == |b.entries|)
    requires b'.entries == b.entries + [e] && b'.txIds == b.txIds + {e.tx}
    requires forall a :: a != SystemMint ==> Balance(b', a) == Balance(b, a) + Flow(e, a)
    requires Total(b'.balances.Keys, b'.balances) == b'.minted
    ensures Consistent(b')
  {
    hide Balance, Flow, Total;
    forall a | a != SystemMint ensures Balance(b', a) == Net(b'.entries, a) {
      NetAppend(b.entries, e, a);
    }
    hide Net;
    IdsAppend(b.entries, e, b.txIds);
  }

  lemma IdsAppend(entries: seq<Entry>, e: Entry, ids: set<TxId>)
    requires DistinctIds(entries) && ids == (set x | x in entries :: x.tx) && e.tx !in ids
    ensures DistinctIds(entries + [e]) && ids + {e.tx} == (set x | x in entries + [e] :: x.tx)
  {
    assert forall i :: 0 <= i < |entries| ==> entries[i].tx in ids;
    assert forall x :: x in entries + [e] <==> x in entries || x == e;
  }

  lemma MintKeepsConsistent(b: Book, to: Account, amount: int)
    requires Consistent(b)
    ensures Consistent(Mint(b, to, amount).book)
  {
    TotalSet(b.balances, to, Balance(b, to) + amount);
    hide Total, Consistent;
    assert Generated(|b.entries|) !in b.txIds by { FreshIds(b); }
    var p := Mint(b, to, amount);
    assert Total(p.book.balances.Keys, p.book.balances) == p.book.minted by { FreshIds(b); }
    PostKeepsLog(b, p.book, p.entry);
  }

  lemma FreshIds(b: Book)
    requires Consistent(b)
    ensures Generated(|b.entries|) !in b.txIds && Total(b.balances.Keys, b.balances) == b.minted
  {}

  // The unchecked mint keeps a book valid exactly when the amount is positive.
  lemma MintKeepsValidIff(b: Book, to: Account, amount: int)
    requires Valid(b)
    ensures Valid(Mint(b, to, amount).book) <==> amount > 0
  {
    MintKeepsConsistent(b, to, amount);
    hide Consistent;
    var b' := Mint(b, to, amount).book;
    assert b'.entries[|b.entries|].amount == amount;
    forall a ensures amount > 0 ==> Balance(b', a) >= 0 { assert Balance(b, a) >= 0; }
  }

  lemma DepositKeepsConsistent(b: Book, amount: int, name: Option<TxName>)
    requires Consistent(b)
    ensures Deposit(b, amount, name).Posted? ==> Consistent(Deposit(b, amount, name).book)
  {
    var p := Deposit(b, amount, name);
    if p.Posted? {
      TotalSet(b.balances, Revenue, Balance(b, Revenue) + amount);
      FreshIds(b);
      hide Total, Consistent;
      PostKeepsLog(b, p.book, p.entry);
    }
  }

  lemma DepositKeepsValid(b: Book, amount: int, name: Option<TxName>)
    requires Valid(b)
    ensures Deposit(b, amount, name).Posted? ==> Valid(Deposit(b, amount, name).book)
  {
    DepositKeepsConsistent(b, amount, name);
    hide Consistent;
    var p := Deposit(b, amount, name);
    forall a ensures p.Posted? ==> Balance(p.book, a) >= 0 { assert Balance(b, a) >= 0; }
  }

  lemma TransferKeepsConsistent(b: Book, from: Account, to: Account, amount: int, memo: Memo, name: Option<TxName>)
    requires Consistent(b)
    ensures Transfer(b, from, to, amount, memo, name).Posted? ==>
              Consistent(Transfer(b, from, to, amount, memo, name).book)
  {
    var p := Transfer(b, from, to, amount, memo, name);
    if p.Posted? {
      TotalSet(b.balances, from, Balance(b, from) - amount);
      TotalSet(b.balances[from := Balance(b, from) - amount], to, Balance(b, to) + amount);
      FreshIds(b);
      hide Total, Consistent;
      PostKeepsLog(b, p.book, p.entry);
    }
  }

  lemma TransferKeepsValid(b: Book, from: Account, to: Account, amount: int, memo: Memo, name: Option<TxName>)
    requires Valid(b)
    ensures Transfer(b, from, to, amount, memo, name).Posted? ==>
              Valid(Transfer(b, from, to, amount, memo, name).book)
  {
    TransferKeepsConsistent(b, from, to, amount, memo, name);
    hide Consistent;
    var p := Transfer(b, from, to, amount, memo, name);
    forall a ensures p.Posted? ==> Balance(p.book, a) >= 0 { assert Balance(b, a) >= 0; }
  }

  // When a transfer under a chosen id is accepted, and what it then changes.
  lemma TransferIs(b: Book, from: Account, to: Account, amount: int, memo: Memo, name: TxName)
    ensures var p := Transfer(b, from, to, amount, memo, Some(name));
            && (p.Posted? <==> Chosen(name) !in b.txIds && amount > 0 && from != to && Balance(b, from) >= amount)
            && (p.Posted? ==>
                  && p.book.txIds == b.txIds + {Chosen(name)} && p.book.minted == b.minted
                  && forall a :: Balance(p.book, a) ==
                       Balance(b, a) + (if a == to then amount else 0) - (if a == from then amount else 0))
  {}

  // What it logs, and the first reason for which it refuses: a used id, then the amount, then one account on both
  // sides, then the balance.
  lemma TransferLogs(b: Book, from: Account, to: Account, amount: int, memo: Memo, name: Option<TxName>)
    ensures var p := Transfer(b, from, to, amount, memo, name); var tx := if name.Some? then Chosen(name.value) else Generated(|b.entries|);
            if tx in b.txIds then p == Refused(DuplicateTransaction)
            else if amount <= 0 then p == Refused(NonPositiveAmount)
            else if from == to then p == Refused(SameAccount)
            else if Balance(b, from) < amount then p == Refused(InsufficientCredits)
            else
              && p.Posted? && p.entry == Entry(tx, from, to, amount, memo) && p.book.entries == b.entries + [p.entry]
              && p.book.txIds == b.txIds + {tx} && p.book.minted == b.minted
              && Balance(p.book, from) == Balance(b, from) - amount && Balance(p.book, to) == Balance(b, to) + amount
              && forall a :: a != from && a != to ==> Balance(p.book, a) == Balance(b, a)
  {}

  // A deposit needs a positive amount and then a fresh id; it mints into revenue.
  lemma DepositIs(b: Book, amount: int, name: Option<TxName>)
    ensures var p := Deposit(b, amount, name); var tx := if name.Some? then Chosen(name.value) else Generated(|b.entries|);
            if amount <= 0 then p == Refused(NonPositiveAmount)
            else if tx in b.txIds then p == Refused(DuplicateTransaction)
            else p.Posted? && p.entry == Entry(tx, SystemMint, Revenue, amount, Plain) && MintedInto(b, p, Revenue, amount)
  {}

  // A mint is never refused.
  lemma MintIs(b: Book, to: Account, amount: int)
    ensures var p := Mint(b, to, amount);
            p.Posted? && p.entry == Entry(Generated(|b.entries|), SystemMint, to, amount, Plain) && MintedInto(b, p, to, amount)
  {}

  // One entry, one id, and the amount added to one balance and to the minted total.
  ghost predicate MintedInto(b: Book, p: Posting, to: Account, amount: int) {
    && p.Posted? && p.book.entries == b.entries + [p.entry] && p.book.txIds == b.txIds + {p.entry.tx}
    && p.book.minted == b.minted + amount
    && forall a :: Balance(p.book, a) == Balance(b, a) + (if a == to then amount else 0)
  }

  // The second book is the first with these credits added to the three accounts.
  ghost predicate Shifted(b: Book, b': Book, treasury: int, escrow: int, sink: int) {
    forall a :: Balance(b', a) == Balance(b, a) +
      (if a == Treasury then treasury else if a == Escrow then escrow else if a == ExternalSink then sink else 0)
  }

  // The auditor's check passes exactly when nothing has been parked on the mint account.
  lemma ConservedIffMintEmpty(b: Book)
    requires Consistent(b)
    ensures Conserved(b) <==> Balance(b, SystemMint) == 0
  {
    if SystemMint in b.balances { TotalTake(b.balances.Keys, b.balances, SystemMint); }
    else { assert b.balances.Keys - {SystemMint} == b.balances.Keys; }
  }

  // Conservation is not kept unconditionally: `transfer` accepts the mint as a destination.
  // It is kept by an accepted transfer exactly when the destination is another account.
  lemma TransferConservesIff(b: Book, from: Account, to: Account, amount: int, memo: Memo, name: Option<TxName>)
    requires Consistent(b) && Conserved(b)
    requires Transfer(b, from, to, amount, memo, name).Posted?
    ensures Conserved(Transfer(b, from, to, amount, memo, name).book) <==> to != SystemMint
  {
    ConservedIffMintEmpty(b);
    TransferKeepsConsistent(b, from, to, amount, memo, name);
    hide Conserved, Consistent;
    ConservedIffMintEmpty(Transfer(b, from, to, amount, memo, name).book);
  }

  lemma TransferToMintBreaksConservation()
    ensures var p := Transfer(Open(100), Treasury, SystemMint, 1, Plain, None);
            p.Posted? && !Conserved(p.book)
  {
    hide Open;
    var b := Open(100);
    OpenIsPlain(100);
    ConservedIffMintEmpty(b);
    FreshIds(b);
    OpenHolds(100);
    hide Consistent, Conserved, Valid;
    TransferConservesIff(b, Treasury, SystemMint, 1, Plain, None);
  }

  lemma OpenHolds(initialTreasury: int)
    requires initialTreasury > 0
    ensures Balance(Open(initialTreasury), Treasury) == initialTreasury && |Open(initialTreasury).entries| == 1
  {}

  lemma EmptyValid()
    ensures Valid(Empty())
  {
    assert Empty().balances.Keys == {};
  }

  lemma OpenIsPlain(initialTreasury: int)
    ensures var b := Open(initialTreasury);
            && Valid(b) && Balance(b, Escrow) == Balance(b, SystemMint) == 0
            && (forall e :: e in b.entries ==> e.tx.Generated? && e.from == SystemMint && e.to == Treasury && e.memo == Plain)
  {
    EmptyValid();
    if initialTreasury > 0 { MintKeepsValidIff(Empty(), Treasury, initialTreasury); }
    hide Valid;
  }

  // ---------- runs ----------

  datatype Call =
    | CallMint(to: Account, amount: int)
    | CallDeposit(amount: int, name: Option<TxName>)
    | CallTransfer(from: Account, to: Account, amount: int, memo: Memo, name: Option<TxName>)

  function Try(b: Book, c: Call): Posting {
    match c
    case CallMint(to, amount) => Mint(b, to, amount)
    case CallDeposit(amount, name) => Deposit(b, amount, name)
    case CallTransfer(from, to, amount, memo, name) => Transfer(b, from, to, amount, memo, name)
  }

  // A refused call leaves the book as it was.
  function After(b: Book, c: Call): Book {
    var p := Try(b, c);
    if p.Posted? then p.book else b
  }

  function Run(b: Book, calls: seq<Call>): Book
    decreases |calls|
  {
    if calls == [] then b else Run(After(b, calls[0]), calls[1..])
  }

  ghost predicate NeverToMint(calls: seq<Call>) {
    forall c :: c in calls ==> !c.CallDeposit? ==> c.to != SystemMint
  }

  ghost predicate MintsPositive(calls: seq<Call>) {
    forall c :: c in calls && c.CallMint? ==> c.amount > 0
  }

  lemma AfterKeepsConsistent(b: Book, c: Call)
    requires Consistent(b)
    ensures Consistent(After(b, c))
  {
    hide Consistent, Transfer, Deposit, Mint;
    match c
    case CallMint(to, amount) => MintKeepsConsistent(b, to, amount);
    case CallDeposit(amount, name) => DepositKeepsConsistent(b, amount, name);
    case CallTransfer(from, to, amount, memo, name) => TransferKeepsConsistent(b, from, to, amount, memo, name);
  }

  lemma AfterKeepsValid(b: Book, c: Call)
    requires Valid(b) && (c.CallMint? ==> c.amount > 0)
    ensures Valid(After(b, c))
  {
    hide Valid, Transfer, Deposit, Mint;
    match c
    case CallMint(to, amount) => MintKeepsValidIff(b, to, amount);
    case CallDeposit(amount, name) => DepositKeepsValid(b, amount, name);
    case CallTransfer(from, to, amount, memo, name) => TransferKeepsValid(b, from, to, amount, memo, name);
  }

  // An empty mint account stays empty under a call that does not name it.
  lemma MintStaysEmpty(b: Book, c: Call)
    requires Balance(b, SystemMint) == 0 && (!c.CallDeposit? ==> c.to != SystemMint)
    ensures Balance(After(b, c), SystemMint) == 0
  {}

  lemma {:induction false} RunKeepsValid(b: Book, calls: seq<Call>)
    requires Consistent(b)
    ensures Consistent(Run(b, calls))
    ensures Valid(b) && MintsPositive(calls) ==> Valid(Run(b, calls))
    ensures Balance(b, SystemMint) == 0 && NeverToMint(calls) ==> Balance(Run(b, calls), SystemMint) == 0
    decreases |calls|
  {
    hide Consistent, Valid, After, Balance;
    if calls != [] {
      var c := calls[0];
      assert c in calls;
      AfterKeepsConsistent(b, c);
      if Valid(b) && MintsPositive(calls) { AfterKeepsValid(b, c); }
      if Balance(b, SystemMint) == 0 && NeverToMint(calls) { MintStaysEmpty(b, c); }
      RunKeepsValid(After(b, c), calls[1..]);
    }
  }

  // Every ledger ever reached: log and balances agree, ids are unique, the conservation check passes
  // exactly when the mint account is empty, which it stays as long as no call names it; and nothing is
  // overdrawn as long as the unchecked mint is given positive amounts.
  lemma EveryLedgerIsSound(initialTreasury: int, calls: seq<Call>)
    ensures var b := Run(Open(initialTreasury), calls);
            && Consistent(b)
            && (MintsPositive(calls) ==> Valid(b))
            && (Conserved(b) <==> Balance(b, SystemMint) == 0)
            && (NeverToMint(calls) ==> Conserved(b))
  {
    OpenIsPlain(initialTreasury);
    RunKeepsValid(Open(initialTreasury), calls);
    ConservedIffMintEmpty(Run(Open(initialTreasury), calls));
    hide Consistent, Run, Open;
  }

  // ---------- the object ----------

  class DoubleEntryLedger {
    var balances: map<Account, int>
    var entries: seq<Entry>
    var recordedTxIds: set<TxId>
    var totalMinted: int

    ghost function State(): Book
      reads this
    {
      Book(balances, entries, recordedTxIds, totalMinted)
    }

    constructor (initialTreasury: int)
      ensures State() == Open(initialTreasury)
    {
      balances, entries, recordedTxIds, totalMinted := map[], [], {}, 0;
      new;
      if initialTreasury > 0 {
        MintTo(Treasury, initialTreasury);
      }
    }

    function GetBalance(a: Account): (r: int)
      reads this
      ensures r == Balance(State(), a)
    {
      if a in balances then balances[a] else 0
    }

    method MintTo(to: Account, amount: int)
      modifies this
      ensures State() == Mint(old(State()), to, amount).book
    {
      var tx := Generated(|entries|);
      entries := entries + [Entry(tx, SystemMint, to, amount, Plain)];
      recordedTxIds := recordedTxIds + {tx};
      balances := balances[to := GetBalance(to) + amount];
      totalMinted := totalMinted + amount;
    }

    method DepositRevenue(amount: int, name: Option<TxName>) returns (r: Option<Refusal>)
      modifies this
      ensures var p := Deposit(old(State()), amount, name);
              if p.Posted? then r == None && State() == p.book
              else r == Some(p.reason) && State() == old(State())
    {
      if amount <= 0 { return Some(NonPositiveAmount); }
      var tx := if name.Some? then Chosen(name.value) else Generated(|entries|);
      if tx in recordedTxIds { return Some(DuplicateTransaction); }
      entries := entries + [Entry(tx, SystemMint, Revenue, amount, Plain)];
      recordedTxIds := recordedTxIds + {tx};
      balances := balances[Revenue := GetBalance(Revenue) + amount];
      totalMinted := totalMinted + amount;
      return None;
    }

    method Move(from: Account, to: Account, amount: int, memo: Memo, name: Option<TxName>) returns (r: Option<Refusal>)
      modifies this
      ensures var p := Transfer(old(State()), from, to, amount, memo, name);
              if p.Posted? then r == None && State() == p.book
              else r == Some(p.reason) && State() == old(State())
    {
      var tx := if name.Some? then Chosen(name.value) else Generated(|entries|);
      var current := GetBalance(from);
      if tx in recordedTxIds { r := Some(DuplicateTransaction); }
      else if amount <= 0 { r := Some(NonPositiveAmount); }
      else if from == to { r := Some(SameAccount); }
      else if current < amount { r := Some(InsufficientCredits); }
      else {
        entries := entries + [Entry(tx, from, to, amount, memo)];
        recordedTxIds := recordedTxIds + {tx};
        balances := balances[from := current - amount];
        balances := balances[to := GetBalance(to) + amount];
        r := None;
      }
    }

    method VerifyConservation() returns (ok: bool)
      ensures ok <==> Conserved(State())
    {
      var rest := balances.Keys - {SystemMint};
      var sum := 0;
      while rest != {}
        invariant rest <= balances.Keys
        invariant sum + Total(rest, balances) == Total(balances.Keys - {SystemMint}, balances)
        decreases rest
      {
        var k :| k in rest;
        TotalTake(rest, balances, k);
        sum := sum + balances[k];
        rest := rest - {k};
      }
      ok := sum == totalMinted;
    }
  }
}
